/**
 The session context: a `{token, user}` pair backed by four store keys, with
 `login`, `logout`, `hasRole` and the startup reconstruction. Each operation
 is a function from one `State` (live session plus store) to the next.
 */
module Auth {
  import opened Js
  import opened Users
  import opened Storage

  /** The live session: `token` as the last setter left it, and `user`. */
  datatype Session = Session(token: Value, user: Option<UserRecord>)

  datatype State = State(session: Session, store: Store)

  const NoSession: Session := Session(Null, None)

  // ---------------------------------------------------------------------------
  // login
  // ---------------------------------------------------------------------------

  /** The fixed-shape user record `login` builds from a loosely shaped payload.
      `name` and `role` are not carried over. */
  function Normalise(p: UserRecord): (u: UserRecord)
    // userId prefers the payload's userId, id prefers its id; neither is ever a falsy non-null
    ensures Truthy(p.userId) ==> u.userId == p.userId
    ensures !Truthy(p.userId) && Truthy(p.id) ==> u.userId == p.id
    ensures Truthy(p.id) ==> u.id == p.id
    ensures !Truthy(p.id) && Truthy(p.userId) ==> u.id == p.userId
    ensures !Truthy(p.userId) && !Truthy(p.id) ==> u.userId == Null && u.id == Null
    ensures Truthy(u.userId) <==> Truthy(u.id)
    ensures u.userId == Null || Truthy(u.userId)
    // display name falls back username -> name -> email
    ensures Truthy(p.username) ==> u.username == p.username
    ensures !Truthy(p.username) && Truthy(p.name) ==> u.username == p.name
    ensures !Truthy(p.username) && !Truthy(p.name) ==> u.username == p.email
    ensures u.email == p.email
    ensures u.roles.Some? && (forall tag :: tag in u.roles.value <==> Holds(Some(p), tag))
    ensures p.roles.Some? ==> u.roles == p.roles
    ensures u.jobSeekerId == (if Truthy(p.jobSeekerId) then p.jobSeekerId else Null)
    ensures u.employerId == (if Truthy(p.employerId) then p.employerId else Null)
    ensures u.name == Undefined && u.role == Undefined
  {
    UserRecord(
      userId := Or(Or(p.userId, p.id), Null),
      id := Or(Or(p.id, p.userId), Null),
      username := Or(Or(p.username, p.name), p.email),
      name := Undefined,
      email := p.email,
      role := Undefined,
      roles := Some(RolesOf(Some(p))),
      jobSeekerId := Or(p.jobSeekerId, Null),
      employerId := Or(p.employerId, Null))
  }

  /** The text `login` stores for a profile-id hint, `String(hint || "")`:
      empty exactly when the hint is absent or falsy. */
  function HintText(hint: Value): (t: string)
    ensures t == "" <==> !Truthy(hint)
  {
    ToString(Or(hint, Str("")))
  }

  /** `login(jwt, payload)`: store token, RAW payload and both hints, then set
      the live token and the normalised user. The previous session is irrelevant. */
  function Login(s: State, jwt: Value, p: UserRecord): (r: State)
    ensures r.session == Session(jwt, Some(Normalise(p)))
    ensures r.store.Keys == s.store.Keys + SessionKeys
    ensures r.store[TokenKey] == Text(ToString(jwt))
    ensures r.store[UserKey] == UserJson(p)
    ensures r.store[JobSeekerIdKey] == Text(HintText(p.jobSeekerId))
    ensures r.store[EmployerIdKey] == Text(HintText(p.employerId))
    ensures forall k :: k in s.store && k !in SessionKeys ==> r.store[k] == s.store[k]
  {
    var st1 := SetValue(s.store, TokenKey, jwt);
    var st2 := st1[UserKey := UserJson(p)];
    var st3 := SetValue(st2, JobSeekerIdKey, Or(p.jobSeekerId, Str("")));
    var st4 := SetValue(st3, EmployerIdKey, Or(p.employerId, Str("")));
    State(Session(jwt, Some(Normalise(p))), st4)
  }

  /** The second argument `login` receives: the response's `user` object, or
      `undefined` or `null` when the response carried none. */
  datatype Payload = Object(record: UserRecord) | UndefinedUser | NullUser

  /** `JSON.stringify` of a payload that is not an object, as `setItem` stores
      it: `JSON.stringify(undefined)` is undefined, stored as "undefined". */
  function MissingUserText(payload: Payload): string {
    if payload.UndefinedUser? then "undefined" else "null"
  }

  /** A call of `login`: the state it leaves, and whether it threw. */
  datatype Called = Called(state: State, threw: bool)

  /** `login` on any payload. Without a user object the first two `setItem`
      calls run, then reading `userPayload.jobSeekerId` throws: the hint keys
      and the live session are left as they were. */
  function LoginCall(s: State, jwt: Value, payload: Payload): (r: Called)
    ensures payload.Object? ==> r == Called(Login(s, jwt, payload.record), false)
    ensures !payload.Object? ==> r.threw && r.state.session == s.session
    ensures !payload.Object? ==> r.state.store.Keys == s.store.Keys + {TokenKey, UserKey}
    ensures !payload.Object? ==> r.state.store[TokenKey] == Text(ToString(jwt))
    ensures payload.UndefinedUser? ==> r.state.store[UserKey] == Text("undefined")
    ensures payload.NullUser? ==> r.state.store[UserKey] == Text("null")
    ensures !payload.Object? ==>
              forall k :: k in s.store && k != TokenKey && k != UserKey ==> r.state.store[k] == s.store[k]
  {
    match payload
    case Object(p) => Called(Login(s, jwt, p), false)
    case _ =>
      var st1 := SetValue(s.store, TokenKey, jwt);
      Called(State(s.session, st1[UserKey := Text(MissingUserText(payload))]), true)
  }

  // ---------------------------------------------------------------------------
  // logout
  // ---------------------------------------------------------------------------

  /** `logout()`: remove the four keys and clear the live session. */
  function Logout(s: State): (r: State)
    ensures r.session.token == Null && r.session.user == None
    ensures forall k :: k in SessionKeys ==> k !in r.store
    ensures forall k :: k !in SessionKeys ==> (k in r.store <==> k in s.store)
    ensures forall k :: k in r.store ==> r.store[k] == s.store[k]
  {
    State(NoSession, RemoveKeys(s.store, SessionKeys))
  }

  // ---------------------------------------------------------------------------
  // hasRole
  // ---------------------------------------------------------------------------

  /** `required.some(r => user?.roles?.includes(r))`. */
  function AnyHeld(user: Option<UserRecord>, required: seq<string>): (r: bool)
    ensures r <==> exists i :: 0 <= i < |required| && Holds(user, required[i])
  {
    if |required| == 0 then false
    else Holds(user, required[0]) || AnyHeld(user, required[1..])
  }

  /** `hasRole(required)`: no requirement admits everyone (even with no user);
      otherwise at least one required role must be among the user's roles. */
  function HasRole(s: Session, required: seq<string>): (r: bool)
    ensures |required| == 0 ==> r
    ensures |required| > 0 ==> (r <==> exists tag :: tag in required && Holds(s.user, tag))
  {
    |required| == 0 || AnyHeld(s.user, required)
  }

  // ---------------------------------------------------------------------------
  // startup
  // ---------------------------------------------------------------------------

  /** Startup either builds a session or throws, because `JSON.parse` of a
      corrupt `cc_user` throws and nothing catches it. */
  datatype Boot = Booted(session: Session) | Crashed

  /** A hint as startup reads it: `stored ? Number(stored) : null`. */
  function RestoredHint(st: Store, k: string): (v: Value)
    ensures k !in st ==> v == Null
    ensures k in st && ItemText(st[k]) == "" ==> v == Null
    ensures k in st && ItemText(st[k]) != "" ==> v == ToNumber(ItemText(st[k]))
  {
    var stored := GetText(st, k);
    if Truthy(stored) then ToNumber(stored.s) else Null
  }

  /** The session the provider starts with. A `Text` item under `cc_user` is
      written only by a `login` without a user object. "null" parses to null,
      which reads as no user; any other non-empty text is taken as unparseable. */
  function Startup(st: Store): (r: Boot)
    ensures r.Crashed? <==> UserKey in st && st[UserKey].Text? && st[UserKey].text !in {"", "null"}
    ensures r.Booted? ==> r.session.token == GetText(st, TokenKey)
    ensures r.Booted? ==> (r.session.user.Some? <==> UserKey in st && st[UserKey].UserJson?)
  {
    var raw: Option<Item> := if UserKey in st then Some(st[UserKey]) else None;
    match raw
    case None => Booted(Session(GetText(st, TokenKey), None))
    case Some(Text(t)) =>
      if t == "" || t == "null" then Booted(Session(GetText(st, TokenKey), None)) else Crashed
    case Some(UserJson(p)) =>
      var user := p.(jobSeekerId := RestoredHint(st, JobSeekerIdKey),
                     employerId := RestoredHint(st, EmployerIdKey));
      Booted(Session(GetText(st, TokenKey), Some(user)))
  }

  // ---------------------------------------------------------------------------
  // Properties
  // ---------------------------------------------------------------------------

  /** A hint after a write by `login` and a read by startup. */
  function Reread(hint: Value): Value {
    if Truthy(hint) then ToNumber(ToString(hint)) else Null
  }

  /** Reloading after `login` gives back the token as text, the RAW payload,
      and each hint passed through `String` and `Number`. */
  lemma LoginThenStartup(s: State, jwt: Value, p: UserRecord)
    ensures Startup(Login(s, jwt, p).store)
         == Booted(Session(Str(ToString(jwt)),
                           Some(p.(jobSeekerId := Reread(p.jobSeekerId),
                                   employerId := Reread(p.employerId)))))
  {
    var st := Login(s, jwt, p).store;
    assert RestoredHint(st, JobSeekerIdKey) == Reread(p.jobSeekerId);
    assert RestoredHint(st, EmployerIdKey) == Reread(p.employerId);
  }

  /** An absent or falsy hint comes back as null, and a numeric one as the same
      number: for such hints the reloaded value equals the live one. */
  lemma HintRoundTrip(hint: Value)
    requires hint.Num? || !Truthy(hint)
    ensures Reread(hint) == (if Truthy(hint) then hint else Null)
  {
    if Truthy(hint) {
      NumberRoundTrip(hint.n);
    }
  }

  /** A non-empty string token survives a reload unchanged. */
  lemma TokenRoundTrip(s: State, t: string, p: UserRecord)
    ensures Startup(Login(s, Str(t), p).store).session.token == Str(t)
  {
    LoginThenStartup(s, Str(t), p);
  }

  /** A response without a token leaves the live token falsy, but the store
      holds the text "undefined", which is truthy after a reload. */
  lemma MissingTokenRevivedByReload(s: State, p: UserRecord)
    ensures !Truthy(Login(s, Undefined, p).session.token)
    ensures Truthy(Startup(Login(s, Undefined, p).store).session.token)
  {
    LoginThenStartup(s, Undefined, p);
  }

  /** The live user and the reloaded user pass exactly the same role checks,
      although only the live one has a role list when the payload had none. */
  lemma HasRoleSurvivesReload(s: State, jwt: Value, p: UserRecord, required: seq<string>)
    ensures Startup(Login(s, jwt, p).store).Booted?
    ensures HasRole(Login(s, jwt, p).session, required)
        == HasRole(Startup(Login(s, jwt, p).store).session, required)
  {
    LoginThenStartup(s, jwt, p);
    var live := Login(s, jwt, p).session;
    var reloaded := Startup(Login(s, jwt, p).store).session;
    forall tag
      ensures Holds(live.user, tag) <==> Holds(reloaded.user, tag)
    {
      assert Holds(live.user, tag) <==> Holds(Some(p), tag);
    }
  }

  /** The reloaded user is the raw payload, not the normalised record: a payload
      carrying only `id` yields a live `userId` but no reloaded one. */
  lemma ReloadKeepsRawShape(s: State, jwt: Value, p: UserRecord)
    requires p.userId == Undefined && Truthy(p.id)
    ensures Truthy(Login(s, jwt, p).session.user.value.userId)
    ensures Startup(Login(s, jwt, p).store).session.user.value.userId == Undefined
  {
    LoginThenStartup(s, jwt, p);
  }

  /** After a `login` that threw for want of a user object, a reload crashes
      when the response had no `user` at all, and comes back with the token
      but no user when it had `user: null`. */
  lemma MissingUserThenReload(s: State, jwt: Value)
    ensures Startup(LoginCall(s, jwt, UndefinedUser).state.store).Crashed?
    ensures Startup(LoginCall(s, jwt, NullUser).state.store) == Booted(Session(Str(ToString(jwt)), None))
  {
  }

  /** Logging in twice with the same response is the same as once. */
  lemma LoginIdempotent(s: State, jwt: Value, p: UserRecord)
    ensures Login(Login(s, jwt, p), jwt, p) == Login(s, jwt, p)
  {
    var once := Login(s, jwt, p);
    var twice := Login(once, jwt, p);
    assert twice.store.Keys == once.store.Keys;
    assert forall k :: k in once.store ==> twice.store[k] == once.store[k];
  }

  /** Logging out twice is the same as once, and a reload after it finds no session. */
  lemma LogoutIdempotent(s: State)
    ensures Logout(Logout(s)) == Logout(s)
    ensures Startup(Logout(s).store) == Booted(NoSession)
  {
    assert Logout(s).store - SessionKeys == Logout(s).store;
  }

  /** A payload without roles gives a user who fails every non-empty requirement. */
  lemma NoRolesPassesNoGate(s: State, jwt: Value, p: UserRecord, required: seq<string>)
    requires p.roles.None? && |required| > 0
    ensures !HasRole(Login(s, jwt, p).session, required)
  {
  }

  /** The worked example: `login("tok123", {id: 7, email: "a@b.com", roles: ["job_seeker"]})`. */
  lemma ExampleLogin(s: State)
    ensures var p := UserRecord(Undefined, Num(7), Undefined, Undefined, Str("a@b.com"),
                                Undefined, Some([JobSeeker]), Undefined, Undefined);
            Login(s, Str("tok123"), p).session
              == Session(Str("tok123"),
                         Some(UserRecord(Num(7), Num(7), Str("a@b.com"), Undefined, Str("a@b.com"),
                                         Undefined, Some([JobSeeker]), Null, Null)))
  {
  }
}
