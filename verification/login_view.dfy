/**
 The login page: form constraints, the login call, and the choice of where to
 go afterwards, which closes the loop the gate opens when it bounces a user.
 */
module LoginView {
  import opened Js
  import opened Users
  import opened Auth
  import opened Gate
  import opened Http
  import opened Routes
  import opened Storage
  import Register

  datatype Credentials = Credentials(email: string, password: string)

  /** The form schema: a non-empty email the format check accepts, and a
      password of at least six characters. `isEmail` stands for the form
      library's email-format test, which is not modelled. */
  predicate FormValid(c: Credentials, isEmail: string -> bool) {
    c.email != "" && isEmail(c.email) && c.password != "" && |c.password| >= 6
  }

  /** The body of the successful login response; `user` may be missing. */
  datatype LoginData = LoginData(token: Value, user: Payload)

  /** `loc.state?.from?.pathname || "/"`. */
  function Destination(from: Option<Location>): (d: string)
    ensures from.Some? && from.value.pathname != "" ==> d == from.value.pathname
    ensures from.None? || from.value.pathname == "" ==> d == HomePath
  {
    if from.Some? && from.value.pathname != "" then from.value.pathname else HomePath
  }

  datatype Submitted = Submitted(state: State, request: Request, effect: Effect)

  /** Submitting a valid form: POST the credentials; on success log in with the
      response's token and user and then navigate; on failure only alert. A
      success without a user object makes `login` throw after its first two
      writes, and the same alert follows with the fallback text. */
  function Submit(s: State, c: Credentials, isEmail: string -> bool, from: Option<Location>,
                  reply: Reply<LoginData>): (r: Submitted)
    requires FormValid(c, isEmail)
    ensures r.request.verb == Post && r.request.path == "/auth/login"
    ensures r.request.body == map["email" := Str(c.email), "password" := Str(c.password)]
    ensures reply.Ok? ==> r.state == LoginCall(s, reply.data.token, reply.data.user).state
    ensures reply.Ok? && reply.data.user.Object? ==> r.effect == NavigateTo(Destination(from))
    ensures reply.Ok? && !reply.data.user.Object? ==> r.effect == Alert("Login failed")
    ensures reply.Err? ==> r.state == s
    ensures reply.Err? ==> r.effect == Alert(MessageOr(reply.error, "Login failed"))
  {
    var request := Request(Post, "/auth/login", map["email" := Str(c.email), "password" := Str(c.password)]);
    match reply
    case Ok(data) =>
      var call := LoginCall(s, data.token, data.user);
      if call.threw then Submitted(call.state, request, Alert("Login failed"))
      else Submitted(call.state, request, NavigateTo(Destination(from)))
    case Err(e) =>
      Submitted(s, request, Alert(MessageOr(e, "Login failed")))
  }

  /** A user without a token who opens a restricted path is sent to the login
      page, and logging in successfully brings them back to that pathname (the
      query and hash are not kept). */
  lemma BounceAndReturn(s: State, loc: Location, c: Credentials, isEmail: string -> bool, token: Value, p: UserRecord)
    requires loc.pathname in EmployerPaths || loc.pathname in JobSeekerPaths
    requires !Truthy(s.session.token)
    requires FormValid(c, isEmail)
    ensures Navigate(s.session, loc) == Redirect(LoginPath, Some(loc))
    ensures Submit(s, c, isEmail, Some(loc), Ok(LoginData(token, Object(p)))).effect == NavigateTo(loc.pathname)
  {
    RestrictedNeedsToken(s.session, loc);
  }

  /** Back on that path, the page renders when the new token is truthy and
      the logged-in user holds a role the path requires. */
  lemma ReturnRenders(s: State, loc: Location, c: Credentials, isEmail: string -> bool, token: Value, p: UserRecord)
    requires FormValid(c, isEmail)
    requires Truthy(token)
    requires || (loc.pathname in EmployerPaths && Holds(Some(p), Employer))
             || (loc.pathname in JobSeekerPaths && Holds(Some(p), JobSeeker))
    ensures Navigate(Submit(s, c, isEmail, Some(loc), Ok(LoginData(token, Object(p)))).state.session, loc).Show?
  {
    var after := Submit(s, c, isEmail, Some(loc), Ok(LoginData(token, Object(p)))).state.session;
    assert after == Session(token, Some(Normalise(p)));
    if loc.pathname in EmployerPaths && Holds(Some(p), Employer) {
      EmployerPathsGated(after, loc);
    } else {
      JobSeekerPathsGated(after, loc);
    }
  }

  /** A failed login stores nothing, keeps the session, and navigates nowhere. */
  lemma FailureChangesNothing(s: State, c: Credentials, isEmail: string -> bool,
                              from: Option<Location>, e: HttpError)
    requires FormValid(c, isEmail)
    ensures Submit(s, c, isEmail, from, Err(e)).state == s
    ensures !Submit(s, c, isEmail, from, Err(e)).effect.NavigateTo?
  {
  }

  /** A success reply without `user` leaves the user on the login page with an
      alert and the old session, but with `cc_token` and `cc_user` rewritten:
      the next reload crashes. */
  lemma MissingUserStaysOnLogin(s: State, c: Credentials, isEmail: string -> bool,
                                from: Option<Location>, token: Value)
    requires FormValid(c, isEmail)
    ensures var r := Submit(s, c, isEmail, from, Ok(LoginData(token, UndefinedUser)));
            r.effect == Alert("Login failed") && r.state.session == s.session
            && r.state.store[TokenKey] == Text(ToString(token))
            && Startup(r.state.store).Crashed?
  {
    MissingUserThenReload(s, token);
  }

  /** An account registered through the sign-up form logs in with the same
      email and password it was registered with. */
  lemma RegisteredCredentialsLogIn(v: Register.Registration, isEmail: string -> bool,
                                   s: State, from: Option<Location>, registered: Reply<bool>, reply: Reply<LoginData>)
    requires Register.SchemaValid(v, isEmail)
    ensures FormValid(Credentials(v.email, v.password), isEmail)
    ensures Submit(s, Credentials(v.email, v.password), isEmail, from, reply).request.body
         == Register.Submit(v, isEmail, registered).request.body - {"name", "role"}
  {
  }
}
