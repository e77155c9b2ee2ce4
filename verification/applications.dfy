/**
 The job seeker's "My Applications" page: the fetch guard, the mapping of
 each response record to a row with defaults, and the status badge.
 */
module Applications {
  import opened Js
  import opened Users
  import opened Storage
  import opened Auth
  import opened Http
  import EmployerApplications

  datatype Listing = Listing(title: Value)

  /** One application as the server returns it. */
  datatype RawApplication = RawApplication(
    applicationId: Value,
    jobListing: Option<Listing>,
    applicationDate: Value,
    status: Value)

  /** One displayed row. */
  datatype Row = Row(applicationId: Value, jobTitle: Value, applicationDate: Value, status: Value)

  /** `{applicationId, jobTitle: jobListing?.title || "N/A", applicationDate, status: status || "Applied"}`. */
  function ToRow(a: RawApplication): (r: Row)
    ensures r.applicationId == a.applicationId && r.applicationDate == a.applicationDate
    ensures Truthy(r.jobTitle) && Truthy(r.status)
    ensures a.jobListing.Some? && Truthy(a.jobListing.value.title) ==> r.jobTitle == a.jobListing.value.title
    ensures !(a.jobListing.Some? && Truthy(a.jobListing.value.title)) ==> r.jobTitle == Str("N/A")
    ensures Truthy(a.status) ==> r.status == a.status
    ensures !Truthy(a.status) ==> r.status == Str("Applied")
  {
    var title := if a.jobListing.Some? then a.jobListing.value.title else Undefined;
    Row(a.applicationId, Or(title, Str("N/A")), a.applicationDate, Or(a.status, Str("Applied")))
  }

  /** `data.map(ToRow)`: same length and order, one row per record. */
  function ToRows(data: seq<RawApplication>): (rows: seq<Row>)
    ensures |rows| == |data|
    ensures forall i :: 0 <= i < |data| ==> rows[i].applicationId == data[i].applicationId
    ensures forall i :: 0 <= i < |data| ==> rows[i].applicationDate == data[i].applicationDate
    ensures forall i :: 0 <= i < |data| ==> Truthy(rows[i].jobTitle) && Truthy(rows[i].status)
    ensures forall i :: 0 <= i < |data| ==> Truthy(data[i].status) ==> rows[i].status == data[i].status
    ensures forall i :: 0 <= i < |data| ==> rows[i] == ToRow(data[i])
  {
    if |data| == 0 then [] else [ToRow(data[0])] + ToRows(data[1..])
  }

  /** The list response: an array, or a value without `map` (which throws inside the try). */
  datatype ListData = Array(items: seq<RawApplication>) | NotArray

  // ---------------------------------------------------------------------------
  // Fetch guard, as written and as intended
  // ---------------------------------------------------------------------------

  /** The page's fetch, as written: guarded by `user?.userId` alone. */
  function FetchRequest(user: Option<UserRecord>): (r: Option<Request>)
    ensures r.Some? <==> user.Some? && Truthy(user.value.userId)
    ensures r.Some? ==> r.value == Request(Get, "/applications/by-job-seeker/" + ToString(user.value.userId), map[])
  {
    if user.Some? && Truthy(user.value.userId)
    then Some(Request(Get, "/applications/by-job-seeker/" + ToString(user.value.userId), map[]))
    else None
  }

  /** The fetch with the `userId || id` fallback every other page uses. */
  function FetchRequestFixed(user: Option<UserRecord>): (r: Option<Request>)
    ensures r.Some? <==> Truthy(Uid(user))
    ensures r.Some? ==> r.value == Request(Get, "/applications/by-job-seeker/" + ToString(Uid(user)), map[])
  {
    if Truthy(Uid(user))
    then Some(Request(Get, "/applications/by-job-seeker/" + ToString(Uid(user)), map[]))
    else None
  }

  /** After a reload the user is the raw login payload. If it carried only `id`,
      the page as written never fetches and stays on its loading message,
      while the fallback fetches by that id, as the live session would. */
  lemma ReloadedIdOnlyUserNeverFetches(s: State, jwt: Value, p: UserRecord)
    requires p.userId == Undefined && Truthy(p.id)
    ensures FetchRequest(Login(s, jwt, p).session.user).Some?
    ensures FetchRequest(Startup(Login(s, jwt, p).store).session.user).None?
    ensures FetchRequestFixed(Startup(Login(s, jwt, p).store).session.user)
         == FetchRequest(Login(s, jwt, p).session.user)
  {
    LoginThenStartup(s, jwt, p);
  }

  /** The fixed guard agrees with the as-written one whenever `userId` is set. */
  lemma FixedAgreesWhenUserIdSet(user: Option<UserRecord>)
    requires user.Some? && Truthy(user.value.userId)
    ensures FetchRequestFixed(user) == FetchRequest(user)
  {
  }

  datatype Loaded = Loaded(requests: seq<Request>, rows: seq<Row>, loading: bool)

  /** The load effect as written: guarded by `user?.userId`. Without a fetch,
      `loading` is never cleared, so the page stays on its loading message. */
  function Load(user: Option<UserRecord>, reply: Reply<ListData>): (r: Loaded)
    ensures r.loading <==> !(user.Some? && Truthy(user.value.userId))
    ensures r.loading ==> r == Loaded([], [], true)
    ensures !r.loading ==> r.requests == [FetchRequest(user).value]
    ensures !r.loading && reply.Ok? && reply.data.Array? ==> r.rows == ToRows(reply.data.items)
    ensures !(reply.Ok? && reply.data.Array?) ==> r.rows == []
  {
    match FetchRequest(user)
    case None => Loaded([], [], true)
    case Some(req) =>
      var rows := if reply.Ok? && reply.data.Array? then ToRows(reply.data.items) else [];
      Loaded([req], rows, false)
  }

  /** The load effect with the corrected guard. */
  function LoadFixed(user: Option<UserRecord>, reply: Reply<ListData>): (r: Loaded)
    ensures !Truthy(Uid(user)) ==> r == Loaded([], [], true)
    ensures Truthy(Uid(user)) ==> r.requests == [FetchRequestFixed(user).value] && !r.loading
    ensures r.rows != [] ==> reply.Ok? && reply.data.Array? && r.rows == ToRows(reply.data.items)
    ensures Truthy(Uid(user)) && reply.Ok? && reply.data.Array? ==> r.rows == ToRows(reply.data.items)
  {
    match FetchRequestFixed(user)
    case None => Loaded([], [], true)
    case Some(req) =>
      var rows := if reply.Ok? && reply.data.Array? then ToRows(reply.data.items) else [];
      Loaded([req], rows, false)
  }

  /** After a reload with an id-only payload, the page as written stays on
      "Loading applications..." having made no request, whatever the server
      would have answered; the corrected page fetches by that id and loads. */
  lemma ReloadedIdOnlyUserStaysLoading(s: State, jwt: Value, p: UserRecord, reply: Reply<ListData>)
    requires p.userId == Undefined && Truthy(p.id)
    ensures var user := Startup(Login(s, jwt, p).store).session.user;
            Load(user, reply) == Loaded([], [], true)
            && LoadFixed(user, reply).requests == [Request(Get, "/applications/by-job-seeker/" + ToString(p.id), map[])]
            && !LoadFixed(user, reply).loading
  {
    LoginThenStartup(s, jwt, p);
  }

  /** Whenever `userId` is set the two pages behave identically. */
  lemma LoadFixedAgreesWhenUserIdSet(user: Option<UserRecord>, reply: Reply<ListData>)
    requires user.Some? && Truthy(user.value.userId)
    ensures LoadFixed(user, reply) == Load(user, reply)
  {
    FixedAgreesWhenUserIdSet(user);
  }

  // ---------------------------------------------------------------------------
  // Badge, as written and as intended
  // ---------------------------------------------------------------------------

  /** The job-seeker badge as written: exact, case-sensitive comparisons. */
  function RowBadge(status: Value): (b: EmployerApplications.Badge)
    ensures b == EmployerApplications.Warning <==> status == Str("pending")
    ensures b == EmployerApplications.Success <==> status == Str("approved")
    ensures b == EmployerApplications.Warning || b == EmployerApplications.Success || b == EmployerApplications.Secondary
  {
    if StrictEq(status, Str("pending")) then EmployerApplications.Warning
    else if StrictEq(status, Str("approved")) then EmployerApplications.Success
    else EmployerApplications.Secondary
  }

  /** The employer page writes "APPROVED"; shown back to the job seeker
      verbatim, it gets the neutral badge, not the approved one. */
  lemma EmployerDecisionShownNeutral()
    ensures EmployerApplications.StatusBadge("APPROVED") == EmployerApplications.Success
    ensures RowBadge(Str("APPROVED")) == EmployerApplications.Secondary
  {
    assert Lower("APPROVED") == "approved";
  }

  /** The badge compared after lower-casing, as the employer page does. */
  function RowBadgeFixed(status: Value): (b: EmployerApplications.Badge)
    ensures status.Str? && Lower(status.s) == "pending" <==> b == EmployerApplications.Warning
    ensures status.Str? && Lower(status.s) == "approved" <==> b == EmployerApplications.Success
  {
    if status.Str? && Lower(status.s) == "pending" then EmployerApplications.Warning
    else if status.Str? && Lower(status.s) == "approved" then EmployerApplications.Success
    else EmployerApplications.Secondary
  }

  /** The fixed badge marks pending and approved exactly as the employer sees them. */
  lemma FixedBadgeAgreesWithEmployer(status: string)
    ensures RowBadgeFixed(Str(status)) == EmployerApplications.Warning
        <==> EmployerApplications.StatusBadge(status) == EmployerApplications.Warning
    ensures RowBadgeFixed(Str(status)) == EmployerApplications.Success
        <==> EmployerApplications.StatusBadge(status) == EmployerApplications.Success
  {
  }
}
