/**
 The generic dashboard's dispatch on the singular `user.role` field. No route
 leads to this page; it is modelled because its test disagrees with the
 record `login` builds.
 */
module Dashboard {
  import opened Js
  import opened Users
  import opened Auth

  datatype Board = LoginPrompt | EmployerBoard | JobSeekerBoard | UnknownRole

  /** No user: a prompt; otherwise strict comparisons of `user.role`. */
  function Choose(user: Option<UserRecord>): (b: Board)
    ensures b == LoginPrompt <==> user.None?
    ensures b == EmployerBoard <==> user.Some? && user.value.role == Str(Employer)
    ensures b == JobSeekerBoard <==> user.Some? && user.value.role == Str(JobSeeker)
  {
    match user
    case None => LoginPrompt
    case Some(u) =>
      if StrictEq(u.role, Str(Employer)) then EmployerBoard
      else if StrictEq(u.role, Str(JobSeeker)) then JobSeekerBoard
      else UnknownRole
  }

  /** The record `login` builds has roles but no `role`, so right after login
      the page always shows "Unknown role", whatever the roles are. */
  lemma LoggedInUserIsUnknown(s: State, jwt: Value, p: UserRecord)
    ensures Choose(Login(s, jwt, p).session.user) == UnknownRole
  {
  }

  /** After a reload the user is the raw payload again, so a payload that
      did carry `role` now selects that role's dashboard. */
  lemma ReloadRevealsPayloadRole(s: State, jwt: Value, p: UserRecord)
    requires p.role == Str(Employer)
    ensures Choose(Login(s, jwt, p).session.user) == UnknownRole
    ensures Choose(Startup(Login(s, jwt, p).store).session.user) == EmployerBoard
  {
    LoginThenStartup(s, jwt, p);
  }
}
