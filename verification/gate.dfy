/**
 The access gate placed around role-restricted routes: given the session, the
 route's required roles and the current location, it redirects to the login
 page (remembering where the user wanted to go), redirects home, or renders.
 */
module Gate {
  import opened Js
  import opened Users
  import opened Auth

  /** The router's current location. */
  datatype Location = Location(pathname: string, search: string, hash: string)

  datatype Decision =
    | ToLogin(from: Location)  // navigate to /login with state {from}
    | ToHome                   // navigate to / with no state
    | Render                   // render the nested route

  const LoginPath: string := "/login"
  const HomePath: string := "/"

  /** The gate's decision. `roles` is None when the caller passes none, which
      the gate reads as the empty list. */
  function Decide(s: Session, roles: Option<seq<string>>, loc: Location): (d: Decision)
    ensures d.ToLogin? <==> !Truthy(s.token)
    ensures d.ToLogin? ==> d.from == loc
    ensures d.Render? ==> Truthy(s.token)
  {
    var required := if roles.Some? then roles.value else [];
    if !Truthy(s.token) then ToLogin(loc)
    else if |required| > 0 && !HasRole(s, required) then ToHome
    else Render
  }

  /** Rendering happens exactly for a token holder who either faces no
      requirement or holds one of the required roles; everyone else is
      redirected, so the gate fails closed. */
  lemma RenderExactly(s: Session, roles: seq<string>, loc: Location)
    ensures Decide(s, Some(roles), loc) == Render
        <==> Truthy(s.token) && (|roles| == 0 || exists tag :: tag in roles && Holds(s.user, tag))
    ensures Decide(s, Some(roles), loc) == ToHome
        <==> Truthy(s.token) && |roles| > 0 && forall tag :: tag in roles ==> !Holds(s.user, tag)
  {
  }

  /** The gate looks at the token, not the user: a token with no user passes an
      unrestricted gate but is sent home by any restricted one. */
  lemma TokenWithoutUser(t: Value, roles: seq<string>, loc: Location)
    requires Truthy(t)
    ensures Decide(Session(t, None), Some([]), loc) == Render
    ensures |roles| > 0 ==> Decide(Session(t, None), Some(roles), loc) == ToHome
  {
  }

  /** The default requirement admits every token holder. */
  lemma DefaultAdmitsTokenHolders(s: Session, loc: Location)
    requires Truthy(s.token)
    ensures Decide(s, None, loc) == Render
  {
  }
}
