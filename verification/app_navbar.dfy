/**
 The navigation bar: which link groups it shows for a user, the greeting and
 the Login/Register links, and how its links fare at the gate.
 */
module AppNavbar {
  import opened Js
  import opened Users
  import opened Auth
  import opened Gate
  import opened Routes

  datatype Link = Link(to: string, text: string)

  const Brand := Link("/", "CareerCrafter")
  const JobsLink := Link("/jobs", "Jobs")
  const EmployerGroup: seq<Link> :=
    [Link("/employer/dashboard", "Employer Dashboard"), Link("/employer/profile", "My Profile")]
  const JobSeekerGroup: seq<Link> :=
    [Link("/jobseeker/dashboard", "JobSeeker Dashboard"), Link("/profile", "My Profile"),
     Link("/jobseeker/applications", "My Applications")]
  const GuestLinks: seq<Link> := [Link("/login", "Login"), Link("/register", "Register")]

  /** The bar: the brand, the left-hand links, the greeting with a Logout
      button when there is a user, and the guest links otherwise. */
  datatype Bar = Bar(left: seq<Link>, greeting: Option<Value>, right: seq<Link>)

  function Navbar(user: Option<UserRecord>): (b: Bar)
    ensures |b.left| >= 1 && b.left[0] == JobsLink
    ensures forall l :: l in EmployerGroup ==> (l in b.left <==> Holds(user, Employer))
    ensures forall l :: l in JobSeekerGroup ==> (l in b.left <==> Holds(user, JobSeeker))
    ensures forall l :: l in b.left ==> l == JobsLink || l in EmployerGroup || l in JobSeekerGroup
    ensures b.greeting.Some? <==> user.Some?
    ensures user.Some? ==> b.greeting.value == Or(user.value.name, user.value.username)
    ensures b.right == (if user.Some? then [] else GuestLinks)
  {
    var employer := if Holds(user, Employer) then EmployerGroup else [];
    var seeker := if Holds(user, JobSeeker) then JobSeekerGroup else [];
    match user
    case None => Bar([JobsLink] + employer + seeker, None, GuestLinks)
    case Some(u) => Bar([JobsLink] + employer + seeker, Some(Or(u.name, u.username)), [])
  }

  /** All the bar's links, the brand included. */
  function Links(b: Bar): seq<Link> {
    [Brand] + b.left + b.right
  }

  /** With a token, every link the bar shows opens its page: the bar never
      offers a link the gate would bounce. */
  lemma LinksPassTheGate(s: Session, l: Link, loc: Location)
    requires Truthy(s.token)
    requires l in Links(Navbar(s.user)) && loc.pathname == l.to
    ensures Navigate(s, loc).Show?
  {
    var b := Navbar(s.user);
    if l in EmployerGroup {
      assert Holds(s.user, Employer);
      EmployerPathsGated(s, loc);
    } else if l in JobSeekerGroup {
      assert Holds(s.user, JobSeeker);
      JobSeekerPathsGated(s, loc);
    } else {
      assert l.to in PublicPaths;
      PublicPathsOpen(s, loc);
    }
  }

  /** After logout the bar offers only the public links. */
  lemma LogoutShowsGuestBar(s: State)
    ensures Navbar(Logout(s).session.user) == Bar([JobsLink], None, GuestLinks)
  {
  }

  /** Right after login the greeting is the normalised username (username,
      else name, else email); after a reload it is the raw payload's name
      first. A payload with both a name and a username shows each in turn. */
  lemma GreetingBeforeAndAfterReload(s: State, jwt: Value, p: UserRecord)
    requires Truthy(p.name) && Truthy(p.username)
    ensures Navbar(Login(s, jwt, p).session.user).greeting == Some(p.username)
    ensures Navbar(Startup(Login(s, jwt, p).store).session.user).greeting == Some(p.name)
  {
    LoginThenStartup(s, jwt, p);
  }
}
