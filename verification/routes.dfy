/**
 The application's route table: every declared path is public or sits behind
 the gate with one role requirement, and every other path redirects home.
 */
module Routes {
  import opened Js
  import opened Users
  import opened Auth
  import opened Gate

  datatype Page =
    | HomePage | JobListPage | JobDetailPage | LoginPage | RegisterPage
    | EmployerDashboardPage | PostJobPage | ManageJobsPage | EmployerApplicationsPage
    | ProfilePage | JobSeekerDashboardPage | ApplicationsPage | RecommendationsPage
    | ResumeUploadPage

  datatype Access = Public | Restricted(roles: seq<string>)

  datatype Route = Declared(page: Page, access: Access) | Fallback

  const PublicPaths: set<string> := {"/", "/jobs", "/login", "/register"}
  const EmployerPaths: set<string> :=
    {"/employer/dashboard", "/employer/post-job", "/employer/manage-jobs",
     "/employer/applications", "/employer/profile"}
  const JobSeekerPaths: set<string> :=
    {"/jobseeker/dashboard", "/jobseeker/applications", "/recommendations", "/profile", "/resume"}

  const JobsPrefix: string := "/jobs/"

  /** `/jobs/:id`: the prefix followed by one non-empty segment. */
  predicate IsJobDetailPath(p: string) {
    |p| > |JobsPrefix| && p[..|JobsPrefix|] == JobsPrefix
    && forall i :: |JobsPrefix| <= i < |p| ==> p[i] != '/'
  }

  /** The route a pathname selects. */
  function Lookup(p: string): (r: Route)
    ensures r.Fallback? <==> p !in PublicPaths && p !in EmployerPaths && p !in JobSeekerPaths && !IsJobDetailPath(p)
  {
    if p == "/" then Declared(HomePage, Public)
    else if p == "/jobs" then Declared(JobListPage, Public)
    else if IsJobDetailPath(p) then Declared(JobDetailPage, Public)
    else if p == "/login" then Declared(LoginPage, Public)
    else if p == "/register" then Declared(RegisterPage, Public)
    else if p == "/employer/dashboard" then Declared(EmployerDashboardPage, Restricted([Employer]))
    else if p == "/employer/post-job" then Declared(PostJobPage, Restricted([Employer]))
    else if p == "/employer/manage-jobs" then Declared(ManageJobsPage, Restricted([Employer]))
    else if p == "/employer/applications" then Declared(EmployerApplicationsPage, Restricted([Employer]))
    else if p == "/employer/profile" then Declared(ProfilePage, Restricted([Employer]))
    else if p == "/jobseeker/dashboard" then Declared(JobSeekerDashboardPage, Restricted([JobSeeker]))
    else if p == "/jobseeker/applications" then Declared(ApplicationsPage, Restricted([JobSeeker]))
    else if p == "/recommendations" then Declared(RecommendationsPage, Restricted([JobSeeker]))
    else if p == "/profile" then Declared(ProfilePage, Restricted([JobSeeker]))
    else if p == "/resume" then Declared(ResumeUploadPage, Restricted([JobSeeker]))
    else Fallback
  }

  /** What the user ends up seeing for a navigation. */
  datatype Screen = Show(page: Page) | Redirect(to: string, from: Option<Location>)

  function Navigate(s: Session, loc: Location): (r: Screen)
    ensures Lookup(loc.pathname).Fallback? ==> r == Redirect(HomePath, None)
    ensures r.Redirect? && r.from.Some? ==> r == Redirect(LoginPath, Some(loc))
  {
    match Lookup(loc.pathname)
    case Fallback => Redirect(HomePath, None)
    case Declared(page, Public) => Show(page)
    case Declared(page, Restricted(roles)) =>
      match Decide(s, Some(roles), loc)
      case ToLogin(from) => Redirect(LoginPath, Some(from))
      case ToHome => Redirect(HomePath, None)
      case Render => Show(page)
  }

  /** The route table classifies every path into exactly one of: public,
      employer-only, job-seeker-only, or the home redirect. */
  lemma RouteTable(p: string)
    ensures Lookup(p).Declared? && Lookup(p).access == Public <==> p in PublicPaths || IsJobDetailPath(p)
    ensures Lookup(p).Declared? && Lookup(p).access == Restricted([Employer]) <==> p in EmployerPaths
    ensures Lookup(p).Declared? && Lookup(p).access == Restricted([JobSeeker]) <==> p in JobSeekerPaths
    ensures Lookup(p).Fallback? || Lookup(p).access in {Public, Restricted([Employer]), Restricted([JobSeeker])}
  {
    if p in PublicPaths || p in EmployerPaths || p in JobSeekerPaths {
      DeclaredPathsAreNotDetail(p);
    }
  }

  lemma DeclaredPathsAreNotDetail(p: string)
    requires p in PublicPaths || p in EmployerPaths || p in JobSeekerPaths
    ensures !IsJobDetailPath(p)
  {
    if |p| > |JobsPrefix| {
      // every long declared path differs from "/jobs/" at index 1 or index 5
      assert p[1] != 'j' || p[5] != '/';
      assert JobsPrefix[1] == 'j' && JobsPrefix[5] == '/';
      assert p[..|JobsPrefix|][1] == p[1] && p[..|JobsPrefix|][5] == p[5];
    }
  }

  /** Public pages render for every session, signed in or not. */
  lemma PublicPathsOpen(s: Session, loc: Location)
    requires loc.pathname in PublicPaths || IsJobDetailPath(loc.pathname)
    ensures Navigate(s, loc).Show?
  {
    RouteTable(loc.pathname);
  }

  /** Without a token, every restricted path bounces to the login page carrying the location. */
  lemma RestrictedNeedsToken(s: Session, loc: Location)
    requires loc.pathname in EmployerPaths || loc.pathname in JobSeekerPaths
    requires !Truthy(s.token)
    ensures Navigate(s, loc) == Redirect(LoginPath, Some(loc))
  {
    RouteTable(loc.pathname);
  }

  /** With a token, an employer path renders iff the user holds the employer role. */
  lemma EmployerPathsGated(s: Session, loc: Location)
    requires loc.pathname in EmployerPaths && Truthy(s.token)
    ensures Navigate(s, loc).Show? <==> Holds(s.user, Employer)
    ensures !Navigate(s, loc).Show? ==> Navigate(s, loc) == Redirect(HomePath, None)
  {
    RouteTable(loc.pathname);
  }

  /** With a token, a job-seeker path renders iff the user holds the job_seeker role. */
  lemma JobSeekerPathsGated(s: Session, loc: Location)
    requires loc.pathname in JobSeekerPaths && Truthy(s.token)
    ensures Navigate(s, loc).Show? <==> Holds(s.user, JobSeeker)
    ensures !Navigate(s, loc).Show? ==> Navigate(s, loc) == Redirect(HomePath, None)
  {
    RouteTable(loc.pathname);
  }
}
