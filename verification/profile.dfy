/**
 The profile page's dispatch: the job-seeker editor when the user holds that
 role, else the employer editor, else a request to log in.
 */
module Profile {
  import opened Js
  import opened Users
  import opened Auth
  import opened Gate
  import opened Routes

  datatype Editor = JobSeekerEditor | EmployerEditor | LoginMessage

  /** `roles = user?.roles || []`, then job_seeker is tested before employer. */
  function ChooseEditor(user: Option<UserRecord>): (e: Editor)
    ensures e == JobSeekerEditor <==> Holds(user, JobSeeker)
    ensures e == EmployerEditor <==> !Holds(user, JobSeeker) && Holds(user, Employer)
    ensures e == LoginMessage <==> !Holds(user, JobSeeker) && !Holds(user, Employer)
  {
    var roles := RolesOf(user);
    if JobSeeker in roles then JobSeekerEditor
    else if Employer in roles then EmployerEditor
    else LoginMessage
  }

  /** Whoever the gate lets onto `/profile` gets the job-seeker editor. */
  lemma ProfilePathGivesJobSeekerEditor(s: Session, loc: Location)
    requires loc.pathname == "/profile"
    requires Navigate(s, loc) == Show(ProfilePage)
    ensures ChooseEditor(s.user) == JobSeekerEditor
  {
    JobSeekerPathsGated(s, loc);
  }

  /** An employer reaches its own editor through `/employer/profile`, unless it
      also holds job_seeker: then the same page shows the job-seeker editor. */
  lemma EmployerProfilePath(s: Session, loc: Location)
    requires loc.pathname == "/employer/profile" && Truthy(s.token) && Holds(s.user, Employer)
    ensures Navigate(s, loc) == Show(ProfilePage)
    ensures ChooseEditor(s.user) == EmployerEditor <==> !Holds(s.user, JobSeeker)
    ensures Holds(s.user, JobSeeker) ==> ChooseEditor(s.user) == JobSeekerEditor
  {
    EmployerPathsGated(s, loc);
    DeclaredPathsAreNotDetail(loc.pathname);
  }

  /** A session with a token but without a user never gets past the profile gate. */
  lemma NoUserNoEditor(t: Value, loc: Location)
    requires loc.pathname == "/profile" || loc.pathname == "/employer/profile"
    ensures Navigate(Session(t, None), loc) != Show(ProfilePage)
    ensures ChooseEditor(None) == LoginMessage
  {
    var s := Session(t, None);
    if !Truthy(t) {
      RestrictedNeedsToken(s, loc);
    } else if loc.pathname == "/profile" {
      JobSeekerPathsGated(s, loc);
    } else {
      EmployerPathsGated(s, loc);
    }
  }
}
