/**
 The job seeker's dashboard: finding the user's profile id, and the
 apply-for-job chain (profile, then resume, then the application itself).
 */
module JobSeekerDashboard {
  import opened Js
  import opened Users
  import opened Http
  import ResumeUpload
  import EmployerApplications
  import Applications

  /** After the profile lookup: the requests made and the profile id. */
  datatype Lookup = Lookup(requests: seq<Request>, jobSeekerId: Value)

  /** No user: no request, and loading ends. Otherwise the lookup by
      `userId || id`; a failure leaves the page without a profile id. */
  function LookupProfile(user: Option<UserRecord>, reply: Reply<ProfileRef>): (r: Lookup)
    ensures user.None? ==> r == Lookup([], Null)
    ensures user.Some? ==> r.requests == [Request(Get, "/job-seekers/by-user/" + ToString(Uid(user)), map[])]
    ensures user.Some? && reply.Ok? ==> r.jobSeekerId == ProfileId(reply.data)
    ensures reply.Err? ==> r.jobSeekerId == Null
  {
    match user
    case None => Lookup([], Null)
    case Some(_) =>
      var request := Request(Get, "/job-seekers/by-user/" + ToString(Uid(user)), map[]);
      match reply
      case Ok(d) => Lookup([request], ProfileId(d))
      case Err(_) => Lookup([request], Null)
  }

  const CompleteProfile := "Please complete your profile first!"
  const UploadFirst := "Please upload your resume before applying."
  const AppliedText := "Application submitted successfully!"
  const SubmitFailed := "Failed to submit application."

  /** The alert for a failure anywhere in the chain: a 404 asks for a resume;
      anything else shows the server's message or the default. */
  function FailureText(e: HttpError): (text: string)
    ensures IsNotFound(e) ==> text == UploadFirst
    ensures !IsNotFound(e) ==> text == MessageOr(e, SubmitFailed)
  {
    if IsNotFound(e) then UploadFirst else MessageOr(e, SubmitFailed)
  }

  /** The application record the page posts. `today` is the current ISO
      timestamp, of which the date part is sent. */
  function Payload(jobSeekerId: Value, jobListingId: Value, filePath: Value, today: string): map<string, Value> {
    map["jobSeekerId" := jobSeekerId,
        "jobListingId" := jobListingId,
        "status" := Str("pending"),
        "applicationDate" := Str(Prefix(today, 10)),
        "filePath" := filePath]
  }

  datatype Applied = Applied(requests: seq<Request>, effect: Effect)

  /** `applyForJob`: the profile guard, the resume lookup, the resume guard,
      then the application; each step that stops shows its own message. */
  function Apply(jobSeekerId: Value, jobListingId: Value, today: string,
                 resume: Reply<Option<ResumeUpload.Resume>>, apply: Reply<bool>): (r: Applied)
    ensures !Truthy(jobSeekerId) ==> r == Applied([], Alert(CompleteProfile))
    ensures Truthy(jobSeekerId) ==>
              |r.requests| >= 1 && r.requests[0] == Request(Get, "/resumes/by-user/" + ToString(jobSeekerId), map[])
    ensures |r.requests| <= 2
    ensures |r.requests| == 2 <==> Truthy(jobSeekerId) && resume.Ok? && ResumeUpload.HasPath(resume.data)
    ensures |r.requests| == 2 ==>
              r.requests[1] == Request(Post, "/applications/apply",
                                       Payload(jobSeekerId, jobListingId, resume.data.value.filePath, today))
    ensures Truthy(jobSeekerId) && resume.Ok? && !ResumeUpload.HasPath(resume.data) ==> r.effect == Alert(UploadFirst)
    ensures Truthy(jobSeekerId) && resume.Err? ==> r.effect == Alert(FailureText(resume.error))
    ensures |r.requests| == 2 && apply.Ok? ==> r.effect == Alert(AppliedText)
    ensures |r.requests| == 2 && apply.Err? ==> r.effect == Alert(FailureText(apply.error))
  {
    if !Truthy(jobSeekerId) then Applied([], Alert(CompleteProfile))
    else
      var first := Request(Get, "/resumes/by-user/" + ToString(jobSeekerId), map[]);
      match resume
      case Err(e) => Applied([first], Alert(FailureText(e)))
      case Ok(data) =>
        if !ResumeUpload.HasPath(data) then Applied([first], Alert(UploadFirst))
        else
          var second := Request(Post, "/applications/apply",
                                Payload(jobSeekerId, jobListingId, data.value.filePath, today));
          match apply
          case Ok(_) => Applied([first, second], Alert(AppliedText))
          case Err(e) => Applied([first, second], Alert(FailureText(e)))
  }

  /** The chain stops at the first failing guard: what would have come later
      makes no difference. */
  lemma StopsAtFirstGuard(jobSeekerId: Value, jobListingId: Value, today: string,
                          resume: Reply<Option<ResumeUpload.Resume>>, apply: Reply<bool>,
                          resume': Reply<Option<ResumeUpload.Resume>>, apply': Reply<bool>)
    ensures !Truthy(jobSeekerId) ==>
              Apply(jobSeekerId, jobListingId, today, resume, apply)
              == Apply(jobSeekerId, jobListingId, today, resume', apply')
    ensures resume.Err? || !ResumeUpload.HasPath(resume.data) ==>
              Apply(jobSeekerId, jobListingId, today, resume, apply)
              == Apply(jobSeekerId, jobListingId, today, resume, apply')
  {
  }

  /** The posted record carries the date part of the timestamp and the
      "pending" status the employer page offers decisions for. */
  lemma PostedApplicationIsPending(jobSeekerId: Value, jobListingId: Value, filePath: Value, today: string)
    requires |today| >= 10
    ensures var body := Payload(jobSeekerId, jobListingId, filePath, today);
            body["applicationDate"] == Str(today[..10])
            && EmployerApplications.Actions(EmployerApplications.Application(
                 Undefined, Undefined, body["applicationDate"], body["status"].s, filePath)) == ["APPROVED", "REJECTED"]
            && Applications.RowBadgeFixed(body["status"]) == EmployerApplications.Warning
  {
    var body := Payload(jobSeekerId, jobListingId, filePath, today);
    assert Lower("pending") == "pending";
  }

  /** The profile lookup feeds the apply chain: after a failed lookup applying
      only asks for a profile; after a successful one the resume is looked up
      by the profile id the lookup found. */
  lemma LookupThenApply(user: Option<UserRecord>, profile: Reply<ProfileRef>, jobListingId: Value, today: string,
                        resume: Reply<Option<ResumeUpload.Resume>>, apply: Reply<bool>)
    ensures profile.Err? || user.None? ==>
              Apply(LookupProfile(user, profile).jobSeekerId, jobListingId, today, resume, apply)
              == Applied([], Alert(CompleteProfile))
    ensures user.Some? && profile.Ok? && Truthy(ProfileId(profile.data)) ==>
              Apply(LookupProfile(user, profile).jobSeekerId, jobListingId, today, resume, apply).requests[0]
              == Request(Get, "/resumes/by-user/" + ToString(ProfileId(profile.data)), map[])
  {
  }
}
