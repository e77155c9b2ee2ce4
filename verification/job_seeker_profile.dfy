/**
 The job seeker's profile editor: the form schema (with the phone pattern),
 loading an existing profile into the form, and saving by create or update.
 */
module JobSeekerProfile {
  import opened Js
  import opened Users
  import opened Http
  import opened Forms

  // ---------------------------------------------------------------------------
  // Phone pattern `^\+?[0-9]{7,15}$`
  // ---------------------------------------------------------------------------

  /** The digits part of a phone number: everything after an optional leading '+'. */
  function PhoneDigits(s: string): string {
    if |s| > 0 && s[0] == '+' then s[1..] else s
  }

  /** An optional single leading '+' followed by 7 to 15 ASCII digits and nothing else. */
  predicate ValidPhone(s: string) {
    7 <= |PhoneDigits(s)| <= 15 && AllDigits(PhoneDigits(s))
  }

  /** A left-to-right scan implementing the pattern. */
  method MatchPhone(s: string) returns (ok: bool)
    ensures ok <==> ValidPhone(s)
  {
    var start := if |s| > 0 && s[0] == '+' then 1 else 0;
    var i := start;
    while i < |s|
      invariant start <= i <= |s|
      invariant forall k :: start <= k < i ==> IsDigit(s[k])
    {
      if !IsDigit(s[i]) {
        assert PhoneDigits(s)[i - start] == s[i];
        return false;
      }
      i := i + 1;
    }
    assert forall k :: 0 <= k < |PhoneDigits(s)| ==> PhoneDigits(s)[k] == s[k + start];
    ok := 7 <= |s| - start <= 15;
  }

  lemma PhoneExamples()
    ensures ValidPhone("+14155550123")
    ensures ValidPhone("0123456")
    ensures !ValidPhone("123456")
    ensures !ValidPhone("++1234567")
    ensures !ValidPhone("1234567890123456")
  {
    assert PhoneDigits("++1234567")[0] == '+';
  }

  // ---------------------------------------------------------------------------
  // Schema
  // ---------------------------------------------------------------------------

  /** The profile schema. `isEmail` stands for the email-format test and
      `isPastDate` for "a date, not in the future", which needs the clock. */
  predicate SchemaValid(f: Form, isEmail: string -> bool, isPastDate: string -> bool) {
    && RequiredText(Field(f, "fullName")) && |Field(f, "fullName").s| >= 2
    && RequiredText(Field(f, "gender"))
    && RequiredText(Field(f, "dateOfBirth")) && isPastDate(Field(f, "dateOfBirth").s)
    && RequiredText(Field(f, "email")) && isEmail(Field(f, "email").s)
    && RequiredText(Field(f, "phone")) && ValidPhone(Field(f, "phone").s)
    && RequiredText(Field(f, "address"))
    && RequiredText(Field(f, "education"))
    && RequiredText(Field(f, "experience"))
    && RequiredText(Field(f, "skills"))
  }

  // ---------------------------------------------------------------------------
  // Loading
  // ---------------------------------------------------------------------------

  /** `s.split("T")[0]`: the text before the first 'T', or all of it. */
  function BeforeT(s: string): (r: string)
    ensures r <= s
    ensures 'T' !in r
    ensures |r| < |s| ==> s[|r|] == 'T'
  {
    if |s| == 0 || s[0] == 'T' then "" else [s[0]] + BeforeT(s[1..])
  }

  /** Cut at the first 'T' when there is one; otherwise the whole text. */
  lemma BeforeFirstT(s: string, k: int)
    requires 0 <= k <= |s|
    requires k < |s| ==> s[k] == 'T'
    requires forall j :: 0 <= j < k ==> s[j] != 'T'
    ensures BeforeT(s) == s[..k]
  {
    var r := BeforeT(s);
    if |r| > k {
      assert false;
    } else if |r| < k {
      assert false;
    }
  }

  /** An ISO timestamp keeps its date part. */
  lemma IsoDateKept()
    ensures BeforeT("1990-05-01T00:00:00Z") == "1990-05-01"
  {
    var iso := "1990-05-01T00:00:00Z";
    BeforeFirstT(iso, 10);
  }

  /** The profile as the server returns it. */
  datatype SeekerData = SeekerData(
    jobSeekerId: Value, id: Value, fullName: Value, gender: Value, dateOfBirth: Value,
    email: Value, phone: Value, address: Value, education: Value, experience: Value, skills: Value)

  /** The loaded date of birth: the date part of a stored timestamp, "" when
      absent, and None when a non-text value makes `split` throw. */
  function LoadedDate(v: Value): (r: Option<Value>)
    ensures !Truthy(v) ==> r == Some(Str(""))
    ensures v.Str? && v.s != "" ==> r == Some(Str(BeforeT(v.s)))
    ensures r.None? <==> Truthy(v) && !v.Str?
  {
    if !Truthy(v) then Some(Str(""))
    else if v.Str? then Some(Str(BeforeT(v.s)))
    else None
  }

  /** The values `reset` puts in the form: some fields default to "", the
      others are taken as they come. */
  function FormOf(d: SeekerData): (r: Option<Form>)
    ensures r.Some? <==> LoadedDate(d.dateOfBirth).Some?
    ensures r.Some? ==> Field(r.value, "dateOfBirth") == LoadedDate(d.dateOfBirth).value
    ensures r.Some? ==> Field(r.value, "fullName") == d.fullName && Field(r.value, "skills") == d.skills
    ensures r.Some? ==> r.value.Keys == {"fullName", "gender", "dateOfBirth", "email", "phone",
                                         "address", "education", "experience", "skills"}
    ensures r.Some? ==> Field(r.value, "phone") == Or(d.phone, Str("")) && Field(r.value, "gender") == Or(d.gender, Str(""))
    ensures r.Some? ==> Field(r.value, "email") == Or(d.email, Str("")) && Field(r.value, "address") == Or(d.address, Str(""))
    ensures r.Some? ==> Field(r.value, "education") == d.education && Field(r.value, "experience") == d.experience
  {
    match LoadedDate(d.dateOfBirth)
    case None => None
    case Some(dob) =>
      Some(map[
        "fullName" := d.fullName,
        "gender" := Or(d.gender, Str("")),
        "dateOfBirth" := dob,
        "email" := Or(d.email, Str("")),
        "phone" := Or(d.phone, Str("")),
        "address" := Or(d.address, Str("")),
        "education" := d.education,
        "experience" := d.experience,
        "skills" := d.skills])
  }

  /** After loading: the requests made, the profile id, and the form values
      if the form was reset. Loading always ends. */
  datatype Loaded = Loaded(requests: seq<Request>, jobSeekerId: Value, form: Option<Form>)

  function Load(uid: Value, reply: Reply<SeekerData>): (r: Loaded)
    ensures !Truthy(uid) ==> r == Loaded([], Null, None)
    ensures Truthy(uid) ==> r.requests == [Request(Get, "/job-seekers/by-user/" + ToString(uid), map[])]
    ensures reply.Err? ==> r.jobSeekerId == Null && r.form.None?
    ensures Truthy(uid) && reply.Ok? ==>
              r.jobSeekerId == ProfileId(ProfileRef(reply.data.jobSeekerId, reply.data.id))
              && r.form == FormOf(reply.data)
  {
    if !Truthy(uid) then Loaded([], Null, None)
    else
      var request := Request(Get, "/job-seekers/by-user/" + ToString(uid), map[]);
      match reply
      case Err(_) => Loaded([request], Null, None)
      case Ok(d) => Loaded([request], ProfileId(ProfileRef(d.jobSeekerId, d.id)), FormOf(d))
  }

  // ---------------------------------------------------------------------------
  // Saving
  // ---------------------------------------------------------------------------

  datatype Saved = Saved(request: Request, jobSeekerId: Value, effect: Effect)

  /** Submitting a valid form: update the known profile, or create one; only
      a successful create learns the new id. */
  function Submit(jobSeekerId: Value, uid: Value, values: Form,
                  isEmail: string -> bool, isPastDate: string -> bool,
                  reply: Reply<ProfileRef>): (r: Saved)
    requires SchemaValid(values, isEmail, isPastDate)
    ensures r.request.body == WithUserId(values, uid)
    ensures Truthy(jobSeekerId) ==>
              r.request.verb == Put && r.request.path == "/job-seekers/update/" + ToString(jobSeekerId)
    ensures !Truthy(jobSeekerId) ==> r.request.verb == Post && r.request.path == "/job-seekers/create"
    ensures Truthy(jobSeekerId) || reply.Err? ==> r.jobSeekerId == jobSeekerId
    ensures !Truthy(jobSeekerId) && reply.Ok? ==> r.jobSeekerId == ProfileId(reply.data)
    ensures reply.Ok? ==> r.effect == Alert("JobSeeker profile " + (if Truthy(jobSeekerId) then "updated" else "created") + " successfully.")
    ensures reply.Err? ==> r.effect == Alert(MessageOr(reply.error, "Failed to save JobSeeker profile"))
  {
    var request :=
      if Truthy(jobSeekerId) then Request(Put, "/job-seekers/update/" + ToString(jobSeekerId), WithUserId(values, uid))
      else Request(Post, "/job-seekers/create", WithUserId(values, uid));
    match reply
    case Err(e) => Saved(request, jobSeekerId, Alert(MessageOr(e, "Failed to save JobSeeker profile")))
    case Ok(d) =>
      var id := if Truthy(jobSeekerId) then jobSeekerId else ProfileId(d);
      Saved(request, id, Alert("JobSeeker profile " + (if Truthy(jobSeekerId) then "updated" else "created") + " successfully."))
  }

  /** A successful create whose response carries an id turns the next save
      into an update of that id. */
  lemma CreateThenUpdate(uid: Value, v1: Form, v2: Form, isEmail: string -> bool, isPastDate: string -> bool,
                         created: ProfileRef, reply2: Reply<ProfileRef>)
    requires SchemaValid(v1, isEmail, isPastDate) && SchemaValid(v2, isEmail, isPastDate)
    requires Truthy(created.specificId) || Truthy(created.id)
    ensures var first := Submit(Null, uid, v1, isEmail, isPastDate, Ok(created));
            var second := Submit(first.jobSeekerId, uid, v2, isEmail, isPastDate, reply2);
            first.request.verb == Post
            && second.request == Request(Put, "/job-seekers/update/" + ToString(ProfileId(created)), WithUserId(v2, uid))
  {
  }

  /** A loaded profile saved again is an update of that profile, sending the
      loaded values back: the date cut to its date part, the text fields as
      they were loaded, and the user id. */
  lemma LoadThenSaveUpdates(uid: Value, d: SeekerData, isEmail: string -> bool, isPastDate: string -> bool,
                            reply: Reply<ProfileRef>)
    requires Truthy(uid) && (Truthy(d.jobSeekerId) || Truthy(d.id))
    requires Load(uid, Ok(d)).form.Some? && SchemaValid(Load(uid, Ok(d)).form.value, isEmail, isPastDate)
    ensures var l := Load(uid, Ok(d));
            var s := Submit(l.jobSeekerId, uid, l.form.value, isEmail, isPastDate, reply);
            s.request.verb == Put
            && s.request.path == "/job-seekers/update/" + ToString(ProfileId(ProfileRef(d.jobSeekerId, d.id)))
            && s.request.body["fullName"] == d.fullName && s.request.body["skills"] == d.skills
            && s.request.body["dateOfBirth"] == Str(BeforeT(d.dateOfBirth.s))
            && s.request.body["userId"] == uid
  {
  }
}
