/**
 The job seeker's resume page: finding the profile and its resume, uploading
 a new file, downloading under the stored file's own name, and deleting.
 */
module ResumeUpload {
  import opened Js
  import opened Users
  import opened Http
  import EmployerApplications

  /** A stored resume as the server describes it. */
  datatype Resume = Resume(resumeId: Value, filePath: Value, uploadDate: Value)

  /** The page state: the profile id, the current resume (if any) and the
      selected file, represented by its name. */
  datatype Page = Page(jobSeekerId: Value, resume: Option<Resume>, selected: Option<string>)

  const Initial := Page(Null, None, None)

  // ---------------------------------------------------------------------------
  // File name from a stored path
  // ---------------------------------------------------------------------------

  /** The separators the page splits on: '/' and '\'. */
  predicate IsSeparator(c: char) {
    c == '/' || c == '\\'
  }

  /** `path.split(/[\\/]/).pop()`: the longest separator-free suffix of the path. */
  function FileName(path: string): (name: string)
    ensures |name| <= |path| && path[|path| - |name|..] == name
    ensures forall i :: 0 <= i < |name| ==> !IsSeparator(name[i])
    ensures |name| < |path| ==> IsSeparator(path[|path| - |name| - 1])
  {
    if |path| == 0 || IsSeparator(path[|path| - 1]) then ""
    else FileName(path[..|path| - 1]) + [path[|path| - 1]]
  }

  /** A path without separators is its own file name. */
  lemma WholePathWithoutSeparator(path: string)
    requires forall i :: 0 <= i < |path| ==> !IsSeparator(path[i])
    ensures FileName(path) == path
  {
    var name := FileName(path);
    if |name| < |path| {
      assert false;
    }
  }

  /** Whatever directories precede it, a separator-free name is recovered. */
  lemma {:induction false} NameAfterDirectory(dir: string, sep: char, name: string)
    requires IsSeparator(sep)
    requires forall i :: 0 <= i < |name| ==> !IsSeparator(name[i])
    ensures FileName(dir + [sep] + name) == name
    decreases |name|
  {
    var path := dir + [sep] + name;
    if |name| == 0 {
      assert path[|path| - 1] == sep;
    } else {
      var init := name[..|name| - 1];
      NameAfterDirectory(dir, sep, init);
      assert path[..|path| - 1] == dir + [sep] + init;
      assert path[|path| - 1] == name[|name| - 1];
      assert init + [name[|name| - 1]] == name;
    }
  }

  /** Taking the name of a name changes nothing. */
  lemma FileNameIdempotent(path: string)
    ensures FileName(FileName(path)) == FileName(path)
  {
    WholePathWithoutSeparator(FileName(path));
  }

  // ---------------------------------------------------------------------------
  // Loading
  // ---------------------------------------------------------------------------

  datatype Loaded = Loaded(requests: seq<Request>, page: Page)

  /** The resume left after a failed lookup: absent on 404, unchanged otherwise. */
  function AfterLookupError(e: HttpError, current: Option<Resume>): (r: Option<Resume>)
    ensures IsNotFound(e) ==> r.None?
    ensures !IsNotFound(e) ==> r == current
  {
    if IsNotFound(e) then None else current
  }

  /** Look up the profile by user id, then its resume by the profile's id. */
  function Load(uid: Value, p: Page, profile: Reply<ProfileRef>, lookup: Reply<Option<Resume>>): (r: Loaded)
    ensures !Truthy(uid) ==> r == Loaded([], p)
    ensures Truthy(uid) ==> |r.requests| >= 1 && r.requests[0] == Request(Get, "/job-seekers/by-user/" + ToString(uid), map[])
    ensures r.page.selected == p.selected
    ensures |r.requests| <= 2
    ensures |r.requests| == 2 <==> Truthy(uid) && profile.Ok?
    ensures |r.requests| == 2 ==>
              r.page.jobSeekerId == ProfileId(profile.data)
              && r.requests[1] == Request(Get, "/resumes/by-user/" + ToString(ProfileId(profile.data)), map[])
    ensures |r.requests| == 2 && lookup.Ok? ==> r.page.resume == lookup.data
    ensures |r.requests| == 2 && lookup.Err? ==> r.page.resume == AfterLookupError(lookup.error, p.resume)
    ensures |r.requests| == 1 ==> r.page == p.(resume := AfterLookupError(profile.error, p.resume))
  {
    if !Truthy(uid) then Loaded([], p)
    else
      var first := Request(Get, "/job-seekers/by-user/" + ToString(uid), map[]);
      match profile
      case Err(e) => Loaded([first], p.(resume := AfterLookupError(e, p.resume)))
      case Ok(d) =>
        var id := ProfileId(d);
        var second := Request(Get, "/resumes/by-user/" + ToString(id), map[]);
        var resume := match lookup
          case Ok(data) => data
          case Err(e) => AfterLookupError(e, p.resume);
        Loaded([first, second], p.(jobSeekerId := id, resume := resume))
  }

  // ---------------------------------------------------------------------------
  // Upload
  // ---------------------------------------------------------------------------

  datatype Outcome = Outcome(request: Option<Request>, page: Page, effect: Effect)

  /** The upload form: the file comes first, then the profile id; a success
      shows the returned resume and clears the selection. */
  function Upload(p: Page, reply: Reply<Option<Resume>>): (r: Outcome)
    ensures p.selected.None? ==> r == Outcome(None, p, Alert("Select a file first"))
    ensures p.selected.Some? && !Truthy(p.jobSeekerId) ==>
              r == Outcome(None, p, Alert("Job Seeker ID is unavailable"))
    ensures r.request.Some? <==> p.selected.Some? && Truthy(p.jobSeekerId)
    ensures r.request.Some? ==>
              r.request.value == Request(Post, "/resumes/upload",
                                         map["file" := Str(p.selected.value), "jobSeekerId" := p.jobSeekerId])
    ensures r.request.Some? && reply.Ok? ==>
              r.page == p.(resume := reply.data, selected := None)
              && r.effect == Alert("Resume uploaded successfully")
    ensures r.request.Some? && reply.Err? ==> r.page == p && r.effect == Alert(DataOr(reply.error, "Upload failed"))
  {
    if p.selected.None? then Outcome(None, p, Alert("Select a file first"))
    else if !Truthy(p.jobSeekerId) then Outcome(None, p, Alert("Job Seeker ID is unavailable"))
    else
      var request := Request(Post, "/resumes/upload",
                             map["file" := Str(p.selected.value), "jobSeekerId" := p.jobSeekerId]);
      match reply
      case Ok(data) => Outcome(Some(request), p.(resume := data, selected := None), Alert("Resume uploaded successfully"))
      case Err(e) => Outcome(Some(request), p, Alert(DataOr(e, "Upload failed")))
  }

  /** With no file selected the missing profile id is never reported. */
  lemma FileCheckFirst(p: Page, reply: Reply<Option<Resume>>)
    requires p.selected.None? && !Truthy(p.jobSeekerId)
    ensures Upload(p, reply).effect == Alert("Select a file first")
  {
  }

  // ---------------------------------------------------------------------------
  // Download
  // ---------------------------------------------------------------------------

  /** The download: the request, and the file name the browser saves under. */
  datatype Download = Download(request: Option<Request>, fileName: Option<string>, effect: Effect)

  predicate HasPath(resume: Option<Resume>) {
    resume.Some? && Truthy(resume.value.filePath)
  }

  /** `downloadResume`: nothing without a path; a failed request, or a path
      that is not text (so `split` throws), ends in the failure alert. */
  function DownloadResume(resume: Option<Resume>, reply: Reply<bool>): (r: Download)
    ensures !HasPath(resume) ==> r == Download(None, None, NoEffect)
    ensures HasPath(resume) ==>
              r.request == Some(Request(Get, "/resumes/download", map["path" := resume.value.filePath]))
    ensures r.fileName.Some? <==> HasPath(resume) && reply.Ok? && resume.value.filePath.Str?
    ensures r.fileName.Some? ==> r.fileName.value == FileName(resume.value.filePath.s) && r.effect == NoEffect
    ensures HasPath(resume) && r.fileName.None? ==> r.effect == Alert("Failed to download resume.")
  {
    if !HasPath(resume) then Download(None, None, NoEffect)
    else
      var path := resume.value.filePath;
      var request := Some(Request(Get, "/resumes/download", map["path" := path]));
      if reply.Ok? && path.Str? then Download(request, Some(FileName(path.s)), NoEffect)
      else Download(request, None, Alert("Failed to download resume."))
  }

  // ---------------------------------------------------------------------------
  // Delete
  // ---------------------------------------------------------------------------

  predicate HasId(resume: Option<Resume>) {
    resume.Some? && Truthy(resume.value.resumeId)
  }

  /** `deleteResume`: nothing without an id; a success clears the resume. */
  function DeleteResume(p: Page, reply: Reply<bool>): (r: Outcome)
    ensures !HasId(p.resume) ==> r == Outcome(None, p, NoEffect)
    ensures HasId(p.resume) ==>
              r.request == Some(Request(Delete, "/resumes/delete/" + ToString(p.resume.value.resumeId), map[]))
    ensures HasId(p.resume) && reply.Ok? ==>
              r.page == p.(resume := None) && r.effect == Alert("Resume deleted successfully")
    ensures HasId(p.resume) && reply.Err? ==> r.page == p && r.effect == Alert("Failed to delete resume.")
  {
    if !HasId(p.resume) then Outcome(None, p, NoEffect)
    else
      var request := Some(Request(Delete, "/resumes/delete/" + ToString(p.resume.value.resumeId), map[]));
      if reply.Ok? then Outcome(request, p.(resume := None), Alert("Resume deleted successfully"))
      else Outcome(request, p, Alert("Failed to delete resume."))
  }

  /** Uploading and then deleting the returned resume leaves the page with no
      resume and no selected file; a second delete does nothing. */
  lemma UploadThenDelete(p: Page, uploaded: Resume, reply: Reply<bool>, again: Reply<bool>)
    requires p.selected.Some? && Truthy(p.jobSeekerId) && Truthy(uploaded.resumeId)
    requires reply.Ok?
    ensures var up := Upload(p, Ok(Some(uploaded)));
            var del := DeleteResume(up.page, reply);
            del.request == Some(Request(Delete, "/resumes/delete/" + ToString(uploaded.resumeId), map[]))
            && del.page == p.(resume := None, selected := None)
            && DeleteResume(del.page, again) == Outcome(None, del.page, NoEffect)
  {
  }

  /** A freshly uploaded resume downloads under the name of the uploaded file
      when the server keeps that name as the last path segment. */
  lemma DownloadNameOfStoredFile(dir: string, name: string, r: Resume, reply: Reply<bool>)
    requires forall i :: 0 <= i < |name| ==> !IsSeparator(name[i])
    requires r.filePath == Str(dir + "/" + name) && reply.Ok?
    ensures DownloadResume(Some(r), reply).fileName == Some(name)
  {
    NameAfterDirectory(dir, '/', name);
    assert dir + "/" + name == dir + ['/'] + name;
  }

  /** The employer viewing an applicant's resume and the job seeker
      downloading it request the same file. */
  lemma SameDownloadBothSides(r: Resume, reply: Reply<bool>)
    requires HasPath(Some(r))
    ensures DownloadResume(Some(r), reply).request == EmployerApplications.ViewResume(r.filePath, reply).request
  {
  }

  /** Loading feeds the upload form: after a successful profile lookup a
      selected file is posted under the profile id the lookup found; after a
      failed one, on a fresh page, the upload reports the missing id. */
  lemma LoadThenUpload(uid: Value, p: Page, profile: Reply<ProfileRef>, lookup: Reply<Option<Resume>>,
                       reply: Reply<Option<Resume>>)
    requires Truthy(uid) && p.selected.Some?
    ensures profile.Ok? && Truthy(ProfileId(profile.data)) ==>
              Upload(Load(uid, p, profile, lookup).page, reply).request
              == Some(Request(Post, "/resumes/upload",
                              map["file" := Str(p.selected.value), "jobSeekerId" := ProfileId(profile.data)]))
    ensures profile.Err? && !Truthy(p.jobSeekerId) ==>
              Upload(Load(uid, p, profile, lookup).page, reply).effect == Alert("Job Seeker ID is unavailable")
  {
  }
}
