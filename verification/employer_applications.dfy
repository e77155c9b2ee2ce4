/**
 The employer's applications page: loading the list, the optimistic status
 update, the status badge, which entries offer Approve/Reject, and viewing an
 applicant's resume.
 */
module EmployerApplications {
  import opened Js
  import opened Users
  import opened Http

  datatype Application = Application(
    applicationId: Value,
    applicantName: Value,
    applicationDate: Value,
    status: string,
    filePath: Value)

  // ---------------------------------------------------------------------------
  // Loading
  // ---------------------------------------------------------------------------

  /** The list response: an array of applications, or anything else. */
  datatype ListData = Array(items: seq<Application>) | NotArray

  datatype Loaded = Loaded(requests: seq<Request>, employerId: Value, applications: seq<Application>)

  /** The load chain: no user id means no request; otherwise look up the
      employer profile, then its applications. A non-array answer or any
      failure leaves the list empty. */
  function Load(user: Option<UserRecord>, profile: Reply<ProfileRef>, list: Reply<ListData>): (r: Loaded)
    ensures !Truthy(Uid(user)) ==> r.requests == [] && r.applications == []
    ensures Truthy(Uid(user)) ==>
              (|r.requests| >= 1 && r.requests[0] == Request(Get, "/employers/by-user/" + ToString(Uid(user)), map[]))
    ensures |r.requests| <= 2
    ensures |r.requests| < 2 ==> r.employerId == Null
    ensures |r.requests| == 2 <==> Truthy(Uid(user)) && profile.Ok?
    ensures |r.requests| == 2 ==>
              (r.employerId == ProfileId(profile.data)
               && r.requests[1] == Request(Get, "/applications/employer/" + ToString(ProfileId(profile.data)), map[]))
    ensures |r.requests| == 2 && list.Ok? && list.data.Array? ==> r.applications == list.data.items
    ensures !(|r.requests| == 2 && list.Ok? && list.data.Array?) ==> r.applications == []
  {
    var uid := Uid(user);
    if !Truthy(uid) then Loaded([], Null, [])
    else
      var first := Request(Get, "/employers/by-user/" + ToString(uid), map[]);
      match profile
      case Err(_) => Loaded([first], Null, [])
      case Ok(d) =>
        var empId := ProfileId(d);
        var second := Request(Get, "/applications/employer/" + ToString(empId), map[]);
        var apps := if list.Ok? && list.data.Array? then list.data.items else [];
        Loaded([first, second], empId, apps)
  }

  // ---------------------------------------------------------------------------
  // Status update
  // ---------------------------------------------------------------------------

  /** `prev.map(app => app.applicationId === id ? {...app, status} : app)`. */
  function WithStatus(apps: seq<Application>, id: Value, status: string): (r: seq<Application>)
    ensures |r| == |apps|
    ensures forall i :: 0 <= i < |apps| ==> r[i].(status := apps[i].status) == apps[i]
    ensures forall i :: 0 <= i < |apps| ==> StrictEq(apps[i].applicationId, id) ==> r[i].status == status
    ensures forall i :: 0 <= i < |apps| ==> !StrictEq(apps[i].applicationId, id) ==> r[i] == apps[i]
  {
    if |apps| == 0 then []
    else
      var head := if StrictEq(apps[0].applicationId, id) then apps[0].(status := status) else apps[0];
      [head] + WithStatus(apps[1..], id, status)
  }

  datatype Updated = Updated(request: Request, applications: seq<Application>, effect: Effect)

  /** `updateApplicationStatus`: PUT the new status; only a success changes the list. */
  function UpdateStatus(apps: seq<Application>, id: Value, status: string, reply: Reply<bool>): (r: Updated)
    ensures r.request == Request(Put, "/applications/update/" + ToString(id), map["status" := Str(status)])
    ensures reply.Err? ==> r.applications == apps && r.effect == Alert("Failed to update status")
    ensures reply.Ok? ==> r.applications == WithStatus(apps, id, status)
    ensures reply.Ok? ==> r.effect == Alert("Application " + Lower(status) + " successfully!")
  {
    var request := Request(Put, "/applications/update/" + ToString(id), map["status" := Str(status)]);
    if reply.Ok? then Updated(request, WithStatus(apps, id, status), Alert("Application " + Lower(status) + " successfully!"))
    else Updated(request, apps, Alert("Failed to update status"))
  }

  /** Applying the same update twice is the same as once. */
  lemma {:induction false} WithStatusIdempotent(apps: seq<Application>, id: Value, status: string)
    ensures WithStatus(WithStatus(apps, id, status), id, status) == WithStatus(apps, id, status)
  {
    if |apps| > 0 {
      WithStatusIdempotent(apps[1..], id, status);
    }
  }

  /** An id no entry carries leaves the list as it was. */
  lemma {:induction false} WithStatusAbsentId(apps: seq<Application>, id: Value, status: string)
    requires forall i :: 0 <= i < |apps| ==> !StrictEq(apps[i].applicationId, id)
    ensures WithStatus(apps, id, status) == apps
  {
    if |apps| > 0 {
      WithStatusAbsentId(apps[1..], id, status);
    }
  }

  // ---------------------------------------------------------------------------
  // Badge and actions
  // ---------------------------------------------------------------------------

  datatype Badge = Warning | Success | Danger | Secondary

  /** The employer-side badge, compared after lower-casing. */
  function StatusBadge(status: string): (b: Badge)
    ensures b == Warning <==> Lower(status) == "pending"
    ensures b == Success <==> Lower(status) == "approved"
    ensures b != Secondary
  {
    var s := Lower(status);
    if s == "pending" then Warning else if s == "approved" then Success else Danger
  }

  /** The decisions the page offers for an entry: Approve and Reject, sending
      "APPROVED" and "REJECTED", and only while the entry is pending. */
  function Actions(a: Application): (r: seq<string>)
    ensures r != [] <==> Lower(a.status) == "pending"
    ensures r != [] ==> r == ["APPROVED", "REJECTED"]
  {
    if Lower(a.status) == "pending" then ["APPROVED", "REJECTED"] else []
  }

  /** The badge ignores case: "PENDING" and "pending" look the same. */
  lemma StatusBadgeIgnoresCase(status: string)
    ensures StatusBadge(status) == StatusBadge(Lower(status))
  {
    LowerIdempotent(status);
  }

  /** Once approved or rejected, an entry offers no more actions and is no
      longer shown as pending. */
  lemma DecisionIsFinal(apps: seq<Application>, id: Value, status: string, i: int)
    requires status in Actions(Application(id, Undefined, Undefined, "pending", Undefined))
    requires 0 <= i < |apps| && StrictEq(apps[i].applicationId, id)
    ensures Actions(WithStatus(apps, id, status)[i]) == []
    ensures StatusBadge(WithStatus(apps, id, status)[i].status) != Warning
  {
    var r := WithStatus(apps, id, status);
    assert Lower(r[i].status) != "pending" by {
      assert r[i].status == status;
      assert status == "APPROVED" || status == "REJECTED";
      assert Lower(status)[0] == LowerChar(status[0]);
    }
  }

  // ---------------------------------------------------------------------------
  // Resume view
  // ---------------------------------------------------------------------------

  datatype Viewed = Viewed(request: Option<Request>, effect: Effect)

  /** `viewResume(filePath)`: with no path, alert and issue no request; a
      failed download alerts; a success opens the file, which is not modelled. */
  function ViewResume(filePath: Value, reply: Reply<bool>): (r: Viewed)
    ensures r.request.None? <==> !Truthy(filePath)
    ensures r.request.None? ==> r.effect == Alert("No resume available")
    ensures r.request.Some? ==> r.request.value == Request(Get, "/resumes/download", map["path" := filePath])
    ensures r.request.Some? && reply.Err? ==> r.effect == Alert("Failed to load resume.")
    ensures r.request.Some? && reply.Ok? ==> r.effect == NoEffect
  {
    if !Truthy(filePath) then Viewed(None, Alert("No resume available"))
    else
      var request := Some(Request(Get, "/resumes/download", map["path" := filePath]));
      if reply.Ok? then Viewed(request, NoEffect) else Viewed(request, Alert("Failed to load resume."))
  }

  /** Loading feeds the decisions: after a successful load, a successful
      status update of a loaded application changes that entry's status
      (unless its id is NaN, which `===` never matches) and leaves every entry
      with a different id as loaded. */
  lemma LoadThenDecide(user: Option<UserRecord>, profile: Reply<ProfileRef>, items: seq<Application>,
                       i: int, status: string, reply: Reply<bool>)
    requires Truthy(Uid(user)) && profile.Ok? && reply.Ok?
    requires 0 <= i < |items|
    ensures var loaded := Load(user, profile, Ok(Array(items))).applications;
            var updated := UpdateStatus(loaded, items[i].applicationId, status, reply).applications;
            |updated| == |items|
            && (StrictEq(items[i].applicationId, items[i].applicationId) ==> updated[i].status == status)
            && (forall j :: 0 <= j < |items| && !StrictEq(items[j].applicationId, items[i].applicationId) ==>
                  updated[j] == items[j])
  {
  }
}
