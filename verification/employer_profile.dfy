/**
 The employer's profile editor: the company schema, loading an existing
 profile into the form, and saving by create or update.
 */
module EmployerProfile {
  import opened Js
  import opened Users
  import opened Http
  import opened Forms

  /** The company schema: a name of 2 to 100 characters, a description and a position. */
  predicate SchemaValid(f: Form) {
    && RequiredText(Field(f, "companyName"))
    && 2 <= |Field(f, "companyName").s| <= 100
    && RequiredText(Field(f, "companyDescription"))
    && RequiredText(Field(f, "position"))
  }

  /** The profile as the server returns it. */
  datatype EmployerData = EmployerData(
    employerId: Value, id: Value, companyName: Value, companyDescription: Value, position: Value)

  /** After loading: the requests made, the profile id, and the reset form values. */
  datatype Loaded = Loaded(requests: seq<Request>, employerId: Value, form: Option<Form>)

  /** No user id: no request, and loading ends. Otherwise look the profile up
      by user; a failure is ignored and leaves the form at its defaults. */
  function Load(uid: Value, reply: Reply<EmployerData>): (r: Loaded)
    ensures !Truthy(uid) ==> r == Loaded([], Null, None)
    ensures Truthy(uid) ==> r.requests == [Request(Get, "/employers/by-user/" + ToString(uid), map[])]
    ensures reply.Err? ==> r.employerId == Null && r.form.None?
    ensures Truthy(uid) && reply.Ok? ==>
              r.employerId == ProfileId(ProfileRef(reply.data.employerId, reply.data.id))
              && r.form.Some?
              && Field(r.form.value, "companyName") == reply.data.companyName
              && Field(r.form.value, "companyDescription") == reply.data.companyDescription
              && Field(r.form.value, "position") == reply.data.position
              && r.form.value.Keys == {"companyName", "companyDescription", "position"}
  {
    if !Truthy(uid) then Loaded([], Null, None)
    else
      var request := Request(Get, "/employers/by-user/" + ToString(uid), map[]);
      match reply
      case Err(_) => Loaded([request], Null, None)
      case Ok(d) =>
        var form := map["companyName" := d.companyName,
                        "companyDescription" := d.companyDescription,
                        "position" := d.position];
        Loaded([request], ProfileId(ProfileRef(d.employerId, d.id)), Some(form))
  }

  datatype Saved = Saved(request: Request, employerId: Value, effect: Effect)

  /** Submitting a valid form: update the known profile, or create one; only
      a successful create learns the new id. Each path has its own messages. */
  function Submit(employerId: Value, uid: Value, values: Form, reply: Reply<ProfileRef>): (r: Saved)
    requires SchemaValid(values)
    ensures r.request.body == WithUserId(values, uid)
    ensures Truthy(employerId) ==>
              r.request.verb == Put && r.request.path == "/employers/update/" + ToString(employerId)
    ensures !Truthy(employerId) ==> r.request.verb == Post && r.request.path == "/employers/create"
    ensures Truthy(employerId) || reply.Err? ==> r.employerId == employerId
    ensures !Truthy(employerId) && reply.Ok? ==> r.employerId == ProfileId(reply.data)
    ensures Truthy(employerId) && reply.Ok? ==> r.effect == Alert("Employer profile updated successfully.")
    ensures Truthy(employerId) && reply.Err? ==>
              r.effect == Alert(MessageOr(reply.error, "Failed to update Employer profile"))
    ensures !Truthy(employerId) && reply.Ok? ==> r.effect == Alert("Employer profile created successfully.")
    ensures !Truthy(employerId) && reply.Err? ==>
              r.effect == Alert(MessageOr(reply.error, "Failed to create Employer profile"))
  {
    var payload := WithUserId(values, uid);
    if Truthy(employerId) then
      var request := Request(Put, "/employers/update/" + ToString(employerId), payload);
      match reply
      case Ok(_) => Saved(request, employerId, Alert("Employer profile updated successfully."))
      case Err(e) => Saved(request, employerId, Alert(MessageOr(e, "Failed to update Employer profile")))
    else
      var request := Request(Post, "/employers/create", payload);
      match reply
      case Ok(d) => Saved(request, ProfileId(d), Alert("Employer profile created successfully."))
      case Err(e) => Saved(request, employerId, Alert(MessageOr(e, "Failed to create Employer profile")))
  }

  /** A successful create whose response carries an id turns the next save
      into an update of that id. */
  lemma CreateThenUpdate(uid: Value, v1: Form, v2: Form, created: ProfileRef, reply2: Reply<ProfileRef>)
    requires SchemaValid(v1) && SchemaValid(v2)
    requires Truthy(created.specificId) || Truthy(created.id)
    ensures var first := Submit(Null, uid, v1, Ok(created));
            var second := Submit(first.employerId, uid, v2, reply2);
            first.request.verb == Post
            && second.request == Request(Put, "/employers/update/" + ToString(ProfileId(created)), WithUserId(v2, uid))
  {
  }

  /** A failed create leaves the editor in create mode: the next save creates again. */
  lemma FailedCreateRetriesCreate(uid: Value, v1: Form, v2: Form, e: HttpError, reply2: Reply<ProfileRef>)
    requires SchemaValid(v1) && SchemaValid(v2)
    ensures var first := Submit(Null, uid, v1, Err(e));
            Submit(first.employerId, uid, v2, reply2).request == Request(Post, "/employers/create", WithUserId(v2, uid))
  {
  }

  /** A profile loaded from the server, saved again, goes out as an update of
      the loaded id with the same company fields. */
  lemma LoadThenSaveUpdates(uid: Value, d: EmployerData, reply: Reply<ProfileRef>)
    requires Truthy(uid) && (Truthy(d.employerId) || Truthy(d.id))
    requires SchemaValid(Load(uid, Ok(d)).form.value)
    ensures var l := Load(uid, Ok(d));
            var s := Submit(l.employerId, uid, l.form.value, reply);
            s.request.verb == Put
            && s.request.path == "/employers/update/" + ToString(ProfileId(ProfileRef(d.employerId, d.id)))
            && s.request.body["companyName"] == d.companyName
            && s.request.body["userId"] == uid
  {
  }
}
