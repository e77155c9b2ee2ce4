/**
 The user record in both of its shapes: the loosely shaped payload the server
 returns at login (stored verbatim and restored at startup) and the normalised
 record `login` builds. Both have the same fields; absent fields are Undefined.
 */
module Users {
  import opened Js

  datatype UserRecord = UserRecord(
    userId: Value,
    id: Value,
    username: Value,
    name: Value,
    email: Value,
    role: Value,
    roles: Option<seq<string>>,
    jobSeekerId: Value,
    employerId: Value)

  const JobSeeker: string := "job_seeker"
  const Employer: string := "employer"

  /** `user?.roles?.includes(tag)`: false when there is no user or no role list. */
  predicate Holds(user: Option<UserRecord>, tag: string) {
    user.Some? && user.value.roles.Some? && tag in user.value.roles.value
  }

  /** `user?.roles || []`. */
  function RolesOf(user: Option<UserRecord>): (roles: seq<string>)
    ensures forall tag :: tag in roles <==> Holds(user, tag)
  {
    if user.Some? && user.value.roles.Some? then user.value.roles.value else []
  }

  /** `user?.userId || user?.id`, the user id the profile pages look up by. */
  function Uid(user: Option<UserRecord>): (uid: Value)
    ensures user.None? ==> uid == Undefined
    ensures user.Some? && Truthy(user.value.userId) ==> uid == user.value.userId
    ensures user.Some? && !Truthy(user.value.userId) ==> uid == user.value.id
  {
    match user
    case None => Undefined
    case Some(u) => Or(u.userId, u.id)
  }

  /** The part of a profile response the pages read an id from: the
      profile-specific id field (`jobSeekerId` or `employerId`) and `id`. */
  datatype ProfileRef = ProfileRef(specificId: Value, id: Value)

  /** `data.jobSeekerId || data.id` (or `data.employerId || data.id`). */
  function ProfileId(d: ProfileRef): (pid: Value)
    ensures Truthy(pid) <==> Truthy(d.specificId) || Truthy(d.id)
    ensures Truthy(d.specificId) ==> pid == d.specificId
    ensures !Truthy(d.specificId) ==> pid == d.id
  {
    Or(d.specificId, d.id)
  }
}
