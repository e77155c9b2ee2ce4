/**
 Form values as the profile pages hold them: a map from field name to value,
 where a missing field reads as undefined.
 */
module Forms {
  import opened Js

  type Form = map<string, Value>

  function Field(f: Form, name: string): (v: Value)
    ensures name !in f ==> v == Undefined
  {
    if name in f then f[name] else Undefined
  }

  /** A required string field: a string, and not the empty one. */
  predicate RequiredText(v: Value) {
    v.Str? && v.s != ""
  }

  /** The request body `{...values, userId: uid}`. */
  function WithUserId(f: Form, uid: Value): (body: map<string, Value>)
    ensures body.Keys == f.Keys + {"userId"}
    ensures body["userId"] == uid
    ensures forall k :: k in f && k != "userId" ==> body[k] == f[k]
  {
    f["userId" := uid]
  }
}
