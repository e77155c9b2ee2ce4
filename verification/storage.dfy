/**
 The browser's origin-scoped key/value store, reduced to a finite map. The
 session uses four keys; any other key belongs to someone else.
 */
module Storage {
  import opened Js
  import opened Users

  /** A stored item. `UserJson(p)` stands for the text `JSON.stringify(p)`:
      parsing it gives p back. JSON text itself is not modelled. */
  datatype Item = Text(text: string) | UserJson(record: UserRecord)

  type Store = map<string, Item>

  const TokenKey: string := "cc_token"
  const UserKey: string := "cc_user"
  const JobSeekerIdKey: string := "cc_jobSeekerId"
  const EmployerIdKey: string := "cc_employerId"

  const SessionKeys: set<string> := {TokenKey, UserKey, JobSeekerIdKey, EmployerIdKey}

  /** What `getItem` returns for a serialised payload: JSON text, whose
      characters are not modelled beyond being non-empty and not a number. */
  const SerialisedText: string := "{...}"

  /** The item as `getItem` returns it, as text. */
  function ItemText(i: Item): (t: string)
    ensures i.UserJson? ==> t != ""
  {
    match i
    case Text(t) => t
    case UserJson(_) => SerialisedText
  }

  /** `localStorage.getItem(k)` as a JS value: null when missing. */
  function GetText(st: Store, k: string): (v: Value)
    ensures k !in st <==> v == Null
    ensures k in st ==> v == Str(ItemText(st[k]))
  {
    if k in st then Str(ItemText(st[k])) else Null
  }

  /** `localStorage.setItem(k, v)`: the value is stored as `String(v)`. */
  function SetValue(st: Store, k: string, v: Value): (r: Store)
    ensures r.Keys == st.Keys + {k}
    ensures r[k] == Text(ToString(v))
    ensures forall j :: j in st && j != k ==> r[j] == st[j]
  {
    st[k := Text(ToString(v))]
  }

  /** `localStorage.removeItem` for every key of ks. */
  function RemoveKeys(st: Store, ks: set<string>): (r: Store)
    ensures r.Keys == st.Keys - ks
    ensures forall j :: j in r ==> r[j] == st[j]
  {
    st - ks
  }
}
