/**
 The registration page: the password-strength meter, the form schema, and the
 registration call.
 */
module Register {
  import opened Js
  import opened Users
  import opened Http

  // ---------------------------------------------------------------------------
  // Strength meter
  // ---------------------------------------------------------------------------

  predicate IsUpper(c: char) { 'A' <= c <= 'Z' }
  predicate IsLower(c: char) { 'a' <= c <= 'z' }
  /** Neither an ASCII letter nor an ASCII digit (`[^A-Za-z0-9]`). */
  predicate IsOther(c: char) { !IsUpper(c) && !IsLower(c) && !IsDigit(c) }

  predicate HasUpper(p: string) { exists i :: 0 <= i < |p| && IsUpper(p[i]) }
  predicate HasLower(p: string) { exists i :: 0 <= i < |p| && IsLower(p[i]) }
  predicate HasDigit(p: string) { exists i :: 0 <= i < |p| && IsDigit(p[i]) }
  predicate HasOther(p: string) { exists i :: 0 <= i < |p| && IsOther(p[i]) }

  /** The five criteria, in the order the meter tests them. */
  function Criteria(p: string): seq<bool> {
    [|p| >= 8, HasUpper(p), HasLower(p), HasDigit(p), HasOther(p)]
  }

  function CountTrue(bs: seq<bool>): (n: nat)
    ensures n <= |bs|
  {
    if |bs| == 0 then 0 else (if bs[0] then 1 else 0) + CountTrue(bs[1..])
  }

  /** The number of criteria the password meets. */
  function Score(p: string): (s: nat)
    ensures s <= 5
  {
    CountTrue(Criteria(p))
  }

  const Labels: seq<string> := ["Weak", "Fair", "OK", "Good", "Strong"]
  const NoPassword: string := "\U{2014}"

  /** `strength()`: a dash for an absent or empty password, otherwise the label
      at index `max(0, s - 1)`. */
  function Strength(pwd: Option<string>): (shown: string)
    ensures (pwd.None? || pwd.value == "") <==> shown == NoPassword
    ensures pwd.Some? && pwd.value != "" ==> shown in Labels
  {
    if pwd.None? || pwd.value == "" then NoPassword
    else
      var s := Score(pwd.value);
      Labels[if s - 1 > 0 then s - 1 else 0]
  }

  /** The rank of a label in the table (dash ranks below all). */
  function Rank(text: string): int {
    if text == "Weak" then 0
    else if text == "Fair" then 1
    else if text == "OK" then 2
    else if text == "Good" then 3
    else if text == "Strong" then 4
    else -1
  }

  /** Every non-empty password meets at least one criterion: its first
      character is upper, lower, digit or other. So the `max(0, ...)` guard
      never acts and the label index is exactly the score minus one. */
  lemma NonEmptyScoresAtLeastOne(p: string)
    requires p != ""
    ensures Score(p) >= 1
    ensures Strength(Some(p)) == Labels[Score(p) - 1]
  {
    var c := Criteria(p);
    assert HasUpper(p) || HasLower(p) || HasDigit(p) || HasOther(p) by {
      assert IsUpper(p[0]) || IsLower(p[0]) || IsDigit(p[0]) || IsOther(p[0]);
    }
    assert CountTrue(c) == (if c[0] then 1 else 0) + CountTrue(c[1..]);
    assert CountTrue(c[1..]) == (if c[1] then 1 else 0) + CountTrue(c[2..]);
    assert CountTrue(c[2..]) == (if c[2] then 1 else 0) + CountTrue(c[3..]);
    assert CountTrue(c[3..]) == (if c[3] then 1 else 0) + CountTrue(c[4..]);
  }

  /** Meeting more criteria never gives a weaker label. */
  lemma StrengthMonotone(p: string, q: string)
    requires p != "" && q != ""
    requires Score(p) <= Score(q)
    ensures Rank(Strength(Some(p))) <= Rank(Strength(Some(q)))
    ensures Rank(Strength(Some(p))) == Score(p) - 1
  {
    NonEmptyScoresAtLeastOne(p);
    NonEmptyScoresAtLeastOne(q);
  }

  /** All five criteria give "Strong"; exactly one gives "Weak". */
  lemma StrengthExtremes(p: string)
    requires p != ""
    ensures Score(p) == 5 ==> Strength(Some(p)) == "Strong"
    ensures Score(p) == 1 ==> Strength(Some(p)) == "Weak"
  {
    NonEmptyScoresAtLeastOne(p);
  }

  // ---------------------------------------------------------------------------
  // Schema and request
  // ---------------------------------------------------------------------------

  datatype Registration = Registration(name: string, email: string, role: string, password: string, confirm: string)

  /** The form schema. `isEmail` stands for the form library's email test. */
  predicate SchemaValid(v: Registration, isEmail: string -> bool) {
    && v.name != "" && |v.name| >= 2
    && v.email != "" && isEmail(v.email)
    && v.role in {JobSeeker, Employer}
    && v.password != "" && |v.password| >= 8
    && v.confirm == v.password
  }

  datatype Submitted = Submitted(request: Request, effect: Effect)

  /** Submitting a valid form: POST name, email, password and role (never the
      confirmation); on success go to the login page, on failure alert. */
  function Submit(v: Registration, isEmail: string -> bool, reply: Reply<bool>): (r: Submitted)
    requires SchemaValid(v, isEmail)
    ensures r.request.verb == Post && r.request.path == "/auth/register"
    ensures r.request.body.Keys == {"name", "email", "password", "role"}
    ensures r.request.body["name"] == Str(v.name) && r.request.body["email"] == Str(v.email)
    ensures r.request.body["password"] == Str(v.password) && r.request.body["role"] == Str(v.role)
    ensures "confirm" !in r.request.body
    ensures r.request.body["role"] in {Str(JobSeeker), Str(Employer)}
    ensures r.request.body["password"].Str? && |r.request.body["password"].s| >= 8
    ensures reply.Ok? <==> r.effect == NavigateTo("/login")
    ensures reply.Err? ==> r.effect == Alert(MessageOr(reply.error, "Registration failed"))
  {
    var body := map["name" := Str(v.name), "email" := Str(v.email),
                    "password" := Str(v.password), "role" := Str(v.role)];
    var effect := if reply.Ok? then NavigateTo("/login") else Alert(MessageOr(reply.error, "Registration failed"));
    Submitted(Request(Post, "/auth/register", body), effect)
  }
}
