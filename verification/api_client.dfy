/**
 The HTTP client's two interceptors: the request one attaches the stored
 token as a bearer credential (section 2.1 of RFC 6750, `Bearer` SP token),
 the response one hands every outcome back as it came.
 */
module ApiClient {
  import opened Js
  import opened Storage
  import opened Auth
  import opened Http

  /** The parts of an outgoing request configuration the interceptor can touch. */
  datatype Config = Config(
    verb: Method,
    url: string,
    headers: map<string, string>,
    params: map<string, Value>,
    data: map<string, Value>)

  const AuthorizationHeader: string := "Authorization"
  const BearerPrefix: string := "Bearer "

  /** The request interceptor. It reads the token from the store at call time,
      not from the live session. */
  function Decorate(st: Store, c: Config): (r: Config)
    ensures r.verb == c.verb && r.url == c.url && r.params == c.params && r.data == c.data
    ensures forall h :: h != AuthorizationHeader ==> (h in r.headers <==> h in c.headers)
    ensures forall h :: h != AuthorizationHeader && h in c.headers ==> r.headers[h] == c.headers[h]
    ensures Truthy(GetText(st, TokenKey)) ==>
              AuthorizationHeader in r.headers && r.headers[AuthorizationHeader] == BearerPrefix + ItemText(st[TokenKey])
    ensures !Truthy(GetText(st, TokenKey)) ==> r == c
  {
    var token := GetText(st, TokenKey);
    if Truthy(token) then c.(headers := c.headers[AuthorizationHeader := BearerPrefix + token.s]) else c
  }

  /** The response interceptor: a success is returned and an error rejected,
      each exactly as received, with no retry. */
  function Deliver<T>(reply: Reply<T>): (r: Reply<T>)
    ensures r.Ok? <==> reply.Ok?
    ensures r == reply
  {
    reply
  }

  /** The attached header splits back into the scheme and the stored token. */
  lemma BearerHeaderRoundTrip(st: Store, c: Config)
    requires Truthy(GetText(st, TokenKey))
    ensures var h := Decorate(st, c).headers[AuthorizationHeader];
            |h| > |BearerPrefix| && h[..|BearerPrefix|] == BearerPrefix
            && h[|BearerPrefix|..] == ItemText(st[TokenKey])
  {
  }

  /** After a login with a non-empty token every request carries it; after a
      logout requests go out exactly as built. */
  lemma SessionDrivesHeader(s: State, t: string, p: Users.UserRecord, c: Config)
    requires t != ""
    ensures Decorate(Auth.Login(s, Str(t), p).store, c).headers[AuthorizationHeader] == BearerPrefix + t
    ensures Decorate(Logout(s).store, c) == c
  {
  }

  /** A login response without a token still makes later requests carry
      `Bearer undefined`, because the store holds the text of the missing value. */
  lemma MissingTokenSentAsUndefined(s: State, p: Users.UserRecord, c: Config)
    ensures Decorate(Auth.Login(s, Undefined, p).store, c).headers[AuthorizationHeader] == "Bearer undefined"
  {
  }
}
