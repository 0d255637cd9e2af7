/** The plain `fetch` wrapper of lib/api.ts: the request it builds from an
    endpoint and options, and what it makes of the response. The response is
    a parameter; the wrapper keeps no state. */
module Api {
  import opened Common
  import opened Http

  const ApiBase: string := "http://localhost:3001"
  const AuthHeader: string := "Authorization"

  /** `RequestInit & { token?: string }`; absent headers are the empty map. */
  datatype Options = Options(verb: string, headers: map<string, string>, body: Body, token: Option<string>)

  /** What `fetch` settles with: a response (status, status text, parsed
      body), or a rejection before any response. */
  datatype ApiReply = Responded(status: int, statusText: string, data: Payload) | NotReached(reason: string)

  /** The wrapper resolves with the body, throws an `ApiError` carrying the
      status, or lets the transport error through. */
  datatype ApiResult = Data(data: Payload) | ApiError(status: int, message: string) | Transport(reason: string)

  /** The headers sent: the caller's, with `Authorization` set to the bearer
      token when the token is truthy (replacing any caller value). */
  function WithToken(headers: map<string, string>, token: Option<string>): (r: map<string, string>)
    ensures Truthy(token) ==> AuthHeader in r && r[AuthHeader] == "Bearer " + token.value
    ensures !Truthy(token) ==> r == headers
    ensures r.Keys == headers.Keys + (if Truthy(token) then {AuthHeader} else {})
    ensures forall k :: k in headers && k != AuthHeader ==> r[k] == headers[k]
  {
    if Truthy(token) then headers[AuthHeader := "Bearer " + token.value] else headers
  }

  /** The `Headers` object `apiCall` builds and then sets in place. */
  class Headers {
    var entries: map<string, string>

    constructor (init: map<string, string>)
      ensures entries == init
    {
      entries := init;
    }

    method Set(name: string, value: string)
      modifies this
      ensures entries == old(entries)[name := value]
    {
      entries := entries[name := value];
    }
  }

  /** lib/api.ts:9-13 step by step. */
  method PrepareHeaders(init: map<string, string>, token: Option<string>) returns (h: Headers)
    ensures fresh(h) && h.entries == WithToken(init, token)
  {
    h := new Headers(init);
    if Truthy(token) {
      h.Set(AuthHeader, "Bearer " + token.value);
    }
  }

  /** The request `apiCall` hands to `fetch` (lib/api.ts:8-18). The token
      itself is not forwarded as an option. */
  function BuildRequest(endpoint: string, opts: Options): (r: Request)
    ensures StartsWith(r.url, ApiBase) && r.url[|ApiBase|..] == endpoint
    ensures r.verb == opts.verb && r.body == opts.body
    ensures r.headers == WithToken(opts.headers, opts.token)
  {
    Request(opts.verb, ApiBase + endpoint, WithToken(opts.headers, opts.token), opts.body)
  }

  /** lib/api.ts:20-27. */
  function Interpret(reply: ApiReply): (r: ApiResult)
    ensures r.Data? <==> reply.Responded? && IsOk(reply.status)
    ensures r.Data? ==> r.data == reply.data
    ensures r.ApiError? ==> reply.Responded? && r.status == reply.status
                            && r.message == "API Error: " + reply.statusText
    ensures r.Transport? <==> reply.NotReached?
  {
    match reply
    case NotReached(reason) => Transport(reason)
    case Responded(status, statusText, data) =>
      if IsOk(status) then Data(data) else ApiError(status, "API Error: " + statusText)
  }

  /** Distinct endpoints reach distinct URLs. */
  lemma EndpointsAreDistinguished(e1: string, e2: string, o1: Options, o2: Options)
    requires BuildRequest(e1, o1).url == BuildRequest(e2, o2).url
    ensures e1 == e2
  {
    assert e1 == BuildRequest(e1, o1).url[|ApiBase|..];
  }

  /** Two calls that differ only in the token send the same request up to
      the `Authorization` header; a falsy token sends the caller's headers as
      given. */
  lemma TokenOnlyTouchesAuthorization(endpoint: string, opts: Options, t1: Option<string>, t2: Option<string>)
    ensures var r1 := BuildRequest(endpoint, opts.(token := t1));
            var r2 := BuildRequest(endpoint, opts.(token := t2));
            && r1.url == r2.url && r1.verb == r2.verb && r1.body == r2.body
            && r1.headers - {AuthHeader} == r2.headers - {AuthHeader}
            && (!Truthy(t1) && !Truthy(t2) ==> r1 == r2)
  {
    var h1 := WithToken(opts.headers, t1);
    var h2 := WithToken(opts.headers, t2);
    assert h1 - {AuthHeader} == opts.headers - {AuthHeader};
    assert h2 - {AuthHeader} == opts.headers - {AuthHeader};
  }

  /** Every non-2xx response becomes an error with its status, whatever its
      body says. */
  lemma FailureIgnoresBody(status: int, text: string, d1: Payload, d2: Payload)
    requires !IsOk(status)
    ensures Interpret(Responded(status, text, d1)) == Interpret(Responded(status, text, d2))
             == ApiError(status, "API Error: " + text)
  {
  }
}
