/** The shared axios instance of the password vault (lib/axios.ts): a request
    interceptor that attaches the stored bearer token (section 2.1 of RFC 6750)
    and a response interceptor that answers a 401 (section 15.5.2 of RFC 9110)
    with one token refresh and one resend, or tears the session down when the
    refresh fails. */
module Axios {
  import opened Common
  import opened Http

  const InstanceBase: string := "https://eatro-hlcb.onrender.com/api/auth"
  const RefreshUrl: string := "http://localhost:5000/api/refresh"
  const TokenKey: string := "accessToken"
  const LoginPath: string := "/login"
  const JsonHeaders: map<string, string> := map["Content-Type" := "application/json"]

  /** The value of a request config: what the interceptors read and write. */
  datatype Cfg = Cfg(verb: string, url: string, headers: map<string, string>, body: Body, retry: bool)

  /** A fresh config with the instance's default header, not yet retried. */
  function NewCfg(verb: string, url: string, headers: map<string, string>, body: Body): (c: Cfg)
    ensures !c.retry && c.headers == JsonHeaders + headers
  {
    Cfg(verb, url, JsonHeaders + headers, body, false)
  }

  /** The request the instance puts on the wire for a config. */
  function Wire(c: Cfg): Request {
    Request(c.verb, InstanceBase + c.url, c.headers, c.body)
  }

  /** The refresh call, made with the bare client: it carries no stored token
      and does not pass through either interceptor. */
  const RefreshRequest: Request := Request("POST", RefreshUrl, JsonHeaders, Fields(map[]))

  datatype Response = Response(status: int, data: Payload)

  /** A rejected call carries the server's response, or none at all. */
  datatype AxiosError = StatusError(response: Response) | TransportError(reason: string)

  datatype Outcome = Resolved(response: Response) | Rejected(error: AxiosError)

  function ErrorOf(r: Reply): AxiosError {
    match r
    case Answer(status, data) => StatusError(Response(status, data))
    case NoAnswer(reason) => TransportError(reason)
  }

  /** How the instance settles a reply when no interceptor intervenes. */
  function Settle(r: Reply): (out: Outcome)
    ensures out.Resolved? <==> Succeeded(r)
    ensures out.Resolved? ==> out.response == Response(r.status, r.data)
    ensures out.Rejected? ==> out.error == ErrorOf(r)
  {
    if Succeeded(r) then Resolved(Response(r.status, r.data)) else Rejected(ErrorOf(r))
  }

  /** `error.response?.data?.message`. */
  function ServerMessage(e: AxiosError): Option<string> {
    if e.StatusError? then e.response.data.message else None
  }

  /** The request interceptor (lib/axios.ts:13-19): when the store holds a
      non-empty token the Authorization header is set to it; otherwise the
      config passes through untouched. */
  function AttachToken(storage: map<string, string>, c: Cfg): (r: Cfg)
    ensures r.verb == c.verb && r.url == c.url && r.body == c.body && r.retry == c.retry
    ensures r.headers - {"Authorization"} == c.headers - {"Authorization"}
    ensures Truthy(GetItem(storage, TokenKey)) ==>
              "Authorization" in r.headers && r.headers["Authorization"] == "Bearer " + storage[TokenKey]
    ensures !Truthy(GetItem(storage, TokenKey)) ==> r.headers == c.headers
  {
    var token := GetItem(storage, TokenKey);
    if Truthy(token) then c.(headers := c.headers["Authorization" := "Bearer " + token.value]) else c
  }

  /** The config as the request interceptor hands it to the adapter. */
  function FirstCfg(n: Net, c: Cfg): Cfg {
    AttachToken(n.storage, c)
  }

  /** The config after a successful refresh: marked as retried and carrying
      the new token (lib/axios.ts:34, 44). */
  function ResendCfg(n: Net, c: Cfg): (r: Cfg)
    ensures r.retry && r.url == c.url && r.verb == c.verb && r.body == c.body
    ensures "Authorization" in r.headers && r.headers["Authorization"] == "Bearer " + NewToken(n)
  {
    var c1 := FirstCfg(n, c);
    c1.(retry := true, headers := c1.headers["Authorization" := "Bearer " + NewToken(n)])
  }

  /** The token a refresh reply hands out, as `localStorage` will store it. */
  function NewToken(n: Net): string {
    var refresh := Upcoming(n, 1);
    if refresh.Answer? then TokenText(refresh.data.acesstoken) else TokenText(None)
  }

  /** The browser after the original request and the refresh call went out. */
  function AfterRefresh(n: Net): (n': Net)
    ensures n'.storage == n.storage && n'.location == n.location
    ensures forall k: nat :: Upcoming(n', k) == Upcoming(n, k + 2)
  {
    var replies := if |n.replies| >= 2 then n.replies[2..] else [];
    n.(replies := replies)
  }

  /** A call through the instance: request interceptor, round trip, response
      interceptor. Returns the browser afterwards, the config as the
      interceptors left it, and how the caller's promise settles. A call whose
      config is already marked as retried makes exactly one round trip and
      leaves storage and location alone. */
  function Dispatch(n: Net, c: Cfg): (r: (Net, Cfg, Outcome))
    decreases if c.retry then 0 else 1
    ensures |n.sent| < |r.0.sent| <= |n.sent| + 3
    ensures r.0.sent[..|n.sent|] == n.sent
    ensures r.0.sent[|n.sent|] == Wire(FirstCfg(n, c))
    ensures |r.0.replies| <= |n.replies|
    ensures c.retry ==> r.0.sent == n.sent + [Wire(FirstCfg(n, c))]
    ensures c.retry ==> r.0.storage == n.storage && r.0.location == n.location
    ensures c.retry ==> r.2 == Settle(Upcoming(n, 0)) && r.1 == FirstCfg(n, c)
  {
    var c1 := FirstCfg(n, c);
    var (n1, reply) := Exchange(n, Wire(c1));
    if Succeeded(reply) then
      (n1, c1, Resolved(Response(reply.status, reply.data)))
    else if reply.Answer? && reply.status == 401 && !c1.retry then
      var c2 := c1.(retry := true);
      var (n2, refresh) := Exchange(n1, RefreshRequest);
      if Succeeded(refresh) then
        var token := TokenText(refresh.data.acesstoken);
        var n3 := n2.(storage := n2.storage[TokenKey := token]);
        var r := Dispatch(n3, c2.(headers := c2.headers["Authorization" := "Bearer " + token]));
        assert r.0.sent[..|n3.sent|] == n3.sent;
        assert n3.sent == n.sent + [Wire(c1), RefreshRequest];
        r
      else
        (n2.(storage := n2.storage - {TokenKey}, location := LoginPath), c2, Rejected(ErrorOf(refresh)))
    else
      (n1, c1, Rejected(ErrorOf(reply)))
  }

  /** The requests a call put on the wire, in order. */
  function SentBy(n: Net, c: Cfg): (s: seq<Request>)
    ensures 1 <= |s| <= 3 && s[0] == Wire(FirstCfg(n, c))
    ensures Dispatch(n, c).0.sent == n.sent + s
  {
    var n' := Dispatch(n, c).0;
    assert n'.sent == n'.sent[..|n.sent|] + n'.sent[|n.sent|..];
    n'.sent[|n.sent|..]
  }

  predicate IsRefresh(r: Request) {
    r == RefreshRequest
  }

  /** The original request and its resend go to the instance's server, never
      to the refresh endpoint. */
  lemma InstanceRequestIsNotRefresh(r: Request, path: string)
    requires r.url == InstanceBase + path
    ensures !IsRefresh(r)
  {
    assert r.url[..5] == InstanceBase[..5];
  }

  /** The shape of the refresh path: the 401 branch of the response interceptor
      either resends (refresh succeeded) or tears down (refresh failed). */
  lemma UnauthorizedPath(n: Net, c: Cfg)
    requires !c.retry && Upcoming(n, 0).Answer? && Upcoming(n, 0).status == 401
    ensures var rest := AfterRefresh(n).(sent := n.sent + [Wire(FirstCfg(n, c)), RefreshRequest]);
      if Succeeded(Upcoming(n, 1)) then
        Dispatch(n, c) == Dispatch(rest.(storage := n.storage[TokenKey := NewToken(n)]), ResendCfg(n, c))
      else
        Dispatch(n, c) == (rest.(storage := n.storage - {TokenKey}, location := LoginPath),
                           FirstCfg(n, c).(retry := true), Rejected(ErrorOf(Upcoming(n, 1))))
  {
    var c1 := FirstCfg(n, c);
    var n1 := Exchange(n, Wire(c1)).0;
    assert Upcoming(n1, 0) == Upcoming(n, 1);
    var n2 := Exchange(n1, RefreshRequest).0;
    assert n2.replies == AfterRefresh(n).replies;
    assert n2.sent == n.sent + [Wire(c1), RefreshRequest];
    assert n2 == AfterRefresh(n).(sent := n.sent + [Wire(c1), RefreshRequest]);
    assert !c1.retry;
    if Succeeded(Upcoming(n, 1)) {
      var token := TokenText(Upcoming(n, 1).data.acesstoken);
      assert token == NewToken(n);
      assert c1.(retry := true).(headers := c1.headers["Authorization" := "Bearer " + token]) == ResendCfg(n, c);
    }
  }

  // ---------------------------------------------------------------------------
  // Properties of one call

  /** A successful response is handed back unchanged; nothing is stored and
      nothing else is sent (lib/axios.ts:28). */
  lemma SuccessPassesThrough(n: Net, c: Cfg)
    requires Succeeded(Upcoming(n, 0))
    ensures var (n', c', out) := Dispatch(n, c);
      && out == Resolved(Response(Upcoming(n, 0).status, Upcoming(n, 0).data))
      && n'.storage == n.storage && n'.location == n.location
      && SentBy(n, c) == [Wire(FirstCfg(n, c))]
  {
  }

  /** A request already marked as retried is rejected with its own error, even
      on a 401: no refresh, nothing stored (lib/axios.ts:33, 54). */
  lemma RetriedRequestIsNotRefreshedAgain(n: Net, c: Cfg)
    requires c.retry && !Succeeded(Upcoming(n, 0))
    ensures var (n', c', out) := Dispatch(n, c);
      && out == Rejected(ErrorOf(Upcoming(n, 0)))
      && n'.storage == n.storage && n'.location == n.location
      && SentBy(n, c) == [Wire(FirstCfg(n, c))]
  {
  }

  /** Errors other than a 401 reject unchanged and leave the store alone
      (lib/axios.ts:54). */
  lemma OtherErrorsPassThrough(n: Net, c: Cfg)
    requires !Succeeded(Upcoming(n, 0))
    requires !(Upcoming(n, 0).Answer? && Upcoming(n, 0).status == 401)
    ensures var (n', c', out) := Dispatch(n, c);
      && out == Rejected(ErrorOf(Upcoming(n, 0)))
      && n'.storage == n.storage && n'.location == n.location
      && SentBy(n, c) == [Wire(FirstCfg(n, c))]
  {
  }

  /** On refresh success the store holds the new `acesstoken`, the original
      request is resent once, marked as retried and carrying the new token, and
      the caller gets the resend's outcome as is, even another 401
      (lib/axios.ts:34-45). */
  lemma RefreshSuccessResendsOnce(n: Net, c: Cfg)
    requires !c.retry && Upcoming(n, 0).Answer? && Upcoming(n, 0).status == 401
    requires Succeeded(Upcoming(n, 1))
    ensures var (n', c', out) := Dispatch(n, c);
      && n'.storage == n.storage[TokenKey := NewToken(n)]
      && n'.location == n.location
      && c'.retry
      && SentBy(n, c) == [Wire(FirstCfg(n, c)), RefreshRequest, SentBy(n, c)[2]]
      && SentBy(n, c)[2].headers["Authorization"] == "Bearer " + NewToken(n)
      && SentBy(n, c)[2].url == Wire(c).url
      && out == Settle(Upcoming(n, 2))
  {
    UnauthorizedPath(n, c);
    var n3 := AfterRefresh(n).(sent := n.sent + [Wire(FirstCfg(n, c)), RefreshRequest],
                               storage := n.storage[TokenKey := NewToken(n)]);
    var c3 := ResendCfg(n, c);
    var resent := FirstCfg(n3, c3);
    assert resent.headers["Authorization"] == "Bearer " + NewToken(n);
    assert Dispatch(n, c).0.sent == n.sent + [Wire(FirstCfg(n, c)), RefreshRequest, Wire(resent)];
    assert Upcoming(n3, 0) == Upcoming(n, 2);
  }

  /** On refresh failure the token is removed, the browser is sent to the
      login page and the caller sees the refresh error; the original request
      is not resent (lib/axios.ts:46-51). */
  lemma RefreshFailureTearsDown(n: Net, c: Cfg)
    requires !c.retry && Upcoming(n, 0).Answer? && Upcoming(n, 0).status == 401
    requires !Succeeded(Upcoming(n, 1))
    ensures var (n', c', out) := Dispatch(n, c);
      && TokenKey !in n'.storage
      && n'.storage == n.storage - {TokenKey}
      && n'.location == LoginPath
      && c'.retry
      && out == Rejected(ErrorOf(Upcoming(n, 1)))
      && SentBy(n, c) == [Wire(FirstCfg(n, c)), RefreshRequest]
  {
    UnauthorizedPath(n, c);
  }

  /** Single-retry bound: however the server answers, one call puts at most
      three requests on the wire; exactly one of them is a refresh when the
      first reply is a 401 on a fresh config, and none otherwise. */
  lemma AtMostOneRefreshAndOneResend(n: Net, c: Cfg)
    ensures |Filter(SentBy(n, c), IsRefresh)| ==
              if !c.retry && Upcoming(n, 0).Answer? && Upcoming(n, 0).status == 401 then 1 else 0
  {
    var s := SentBy(n, c);
    InstanceRequestIsNotRefresh(s[0], c.url);
    assert Filter(s, IsRefresh) == Filter(s[1..], IsRefresh);
    if !c.retry && Upcoming(n, 0).Answer? && Upcoming(n, 0).status == 401 {
      if Succeeded(Upcoming(n, 1)) {
        RefreshSuccessResendsOnce(n, c);
        InstanceRequestIsNotRefresh(s[2], c.url);
        assert s[1..][1..] == [s[2]];
        assert Filter([s[2]], IsRefresh) == [];
      } else {
        RefreshFailureTearsDown(n, c);
        assert s[1..][1..] == [];
      }
    } else {
      assert s[1..] == [];
    }
  }

  /** Token freshness: after a refresh that returned a non-empty token, the
      next call carries that token. */
  lemma NextCallUsesRefreshedToken(n: Net, c: Cfg, next: Cfg)
    requires !c.retry && Upcoming(n, 0).Answer? && Upcoming(n, 0).status == 401
    requires Succeeded(Upcoming(n, 1)) && Truthy(Upcoming(n, 1).data.acesstoken)
    ensures SentBy(Dispatch(n, c).0, next)[0].headers["Authorization"] ==
              "Bearer " + Upcoming(n, 1).data.acesstoken.value
  {
    RefreshSuccessResendsOnce(n, c);
  }

  // ---------------------------------------------------------------------------
  // The interceptors over mutable objects

  /** An axios request config: the interceptors rewrite its headers and mark
      it as retried in place. */
  class Config {
    var verb: string
    var url: string
    var headers: map<string, string>
    var body: Body
    var retry: bool

    function Value(): Cfg
      reads this
    {
      Cfg(verb, url, headers, body, retry)
    }

    constructor (v: Cfg)
      ensures Value() == v
    {
      verb, url, headers, body, retry := v.verb, v.url, v.headers, v.body, v.retry;
    }
  }

  /** The configured instance, bound to the browser whose storage it reads. */
  class Instance {
    const browser: Browser

    constructor (browser: Browser)
      ensures this.browser == browser
    {
      this.browser := browser;
    }

    /** `axiosInstance(config)`. */
    method Send(cfg: Config) returns (out: Outcome)
      modifies browser, cfg
      decreases if cfg.retry then 0 else 1
      ensures (browser.State(), cfg.Value(), out) == Dispatch(old(browser.State()), old(cfg.Value()))
    {
      // request interceptor
      var token := GetItem(browser.storage, TokenKey);
      if Truthy(token) {
        cfg.headers := cfg.headers["Authorization" := "Bearer " + token.value];
      }
      var reply := browser.Fetch(Wire(cfg.Value()));
      if Succeeded(reply) {
        return Resolved(Response(reply.status, reply.data));
      }
      // response interceptor, error path
      if reply.Answer? && reply.status == 401 && !cfg.retry {
        cfg.retry := true;
        var refresh := browser.Fetch(RefreshRequest);
        if Succeeded(refresh) {
          var newToken := TokenText(refresh.data.acesstoken);
          browser.SetItem(TokenKey, newToken);
          cfg.headers := cfg.headers["Authorization" := "Bearer " + newToken];
          out := Send(cfg);
          return;
        }
        browser.RemoveItem(TokenKey);
        browser.Navigate(LoginPath);
        return Rejected(ErrorOf(refresh));
      }
      return Rejected(ErrorOf(reply));
    }
  }
}
