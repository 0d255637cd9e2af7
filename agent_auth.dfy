/** The marketplace agents' session manager (context/auth-context.tsx): a token
    slot, an agent slot and a loading flag over `localStorage["token"]`, with
    the profile fetch and the token refresh calling each other. Every network
    call takes one reply from the server script, and a refresh or a profile
    fetch only recurses after a reply arrived, so the length of the script
    bounds the recursion; the source itself sets no bound. */
module AgentAuth {
  import opened Common
  import opened Http

  /** `API_BASE_URL` with no environment override. */
  const AgentBase: string := "http://localhost:5000"
  const TokenSlot: string := "token"

  /** The provider's state: `agent`, `token`, `isLoading`, and the browser. */
  datatype Session = Session(agent: Option<Agent>, token: Option<string>, isLoading: bool, net: Net)

  /** The provider as first rendered. */
  function Initial(n: Net): Session {
    Session(None, None, true, n)
  }

  /** `GET /agent` with the bearer token rendered by a template literal. */
  function AgentRequest(t: Option<string>): Request {
    Request("GET", AgentBase + "/agent", map["Authorization" := "Bearer " + TokenText(t)], NoBody)
  }

  const RefreshTokenRequest: Request := Request("POST", AgentBase + "/refresh-token", map[], NoBody)

  function LoginRequest(email: string, password: string): Request {
    Request("POST", AgentBase + "/login", map["Content-Type" := "application/json"],
            Fields(map["email" := email, "password" := password]))
  }

  function RegisterRequest(agentData: map<string, string>): Request {
    Request("POST", AgentBase + "/register", map["Content-Type" := "application/json"], Fields(agentData))
  }

  /** `data.userinfo[0]`: an empty list yields `undefined`. */
  function FirstAgent(us: seq<Agent>): (r: Option<Agent>)
    ensures r.Some? <==> |us| > 0
    ensures r.Some? ==> r.value == us[0]
  {
    if |us| > 0 then Some(us[0]) else None
  }

  /** `setToken(t)` followed by `localStorage.setItem("token", t)`. */
  function Adopt(s: Session, t: Option<string>): Session {
    s.(token := t, net := s.net.(storage := s.net.storage[TokenSlot := TokenText(t)]))
  }

  /** `logout` (context/auth-context.tsx:115-119). */
  function LoggedOut(s: Session): Session {
    s.(agent := None, token := None, net := s.net.(storage := s.net.storage - {TokenSlot}))
  }

  /** `fetchAgentInfo(t)` (context/auth-context.tsx:46-65). A 200 whose body has
      no `userinfo` throws inside the `try` and logs out. Whatever happens,
      `isLoading` ends false, the profile request is the first thing sent and
      the log only grows. */
  function Fetched(s: Session, t: Option<string>): (r: Session)
    decreases |s.net.replies|
    ensures !r.isLoading
    ensures |r.net.sent| > |s.net.sent| && r.net.sent[|s.net.sent|] == AgentRequest(t)
    ensures r.net.sent[..|s.net.sent|] == s.net.sent
    ensures |r.net.replies| <= |s.net.replies|
    ensures r.net.location == s.net.location
  {
    var (n1, reply) := Exchange(s.net, AgentRequest(t));
    var s1 := s.(net := n1);
    var s2 :=
      if Succeeded(reply) then
        if reply.data.userinfo.Some? then s1.(agent := FirstAgent(reply.data.userinfo.value)) else LoggedOut(s1)
      else if reply.Answer? && reply.status == 401 then Refreshed(s1)
      else LoggedOut(s1);
    s2.(isLoading := false)
  }

  /** `refreshToken` (context/auth-context.tsx:121-137): on a 2xx the new token
      is adopted and the profile is fetched with it; otherwise the session is
      logged out and `isLoading` is left as it was. */
  function Refreshed(s: Session): (r: Session)
    decreases |s.net.replies|
    ensures |r.net.sent| > |s.net.sent| && r.net.sent[|s.net.sent|] == RefreshTokenRequest
    ensures r.net.sent[..|s.net.sent|] == s.net.sent
    ensures |r.net.replies| <= |s.net.replies|
    ensures r.net.location == s.net.location
    ensures Succeeded(Upcoming(s.net, 0)) ==> !r.isLoading
    ensures !Succeeded(Upcoming(s.net, 0)) ==> r.isLoading == s.isLoading
  {
    var (n1, reply) := Exchange(s.net, RefreshTokenRequest);
    if Succeeded(reply) then
      var s2 := Fetched(Adopt(s.(net := n1), reply.data.acesstoken), reply.data.acesstoken);
      assert n1.sent == s.net.sent + [RefreshTokenRequest];
      assert s2.net.sent[..|n1.sent|] == n1.sent;
      s2
    else
      LoggedOut(s.(net := n1))
  }

  /** The mount effect (context/auth-context.tsx:36-44). */
  function Mounted(s: Session): Session {
    var saved := GetItem(s.net.storage, TokenSlot);
    if Truthy(saved) then Fetched(s.(token := saved), saved) else s.(isLoading := false)
  }

  /** `refreshAgent` (context/auth-context.tsx:67-80): nothing without a token;
      a failed fetch, or a body without `userinfo`, leaves the agent alone. */
  function AgentRefreshed(s: Session): Session {
    if !Truthy(s.token) then s
    else
      var (n1, reply) := Exchange(s.net, AgentRequest(s.token));
      if Succeeded(reply) && reply.data.userinfo.Some? then
        s.(net := n1, agent := FirstAgent(reply.data.userinfo.value))
      else s.(net := n1)
  }

  /** The message a rejected `fetch` carries, or `fallback` for a non-2xx. */
  function FailureMessage(reply: Reply, fallback: string): string {
    if reply.NoAnswer? then reply.reason else fallback
  }

  /** `login` (context/auth-context.tsx:82-100). */
  function LoginOutcome(s: Session, email: string, password: string): (Session, Completion) {
    var (n1, reply) := Exchange(s.net, LoginRequest(email, password));
    if Succeeded(reply) then
      (Fetched(Adopt(s.(net := n1), reply.data.acesstoken), reply.data.acesstoken), Done)
    else
      (s.(net := n1), Failed(FailureMessage(reply, "Login failed")))
  }

  /** `register` (context/auth-context.tsx:102-113). */
  function RegisterOutcome(s: Session, agentData: map<string, string>): (Session, Completion) {
    var (n1, reply) := Exchange(s.net, RegisterRequest(agentData));
    (s.(net := n1), if Succeeded(reply) then Done else Failed(FailureMessage(reply, "Registration failed")))
  }

  // ---------------------------------------------------------------------------
  // Properties

  /** Without a saved token the mount effect only clears the loading flag: no
      request, no agent, no token. */
  lemma MountWithoutSavedToken(n: Net)
    requires !Truthy(GetItem(n.storage, TokenSlot))
    ensures Mounted(Initial(n)) == Session(None, None, false, n)
  {
  }

  /** With a saved token, the token slot holds it before the profile fetch,
      which is the first request and carries it; a successful profile fetch
      leaves that token in place next to the first listed agent. */
  lemma MountWithSavedToken(n: Net)
    requires Truthy(GetItem(n.storage, TokenSlot))
    ensures var r := Mounted(Initial(n));
      && Mounted(Initial(n)) == Fetched(Initial(n).(token := Some(n.storage[TokenSlot])), Some(n.storage[TokenSlot]))
      && r.net.sent[|n.sent|].headers["Authorization"] == "Bearer " + n.storage[TokenSlot]
      && !r.isLoading
      && (Succeeded(Upcoming(n, 0)) && Upcoming(n, 0).data.userinfo.Some? ==>
            r.token == Some(n.storage[TokenSlot]) && r.agent == FirstAgent(Upcoming(n, 0).data.userinfo.value))
  {
  }

  /** The three branches of `fetchAgentInfo`. */
  lemma FetchAgentInfoCases(s: Session, t: Option<string>)
    ensures var reply := Upcoming(s.net, 0);
      var s1 := s.(net := Exchange(s.net, AgentRequest(t)).0);
      var r := Fetched(s, t);
      && (Succeeded(reply) && reply.data.userinfo.Some? ==>
            r == s1.(agent := FirstAgent(reply.data.userinfo.value), isLoading := false))
      && (reply.Answer? && reply.status == 401 ==> r == Refreshed(s1).(isLoading := false))
      && (!Succeeded(reply) && !(reply.Answer? && reply.status == 401) ==> r == LoggedOut(s1).(isLoading := false))
      && (Succeeded(reply) && reply.data.userinfo.None? ==> r == LoggedOut(s1).(isLoading := false))
  {
  }

  /** A rejected login throws "Login failed" (or the transport error) and
      leaves token, agent, loading flag and storage as they were. */
  lemma LoginFailureChangesNothing(s: Session, email: string, password: string)
    requires !Succeeded(Upcoming(s.net, 0))
    ensures var (r, out) := LoginOutcome(s, email, password);
      && out == Failed(if Upcoming(s.net, 0).Answer? then "Login failed" else Upcoming(s.net, 0).reason)
      && r.token == s.token && r.agent == s.agent && r.isLoading == s.isLoading
      && r.net.storage == s.net.storage && r.net.location == s.net.location
  {
  }

  /** A successful login stores `acesstoken` in both places before the profile
      fetch, which then carries it; the login resolves whatever that fetch
      does. */
  lemma LoginSuccessAdoptsToken(s: Session, email: string, password: string)
    requires Succeeded(Upcoming(s.net, 0))
    ensures var t := Upcoming(s.net, 0).data.acesstoken;
      var (r, out) := LoginOutcome(s, email, password);
      && out == Done
      && r == Fetched(Adopt(s.(net := Exchange(s.net, LoginRequest(email, password)).0), t), t)
      && r.net.sent[|s.net.sent| + 1].headers["Authorization"] == "Bearer " + TokenText(t)
      && (Succeeded(Upcoming(s.net, 1)) && Upcoming(s.net, 1).data.userinfo.Some? ==>
            r.token == t && r.net.storage[TokenSlot] == TokenText(t))
  {
    var n1 := Exchange(s.net, LoginRequest(email, password)).0;
    assert Upcoming(n1, 0) == Upcoming(s.net, 1);
  }

  /** `register` never touches the session; it fails with "Registration
      failed" on a non-2xx answer. */
  lemma RegisterLeavesSessionAlone(s: Session, agentData: map<string, string>)
    ensures var (r, out) := RegisterOutcome(s, agentData);
      && r.token == s.token && r.agent == s.agent && r.isLoading == s.isLoading
      && r.net.storage == s.net.storage && r.net.location == s.net.location
      && r.net.sent == s.net.sent + [RegisterRequest(agentData)]
      && (out == Done <==> Succeeded(Upcoming(s.net, 0)))
      && (Upcoming(s.net, 0).Answer? && !Succeeded(Upcoming(s.net, 0)) ==> out == Failed("Registration failed"))
  {
  }

  /** `logout` clears both slots and the stored token; a second call changes
      nothing. */
  lemma LogoutClearsAndIsIdempotent(s: Session)
    ensures LoggedOut(s).agent.None? && LoggedOut(s).token.None?
    ensures TokenSlot !in LoggedOut(s).net.storage
    ensures LoggedOut(s).net.storage == s.net.storage - {TokenSlot}
    ensures LoggedOut(LoggedOut(s)) == LoggedOut(s)
  {
  }

  /** A failed refresh logs out; a successful one adopts the new token and then
      fetches the profile with it. */
  lemma RefreshTokenCases(s: Session)
    ensures var reply := Upcoming(s.net, 0);
      var n1 := Exchange(s.net, RefreshTokenRequest).0;
      var r := Refreshed(s);
      && (!Succeeded(reply) ==> r == LoggedOut(s.(net := n1)))
      && (Succeeded(reply) ==>
            r == Fetched(Adopt(s.(net := n1), reply.data.acesstoken), reply.data.acesstoken)
            && r.net.sent[|s.net.sent| + 1] == AgentRequest(reply.data.acesstoken))
  {
    if Succeeded(Upcoming(s.net, 0)) {
      var n1 := Exchange(s.net, RefreshTokenRequest).0;
      assert |n1.sent| == |s.net.sent| + 1;
    }
  }

  /** `refreshAgent` is a no-op without a token and keeps the agent when the
      fetch fails. */
  lemma RefreshAgentGuards(s: Session)
    ensures !Truthy(s.token) ==> AgentRefreshed(s) == s
    ensures Truthy(s.token) && !Succeeded(Upcoming(s.net, 0)) ==> AgentRefreshed(s).agent == s.agent
    ensures AgentRefreshed(s).token == s.token && AgentRefreshed(s).net.storage == s.net.storage
    ensures AgentRefreshed(s).isLoading == s.isLoading
  {
  }

  /** The token slot never disagrees with the stored token: when the slot
      holds a value, `localStorage["token"]` holds the same value. */
  predicate Consistent(s: Session) {
    s.token.Some? ==> GetItem(s.net.storage, TokenSlot) == s.token
  }

  lemma {:induction false} FetchedKeepsConsistent(s: Session, t: Option<string>)
    requires Consistent(s)
    ensures Consistent(Fetched(s, t))
    decreases |s.net.replies|
  {
    var (n1, reply) := Exchange(s.net, AgentRequest(t));
    if !Succeeded(reply) && reply.Answer? && reply.status == 401 {
      RefreshedKeepsConsistent(s.(net := n1));
    }
  }

  lemma {:induction false} RefreshedKeepsConsistent(s: Session)
    requires Consistent(s)
    ensures Consistent(Refreshed(s))
    decreases |s.net.replies|
  {
    var (n1, reply) := Exchange(s.net, RefreshTokenRequest);
    if Succeeded(reply) {
      var t := reply.data.acesstoken;
      assert Consistent(Adopt(s.(net := n1), t));
      FetchedKeepsConsistent(Adopt(s.(net := n1), t), t);
    }
  }

  /** Every operation of the provider keeps the two token copies agreeing. */
  lemma OperationsKeepConsistent(s: Session, email: string, password: string, agentData: map<string, string>)
    requires Consistent(s)
    ensures Consistent(Mounted(s)) && Consistent(AgentRefreshed(s)) && Consistent(LoggedOut(s))
    ensures Consistent(LoginOutcome(s, email, password).0) && Consistent(RegisterOutcome(s, agentData).0)
    ensures Consistent(Refreshed(s))
  {
    var saved := GetItem(s.net.storage, TokenSlot);
    if Truthy(saved) {
      FetchedKeepsConsistent(s.(token := saved), saved);
    }
    RefreshedKeepsConsistent(s);
    var (n1, reply) := Exchange(s.net, LoginRequest(email, password));
    if Succeeded(reply) {
      var t := reply.data.acesstoken;
      FetchedKeepsConsistent(Adopt(s.(net := n1), t), t);
    }
  }

  /** The script of a server that keeps rejecting the profile with 401 and
      keeps granting a refresh, `k` times, then answers `last`. */
  function Rounds(k: nat, granted: Payload, last: Reply): seq<Reply> {
    if k == 0 then [last]
    else [Answer(401, Payload(None, None, None)), Answer(200, granted)] + Rounds(k - 1, granted, last)
  }

  /** The source puts no bound on the profile/refresh cycle: against such a
      server, one profile fetch sends `2k + 1` requests before the final answer
      `last` settles it (here a non-401 error, which logs out). */
  lemma {:induction false} RefreshCycleIsUnbounded(s: Session, t: Option<string>, k: nat, granted: Payload, status: int)
    requires status != 401 && !IsOk(status)
    requires s.net.replies == Rounds(k, granted, Answer(status, Payload(None, None, None)))
    ensures var r := Fetched(s, t);
      && |r.net.sent| == |s.net.sent| + 2 * k + 1
      && r.agent.None? && r.token.None? && TokenSlot !in r.net.storage
    decreases k
  {
    if k > 0 {
      var n1 := Exchange(s.net, AgentRequest(t)).0;
      var n2 := Exchange(n1, RefreshTokenRequest).0;
      assert n2.replies == Rounds(k - 1, granted, Answer(status, Payload(None, None, None)));
      var s3 := Adopt(s.(net := n2), granted.acesstoken);
      RefreshCycleIsUnbounded(s3, granted.acesstoken, k - 1, granted, status);
    }
  }

  // ---------------------------------------------------------------------------
  // The provider over mutable state

  class AgentSession {
    const browser: Browser
    var agent: Option<Agent>
    var token: Option<string>
    var isLoading: bool

    function State(): Session
      reads this, browser
    {
      Session(agent, token, isLoading, browser.State())
    }

    constructor (browser: Browser)
      ensures this.browser == browser
      ensures State() == Initial(browser.State())
    {
      this.browser := browser;
      agent, token, isLoading := None, None, true;
    }

    method Mount()
      modifies this, browser
      ensures State() == Mounted(old(State()))
    {
      var saved := GetItem(browser.storage, TokenSlot);
      if Truthy(saved) {
        token := saved;
        FetchAgentInfo(saved);
      } else {
        isLoading := false;
      }
    }

    method FetchAgentInfo(authToken: Option<string>)
      modifies this, browser
      decreases |browser.replies|
      ensures State() == Fetched(old(State()), authToken)
    {
      var reply := browser.Fetch(AgentRequest(authToken));
      if Succeeded(reply) {
        if reply.data.userinfo.Some? {
          agent := FirstAgent(reply.data.userinfo.value);
        } else {
          Logout();
        }
      } else if reply.Answer? && reply.status == 401 {
        RefreshToken();
      } else {
        Logout();
      }
      isLoading := false;
    }

    method RefreshToken()
      modifies this, browser
      decreases |browser.replies|
      ensures State() == Refreshed(old(State()))
    {
      var reply := browser.Fetch(RefreshTokenRequest);
      if Succeeded(reply) {
        token := reply.data.acesstoken;
        browser.SetItem(TokenSlot, TokenText(reply.data.acesstoken));
        FetchAgentInfo(reply.data.acesstoken);
      } else {
        Logout();
      }
    }

    method RefreshAgent()
      modifies this, browser
      ensures State() == AgentRefreshed(old(State()))
    {
      if !Truthy(token) {
        return;
      }
      var reply := browser.Fetch(AgentRequest(token));
      if Succeeded(reply) && reply.data.userinfo.Some? {
        agent := FirstAgent(reply.data.userinfo.value);
      }
    }

    method Login(email: string, password: string) returns (out: Completion)
      modifies this, browser
      ensures (State(), out) == LoginOutcome(old(State()), email, password)
    {
      var reply := browser.Fetch(LoginRequest(email, password));
      if !Succeeded(reply) {
        return Failed(FailureMessage(reply, "Login failed"));
      }
      token := reply.data.acesstoken;
      browser.SetItem(TokenSlot, TokenText(reply.data.acesstoken));
      FetchAgentInfo(reply.data.acesstoken);
      out := Done;
    }

    method Register(agentData: map<string, string>) returns (out: Completion)
      modifies browser
      ensures (State(), out) == RegisterOutcome(old(State()), agentData)
    {
      var reply := browser.Fetch(RegisterRequest(agentData));
      out := if Succeeded(reply) then Done else Failed(FailureMessage(reply, "Registration failed"));
    }

    method Logout()
      modifies this, browser
      ensures State() == LoggedOut(old(State()))
    {
      agent := None;
      token := None;
      browser.RemoveItem(TokenSlot);
    }
  }
}
