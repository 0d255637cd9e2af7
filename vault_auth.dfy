/** The password vault's session manager (contexts/AuthContext.tsx): a user
    slot and a loading flag over `localStorage["accessToken"]`. Every call goes
    through the shared axios instance, so its interceptors (token attach,
    refresh on 401) apply to login, registration and the profile check too. */
module VaultAuth {
  import opened Common
  import opened Http
  import opened Axios

  const DashboardPath: string := "/dashboard"

  /** `user`, `loading` and the browser. The user record is the body of the
      `/dashboard` response, kept as received. */
  datatype Session = Session(user: Option<Payload>, loading: bool, net: Net)

  function Initial(n: Net): Session {
    Session(None, true, n)
  }

  /** `isAuthenticated: !!user`. */
  predicate IsAuthenticated(s: Session) {
    s.user.Some?
  }

  const DashboardCfg: Cfg := NewCfg("GET", "/dashboard", map[], NoBody)

  function LoginCfg(email: string, password: string): Cfg {
    NewCfg("POST", "/login", map[], Fields(map["email" := email, "password" := password]))
  }

  function RegisterCfg(username: string, email: string, password: string): Cfg {
    NewCfg("POST", "/register", map[], Fields(map["username" := username, "email" := email, "password" := password]))
  }

  /** `error.response?.data?.message || fallback`. */
  function MessageOr(e: AxiosError, fallback: string): (m: string)
    ensures Truthy(ServerMessage(e)) ==> m == ServerMessage(e).value
    ensures !Truthy(ServerMessage(e)) ==> m == fallback
  {
    var m := ServerMessage(e);
    if Truthy(m) then m.value else fallback
  }

  /** `checkAuth` (contexts/AuthContext.tsx:32-45). */
  function Checked(s: Session): Session {
    if Truthy(GetItem(s.net.storage, TokenKey)) then
      var (n1, _, out) := Dispatch(s.net, DashboardCfg);
      if out.Resolved? then Session(Some(out.response.data), false, n1)
      else Session(s.user, false, n1.(storage := n1.storage - {TokenKey}))
    else
      s.(loading := false)
  }

  /** `login` (contexts/AuthContext.tsx:50-65). The token is written after the
      login call resolves and before the profile call; the user is set and
      the router moves on only when both resolve. */
  function LoginOutcome(s: Session, email: string, password: string): (Session, Completion) {
    var (n1, _, out1) := Dispatch(s.net, LoginCfg(email, password));
    if out1.Rejected? then
      (s.(net := n1), Failed(MessageOr(out1.error, "Login failed")))
    else
      var n2 := n1.(storage := n1.storage[TokenKey := TokenText(out1.response.data.acesstoken)]);
      var (n3, _, out2) := Dispatch(n2, DashboardCfg);
      if out2.Rejected? then
        (s.(net := n3), Failed(MessageOr(out2.error, "Login failed")))
      else
        (s.(user := Some(out2.response.data), net := n3.(location := DashboardPath)), Done)
  }

  /** `register` (contexts/AuthContext.tsx:67-74). */
  function RegisterOutcome(s: Session, username: string, email: string, password: string): (Session, Completion) {
    var (n1, _, out) := Dispatch(s.net, RegisterCfg(username, email, password));
    (s.(net := n1), if out.Resolved? then Done else Failed(MessageOr(out.error, "Registration failed")))
  }

  /** `logout` (contexts/AuthContext.tsx:76-80). */
  function LoggedOut(s: Session): Session {
    s.(user := None, net := s.net.(storage := s.net.storage - {TokenKey}, location := LoginPath))
  }

  // ---------------------------------------------------------------------------
  // Properties

  /** The first reply is a 401, the refresh is granted and the resent call
      resolves. */
  predicate RefreshedAndResolved(n: Net) {
    Upcoming(n, 0).Answer? && Upcoming(n, 0).status == 401 && Succeeded(Upcoming(n, 1)) && Succeeded(Upcoming(n, 2))
  }

  /** `loading` ends false in every case. Without a token nothing is sent and
      the user stays as it was; with one, a resolved profile call becomes the
      user, and a rejected one removes the token. */
  lemma CheckAuthCases(s: Session)
    ensures !Checked(s).loading
    ensures !Truthy(GetItem(s.net.storage, TokenKey)) ==> Checked(s) == s.(loading := false)
    ensures Truthy(GetItem(s.net.storage, TokenKey)) && Succeeded(Upcoming(s.net, 0)) ==>
              Checked(s).user == Some(Upcoming(s.net, 0).data) && IsAuthenticated(Checked(s))
              && Checked(s).net.storage == s.net.storage
    ensures Truthy(GetItem(s.net.storage, TokenKey)) && RefreshedAndResolved(s.net) ==>
              Checked(s).user == Some(Upcoming(s.net, 2).data) && IsAuthenticated(Checked(s))
    ensures Truthy(GetItem(s.net.storage, TokenKey)) && !Succeeded(Upcoming(s.net, 0)) && !RefreshedAndResolved(s.net) ==>
              TokenKey !in Checked(s).net.storage && Checked(s).user == s.user
  {
    if Truthy(GetItem(s.net.storage, TokenKey)) {
      if Succeeded(Upcoming(s.net, 0)) {
        SuccessPassesThrough(s.net, DashboardCfg);
      } else if Upcoming(s.net, 0).Answer? && Upcoming(s.net, 0).status == 401 {
        if Succeeded(Upcoming(s.net, 1)) {
          RefreshSuccessResendsOnce(s.net, DashboardCfg);
        } else {
          RefreshFailureTearsDown(s.net, DashboardCfg);
        }
      } else {
        OtherErrorsPassThrough(s.net, DashboardCfg);
      }
    }
  }

  /** A login call rejected by anything but a 401 leaves storage, the user
      and the location untouched and reports the server's message or "Login
      failed". (A 401 goes through the refresh path first.) */
  lemma RejectedLoginChangesNothing(s: Session, email: string, password: string)
    requires !Succeeded(Upcoming(s.net, 0))
    requires !(Upcoming(s.net, 0).Answer? && Upcoming(s.net, 0).status == 401)
    ensures var (r, out) := LoginOutcome(s, email, password);
      && r.net.storage == s.net.storage && r.net.location == s.net.location
      && r.user == s.user && r.loading == s.loading
      && out == Failed(MessageOr(ErrorOf(Upcoming(s.net, 0)), "Login failed"))
  {
    OtherErrorsPassThrough(s.net, LoginCfg(email, password));
  }

  /** A login that resolves but whose profile call fails (other than with a
      401) keeps the token it stored, does not set the user and rejects. */
  lemma ProfileFailureKeepsToken(s: Session, email: string, password: string)
    requires Succeeded(Upcoming(s.net, 0))
    requires !Succeeded(Upcoming(s.net, 1))
    requires !(Upcoming(s.net, 1).Answer? && Upcoming(s.net, 1).status == 401)
    ensures var (r, out) := LoginOutcome(s, email, password);
      && r.net.storage == s.net.storage[TokenKey := TokenText(Upcoming(s.net, 0).data.acesstoken)]
      && r.user == s.user && r.net.location == s.net.location
      && out == Failed(MessageOr(ErrorOf(Upcoming(s.net, 1)), "Login failed"))
  {
    var (n1, _, _) := Dispatch(s.net, LoginCfg(email, password));
    SuccessPassesThrough(s.net, LoginCfg(email, password));
    assert Upcoming(n1, 0) == Upcoming(s.net, 1);
    var n2 := n1.(storage := n1.storage[TokenKey := TokenText(Upcoming(s.net, 0).data.acesstoken)]);
    OtherErrorsPassThrough(n2, DashboardCfg);
  }

  /** Both calls resolving: the stored token is the login's `acesstoken`, the
      profile call carries it when it is non-empty, the user is the profile
      and the browser is on the dashboard. */
  lemma LoginSuccess(s: Session, email: string, password: string)
    requires Succeeded(Upcoming(s.net, 0)) && Succeeded(Upcoming(s.net, 1))
    ensures var t := Upcoming(s.net, 0).data.acesstoken;
      var (r, out) := LoginOutcome(s, email, password);
      && out == Done
      && r.net.storage == s.net.storage[TokenKey := TokenText(t)]
      && r.user == Some(Upcoming(s.net, 1).data) && IsAuthenticated(r)
      && r.net.location == DashboardPath
      && r.net.sent == s.net.sent + [Wire(FirstCfg(s.net, LoginCfg(email, password))), r.net.sent[|s.net.sent| + 1]]
      && (Truthy(t) ==> r.net.sent[|s.net.sent| + 1].headers["Authorization"] == "Bearer " + t.value)
  {
    var (n1, _, _) := Dispatch(s.net, LoginCfg(email, password));
    SuccessPassesThrough(s.net, LoginCfg(email, password));
    assert Upcoming(n1, 0) == Upcoming(s.net, 1);
    var n2 := n1.(storage := n1.storage[TokenKey := TokenText(Upcoming(s.net, 0).data.acesstoken)]);
    SuccessPassesThrough(n2, DashboardCfg);
    assert SentBy(n2, DashboardCfg) == [Wire(FirstCfg(n2, DashboardCfg))];
  }

  /** `register` never sets the user. Unless the server answers 401 (which
      sends the instance down its refresh path) storage and location are
      untouched; a rejection reports the server's message or "Registration
      failed". */
  lemma RegisterLeavesSessionAlone(s: Session, username: string, email: string, password: string)
    ensures var (r, out) := RegisterOutcome(s, username, email, password);
      && r.user == s.user && r.loading == s.loading
      && (out == Done <==> (Succeeded(Upcoming(s.net, 0)) || RefreshedAndResolved(s.net)))
      && (!(Upcoming(s.net, 0).Answer? && Upcoming(s.net, 0).status == 401) ==>
            r.net.storage == s.net.storage && r.net.location == s.net.location)
      && (!Succeeded(Upcoming(s.net, 0)) && !(Upcoming(s.net, 0).Answer? && Upcoming(s.net, 0).status == 401) ==>
            out == Failed(MessageOr(ErrorOf(Upcoming(s.net, 0)), "Registration failed")))
  {
    var c := RegisterCfg(username, email, password);
    if Succeeded(Upcoming(s.net, 0)) {
      SuccessPassesThrough(s.net, c);
    } else if Upcoming(s.net, 0).Answer? && Upcoming(s.net, 0).status == 401 {
      if Succeeded(Upcoming(s.net, 1)) {
        RefreshSuccessResendsOnce(s.net, c);
      } else {
        RefreshFailureTearsDown(s.net, c);
      }
    } else {
      OtherErrorsPassThrough(s.net, c);
    }
  }

  /** `logout` removes the token, clears the user and goes to the login page;
      repeating it changes nothing. */
  lemma LogoutSignsOut(s: Session)
    ensures !IsAuthenticated(LoggedOut(s))
    ensures TokenKey !in LoggedOut(s).net.storage && LoggedOut(s).net.location == LoginPath
    ensures LoggedOut(LoggedOut(s)) == LoggedOut(s)
  {
  }

  // ---------------------------------------------------------------------------
  // The provider over mutable state

  class VaultSession {
    const api: Instance
    var user: Option<Payload>
    var loading: bool

    function State(): Session
      reads this, api, api.browser
    {
      Session(user, loading, api.browser.State())
    }

    constructor (api: Instance)
      ensures this.api == api
      ensures State() == Initial(api.browser.State())
    {
      this.api := api;
      user, loading := None, true;
    }

    method CheckAuth()
      modifies this, api.browser
      ensures State() == Checked(old(State()))
    {
      var token := GetItem(api.browser.storage, TokenKey);
      if Truthy(token) {
        var cfg := new Config(DashboardCfg);
        var out := api.Send(cfg);
        if out.Resolved? {
          user := Some(out.response.data);
        } else {
          api.browser.RemoveItem(TokenKey);
        }
      }
      loading := false;
    }

    method Login(email: string, password: string) returns (result: Completion)
      modifies this, api.browser
      ensures (State(), result) == LoginOutcome(old(State()), email, password)
    {
      var cfg := new Config(LoginCfg(email, password));
      var out := api.Send(cfg);
      if out.Rejected? {
        return Failed(MessageOr(out.error, "Login failed"));
      }
      api.browser.SetItem(TokenKey, TokenText(out.response.data.acesstoken));
      var profileCfg := new Config(DashboardCfg);
      var profile := api.Send(profileCfg);
      if profile.Rejected? {
        return Failed(MessageOr(profile.error, "Login failed"));
      }
      user := Some(profile.response.data);
      api.browser.Navigate(DashboardPath);
      result := Done;
    }

    method Register(username: string, email: string, password: string) returns (result: Completion)
      modifies api.browser
      ensures (State(), result) == RegisterOutcome(old(State()), username, email, password)
    {
      var cfg := new Config(RegisterCfg(username, email, password));
      var out := api.Send(cfg);
      result := if out.Resolved? then Done else Failed(MessageOr(out.error, "Registration failed"));
    }

    method Logout()
      modifies this, api.browser
      ensures State() == LoggedOut(old(State()))
    {
      api.browser.RemoveItem(TokenKey);
      user := None;
      api.browser.Navigate(LoginPath);
    }
  }
}
