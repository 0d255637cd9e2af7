/** The form that stores a new password in the vault
    (app/passwords/add/page.tsx). Both of its calls go through the shared
    axios instance, so both pass through its interceptors. */
module AddPassword {
  import opened Common
  import opened Http
  import opened Axios
  import VaultAuth

  const PasswordsPage: string := "/passwords"
  const SaveUrl: string := "/addnewpassword"

  /** `axiosInstance.post("/refresh", {})`. */
  const TokenCfg: Cfg := NewCfg("POST", "/refresh", map[], Fields(map[]))

  function SaveCfg(token: string, appName: string, username: string, password: string): Cfg {
    NewCfg("POST", SaveUrl, map["Authorization" := "Bearer " + token],
           Fields(map["appName" := appName, "username" := username, "password" := password]))
  }

  /** `getAccessToken`: the browser afterwards and the token, `None` when the
      call rejects or the body has no `acesstoken`. */
  function TokenFetched(n: Net): (r: (Net, Option<string>))
    ensures r.0 == Dispatch(n, TokenCfg).0
    ensures Dispatch(n, TokenCfg).2.Rejected? ==> r.1 == None
    ensures Dispatch(n, TokenCfg).2.Resolved? ==> r.1 == Dispatch(n, TokenCfg).2.response.data.acesstoken
  {
    var (n1, _, out) := Dispatch(n, TokenCfg);
    (n1, if out.Resolved? then out.response.data.acesstoken else None)
  }

  datatype Page = Page(appName: string, username: string, password: string, loading: bool, net: Net)

  /** `handleSubmit` (app/passwords/add/page.tsx:40-89); the redirect's
      one-second delay is not modelled. */
  function Submitted(p: Page): (Page, Toast) {
    var (n1, token) := TokenFetched(p.net);
    if !Truthy(token) then
      (p.(net := n1, loading := false), Toast("Authentication error", "Could not get access token. Please login again."))
    else
      var (n2, _, out) := Dispatch(n1, SaveCfg(token.value, p.appName, p.username, p.password));
      if out.Resolved? then
        (Page("", "", "", false, n2.(location := PasswordsPage)), Toast("Success!", "Password saved securely to your vault"))
      else
        (p.(net := n2, loading := false), Toast("Error", VaultAuth.MessageOr(out.error, "Failed to save password")))
  }

  /** Without a token nothing is saved: the only requests are those of the
      token call, and the typed fields stay. */
  lemma NoTokenNoSave(p: Page)
    requires !Truthy(TokenFetched(p.net).1)
    ensures var (r, toast) := Submitted(p);
      && r.net == Dispatch(p.net, TokenCfg).0
      && r.appName == p.appName && r.username == p.username && r.password == p.password
      && !r.loading && toast.title == "Authentication error"
  {
  }

  /** With a token, the save request is the first request after the token
      call; its body is the three fields and its bearer header is the fresh
      token, unless the store holds a token of its own, which the request
      interceptor puts there instead. */
  lemma SaveCarriesFieldsAndToken(p: Page)
    requires Truthy(TokenFetched(p.net).1)
    ensures var (n1, token) := TokenFetched(p.net);
      var (r, _) := Submitted(p);
      var save := r.net.sent[|n1.sent|];
      var stored := GetItem(n1.storage, TokenKey);
      && |n1.sent| < |r.net.sent|
      && save.url == InstanceBase + SaveUrl && save.verb == "POST"
      && save.body == Fields(map["appName" := p.appName, "username" := p.username, "password" := p.password])
      && "Authorization" in save.headers
      && save.headers["Authorization"] == "Bearer " + (if Truthy(stored) then stored.value else token.value)
  {
    var (n1, token) := TokenFetched(p.net);
    var c := SaveCfg(token.value, p.appName, p.username, p.password);
    var n2 := Dispatch(n1, c).0;
    assert Submitted(p).0.net.sent == n2.sent;
  }

  /** A saved password clears all three fields and opens the list; a failed
      save keeps them and shows the server's message or the fallback;
      `loading` ends false on every path. */
  lemma SaveCases(p: Page)
    requires Truthy(TokenFetched(p.net).1)
    ensures var (n1, token) := TokenFetched(p.net);
      var (_, _, out) := Dispatch(n1, SaveCfg(token.value, p.appName, p.username, p.password));
      var (r, toast) := Submitted(p);
      && !r.loading
      && (out.Resolved? ==> r.appName == "" && r.username == "" && r.password == "" && r.net.location == PasswordsPage)
      && (out.Rejected? ==> r.appName == p.appName && r.username == p.username && r.password == p.password
                            && toast == Toast("Error", VaultAuth.MessageOr(out.error, "Failed to save password")))
  {
  }

  /** Loading is false after any submission. */
  lemma LoadingAlwaysEnds(p: Page)
    ensures !Submitted(p).0.loading
  {
  }

  class AddPasswordPage {
    const api: Instance
    var appName: string
    var username: string
    var password: string
    var loading: bool

    function State(): Page
      reads this, api, api.browser
    {
      Page(appName, username, password, loading, api.browser.State())
    }

    constructor (api: Instance)
      ensures this.api == api && appName == "" && username == "" && password == "" && !loading
    {
      this.api := api;
      appName, username, password, loading := "", "", "", false;
    }

    method GetAccessToken() returns (token: Option<string>)
      modifies api.browser
      ensures (api.browser.State(), token) == TokenFetched(old(api.browser.State()))
    {
      var cfg := new Config(TokenCfg);
      var out := api.Send(cfg);
      token := if out.Resolved? then out.response.data.acesstoken else None;
    }

    method HandleSubmit() returns (toast: Toast)
      modifies this, api.browser
      ensures (State(), toast) == Submitted(old(State()))
    {
      loading := true;
      var token := GetAccessToken();
      if !Truthy(token) {
        toast := Toast("Authentication error", "Could not get access token. Please login again.");
        loading := false;
        return;
      }
      var cfg := new Config(SaveCfg(token.value, appName, username, password));
      var out := api.Send(cfg);
      if out.Resolved? {
        toast := Toast("Success!", "Password saved securely to your vault");
        appName, username, password := "", "", "";
        api.browser.Navigate(PasswordsPage);
      } else {
        toast := Toast("Error", VaultAuth.MessageOr(out.error, "Failed to save password"));
      }
      loading := false;
    }
  }
}
