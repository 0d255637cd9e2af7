/** The agent dashboard (app/agent-dashboard/page.tsx): the login redirect,
    logout, and seller verification through the Paystack checkout. The
    checkout's pop-up is outside the model: its two callbacks are methods the
    environment calls, and the verification request goes through the
    browser like every other request. */
module AgentDashboard {
  import opened Common
  import opened Http
  import opened AgentAuth

  const AgentLoginPage: string := "/agent-login"
  const PaystackKey: string := "pk_test_fad2b13af8eb1e2190fec2c5b24bae5536321864"
  /** 50 Naira, in kobo. */
  const Amount: nat := 5000

  /** What the page hands to `PaystackPop.setup`. */
  datatype Setup = Setup(key: string, email: string, amount: nat, currency: string)

  datatype Page = Page(isPaying: bool, paystackLoaded: bool, session: Session)

  /** The redirect effect: only once loading is over and without a token. */
  predicate SendsToLogin(s: Session) {
    !s.isLoading && !Truthy(s.token)
  }

  function VerifyRequest(reference: string, token: Option<string>): Request {
    Request("GET", AgentBase + "/verify/" + reference, map["Authorization" := "Bearer " + NullText(token)], NoBody)
  }

  /** `data.message?.toLowerCase().includes("successful")`. */
  predicate ReportsSuccess(message: Option<string>) {
    message.Some? && Contains(ToLower(message.value), "successful")
  }

  /** `handleLogout`: the session signs out and the browser goes to the
      agent login page. */
  function LoggedOutPage(p: Page): (r: Page)
    ensures r.session.token == None && r.session.agent == None
    ensures TokenSlot !in r.session.net.storage && r.session.net.location == AgentLoginPage
    ensures r.session.net.sent == p.session.net.sent && r.isPaying == p.isPaying
  {
    var s := LoggedOut(p.session);
    p.(session := s.(net := s.net.(location := AgentLoginPage)))
  }

  /** `handlePaystackPayment` up to `openIframe` (app/agent-dashboard/page.tsx:42-96):
      without the script or the pop-up object nothing opens and `isPaying`
      keeps its value. */
  function PaymentStarted(p: Page, popupAvailable: bool, email: string): (r: (Page, Option<Setup>, Option<Toast>))
    ensures r.1.Some? <==> p.paystackLoaded && popupAvailable
    ensures r.1.Some? ==> r.0 == p.(isPaying := true) && r.2 == None
                          && r.1.value == Setup(PaystackKey, email, Amount, "NGN")
    ensures r.1.None? ==> r.0 == p && r.2 == Some(Toast("Error", "Paystack not loaded"))
  {
    if !p.paystackLoaded || !popupAvailable then (p, None, Some(Toast("Error", "Paystack not loaded")))
    else (p.(isPaying := true), Some(Setup(PaystackKey, email, Amount, "NGN")), None)
  }

  /** The checkout's `callback`: one verification request; a reply whose
      message mentions "successful" in any letter case reloads the agent.
      The response status is never looked at. `isPaying` ends false. */
  function Verified(p: Page, reference: string): (Page, Toast) {
    var (n1, reply) := Exchange(p.session.net, VerifyRequest(reference, p.session.token));
    var s1 := p.session.(net := n1);
    if reply.NoAnswer? then
      (p.(session := s1, isPaying := false), Toast("Error", "Something went wrong verifying your payment"))
    else if ReportsSuccess(reply.data.message) then
      (p.(session := AgentRefreshed(s1), isPaying := false), Toast("Payment Successful", "Your seller account is now verified!"))
    else
      (p.(session := s1, isPaying := false),
       Toast("Payment Failed", if Truthy(reply.data.message) then reply.data.message.value else "Please try again"))
  }

  /** The agent is reloaded exactly when an answer arrives whose message
      mentions success; otherwise only the verification request was sent. */
  lemma VerifyCases(p: Page, reference: string)
    ensures var reply := Upcoming(p.session.net, 0);
      var (r, toast) := Verified(p, reference);
      var n1 := Exchange(p.session.net, VerifyRequest(reference, p.session.token)).0;
      && !r.isPaying
      && (toast.title == "Payment Successful" <==> reply.Answer? && ReportsSuccess(reply.data.message))
      && (toast.title == "Payment Successful" ==> r.session == AgentRefreshed(p.session.(net := n1)))
      && (toast.title != "Payment Successful" ==> r.session == p.session.(net := n1))
      && r.session.net.sent[..|p.session.net.sent| + 1] == p.session.net.sent + [VerifyRequest(reference, p.session.token)]
  {
    var n1 := Exchange(p.session.net, VerifyRequest(reference, p.session.token)).0;
    var r := Verified(p, reference).0;
    if r.session != p.session.(net := n1) {
      var s1 := p.session.(net := n1);
      assert r.session == AgentRefreshed(s1);
      assert r.session.net.sent[..|s1.net.sent|] == s1.net.sent;
    }
  }

  /** Any spelling of "successful", in any letter case and anywhere in the
      message, makes the check pass. */
  lemma MentionCounts(before: string, word: string, after: string)
    requires ToLower(word) == "successful"
    ensures ReportsSuccess(Some(before + word + after))
  {
    var m := ToLower(before + word + after);
    forall i | 0 <= i < |word|
      ensures m[|before| + i] == ToLower(word)[i]
    {
      assert (before + word + after)[|before| + i] == word[i];
    }
    assert m[|before|..|before| + |word|] == ToLower(word);
    ContainsAt(m, "successful", |before|);
  }

  /** Because the check is a substring test, a server message saying the
      payment was "unsuccessful" also counts as success. */
  lemma UnsuccessfulCountsAsSuccess()
    ensures ReportsSuccess(Some("Payment unsuccessful"))
  {
    var w := "successful";
    assert forall i :: 0 <= i < |w| ==> !IsUpper(w[i]);
    assert ToLower(w) == w;
    MentionCounts("Payment un", w, "");
    assert "Payment un" + w + "" == "Payment unsuccessful";
  }

  /** A message without the word, in any letter case, does not count; in
      particular a message with no letter "s" at all never does. */
  lemma FailureMessageDoesNotCount(m: string)
    ensures !Contains(ToLower(m), "successful") ==> !ReportsSuccess(Some(m))
    ensures (forall i :: 0 <= i < |m| ==> m[i] != 's' && m[i] != 'S') ==> !ReportsSuccess(Some(m))
    ensures !ReportsSuccess(Some("Payment failed")) && !ReportsSuccess(None)
  {
    var l := ToLower(m);
    if forall i :: 0 <= i < |m| ==> m[i] != 's' && m[i] != 'S' {
      assert forall i :: 0 <= i < |l| ==> l[i] != 's';
      assert forall i :: 0 <= i <= |l| && OccursAt(l, "successful", i) ==> l[i] == 's';
    }
    var f := ToLower("Payment failed");
    assert forall i :: 0 <= i <= 4 ==> f[i] != 's';
    assert forall i :: 0 <= i <= |f| && OccursAt(f, "successful", i) ==> f[i] == 's';
  }

  /** A failed verification shows the server's message when there is one. */
  lemma FailureShowsServerMessage(p: Page, reference: string)
    requires Upcoming(p.session.net, 0).Answer?
    requires var m := Upcoming(p.session.net, 0).data.message; Truthy(m) && !ReportsSuccess(m)
    ensures Verified(p, reference).1 == Toast("Payment Failed", Upcoming(p.session.net, 0).data.message.value)
  {
  }

  /** What the verification card offers: the product link for a verified
      seller, otherwise the pay button and its label. */
  datatype Offer = AddProductLink | PayButton(caption: string, disabled: bool)

  function OfferFor(a: Agent, isPaying: bool): (r: Offer)
    ensures r.AddProductLink? <==> a.hasPaid
    ensures r.PayButton? ==> r.disabled == isPaying
                             && (r.caption == "Processing Payment..." <==> isPaying)
  {
    if a.hasPaid then AddProductLink
    else PayButton(if isPaying then "Processing Payment..." else "Pay Now to Verify", isPaying)
  }

  class AgentDashboardPage {
    const session: AgentSession
    var isPaying: bool
    var paystackLoaded: bool

    function State(): Page
      reads this, session, session.browser
    {
      Page(isPaying, paystackLoaded, session.State())
    }

    constructor (session: AgentSession)
      ensures this.session == session && !isPaying && !paystackLoaded
    {
      this.session := session;
      isPaying, paystackLoaded := false, false;
    }

    /** The script tag's `onload`. */
    method ScriptLoaded()
      modifies this
      ensures paystackLoaded && isPaying == old(isPaying)
    {
      paystackLoaded := true;
    }

    method CheckAccess()
      modifies session.browser
      ensures SendsToLogin(session.State()) ==> session.browser.State() == old(session.browser.State()).(location := AgentLoginPage)
      ensures !SendsToLogin(session.State()) ==> session.browser.State() == old(session.browser.State())
    {
      if !session.isLoading && !Truthy(session.token) {
        session.browser.Navigate(AgentLoginPage);
      }
    }

    method HandleLogout() returns (toast: Toast)
      modifies session, session.browser
      ensures State() == LoggedOutPage(old(State()))
      ensures toast == Toast("Logged out", "You have been logged out successfully")
    {
      session.Logout();
      toast := Toast("Logged out", "You have been logged out successfully");
      session.browser.Navigate(AgentLoginPage);
    }

    /** `popupAvailable` is whether `window.PaystackPop` exists. The button is
        only rendered for a loaded agent. */
    method HandlePaystackPayment(popupAvailable: bool) returns (setup: Option<Setup>, toast: Option<Toast>)
      requires session.agent.Some?
      modifies this
      ensures (State(), setup, toast) == PaymentStarted(old(State()), popupAvailable, session.agent.value.email)
    {
      if !paystackLoaded || !popupAvailable {
        return None, Some(Toast("Error", "Paystack not loaded"));
      }
      isPaying := true;
      setup := Some(Setup(PaystackKey, session.agent.value.email, Amount, "NGN"));
      toast := None;
    }

    /** The checkout's `callback` with the payment reference. */
    method OnVerify(reference: string) returns (toast: Toast)
      modifies this, session, session.browser
      ensures (State(), toast) == Verified(old(State()), reference)
    {
      var reply := session.browser.Fetch(VerifyRequest(reference, session.token));
      if reply.NoAnswer? {
        toast := Toast("Error", "Something went wrong verifying your payment");
      } else if ReportsSuccess(reply.data.message) {
        toast := Toast("Payment Successful", "Your seller account is now verified!");
        session.RefreshAgent();
      } else {
        toast := Toast("Payment Failed", if Truthy(reply.data.message) then reply.data.message.value else "Please try again");
      }
      isPaying := false;
    }

    /** The checkout's `onClose`. */
    method OnClose() returns (toast: Toast)
      modifies this
      ensures !isPaying && paystackLoaded == old(paystackLoaded)
      ensures toast == Toast("Payment Cancelled", "You did not complete the payment.")
    {
      toast := Toast("Payment Cancelled", "You did not complete the payment.");
      isPaying := false;
    }
  }
}
