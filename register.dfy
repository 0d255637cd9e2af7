/** The general sign-up page (app/register/page.tsx). It posts through the
    agents' session manager too, and hides the reason of any failure. */
module Register {
  import opened Common
  import opened Http
  import opened Forms
  import opened AgentAuth

  const DashboardPage: string := "/dashboard"
  const FailureNotice: string := "Failed to create account. Please try again."

  datatype Page = Page(form: map<string, string>, isLoading: bool, session: Session)

  /** `handleSubmit` (app/register/page.tsx:36-67). */
  function Submitted(p: Page): (Page, string) {
    if !PasswordsMatch(p.form) then (p, "Passwords do not match")
    else
      var (s1, out) := RegisterOutcome(p.session, StripConfirm(p.form));
      if out.Done? then
        (p.(session := s1.(net := s1.net.(location := DashboardPage)), isLoading := false), "Account created successfully")
      else
        (p.(session := s1, isLoading := false), FailureNotice)
  }

  lemma MismatchStopsEarly(p: Page)
    requires !PasswordsMatch(p.form)
    ensures Submitted(p) == (p, "Passwords do not match")
  {
  }

  /** Past the guard the payload lacks the confirmation, success goes to the
      dashboard, any failure shows the same fixed text, and `isLoading` ends
      false. */
  lemma SubmitPastTheGuard(p: Page)
    requires PasswordsMatch(p.form)
    ensures var (r, notice) := Submitted(p);
      && r.session.net.sent == p.session.net.sent + [RegisterRequest(StripConfirm(p.form))]
      && !r.isLoading
      && (Succeeded(Upcoming(p.session.net, 0)) <==> notice != FailureNotice)
      && (Succeeded(Upcoming(p.session.net, 0)) ==> r.session.net.location == DashboardPage)
      && (!Succeeded(Upcoming(p.session.net, 0)) ==> r.session.net.location == p.session.net.location)
  {
    RegisterLeavesSessionAlone(p.session, StripConfirm(p.form));
  }

  class RegisterPage {
    const session: AgentSession
    var form: map<string, string>
    var isLoading: bool

    function State(): Page
      reads this, session, session.browser
    {
      Page(form, isLoading, session.State())
    }

    constructor (session: AgentSession)
      ensures this.session == session && form == BlankSignup && !isLoading
    {
      this.session := session;
      form, isLoading := BlankSignup, false;
    }

    method HandleChange(name: string, value: string)
      modifies this
      ensures form == UpdateField(old(form), name, value) && isLoading == old(isLoading)
    {
      form := UpdateField(form, name, value);
    }

    method HandleSubmit() returns (notice: string)
      modifies this, session.browser
      ensures (State(), notice) == Submitted(old(State()))
    {
      if !PasswordsMatch(form) {
        return "Passwords do not match";
      }
      isLoading := true;
      var out := session.Register(StripConfirm(form));
      if out.Done? {
        notice := "Account created successfully";
        session.browser.Navigate(DashboardPage);
      } else {
        notice := FailureNotice;
      }
      isLoading := false;
    }
  }
}
