/** The agent sign-up page (app/agent-register/page.tsx) over the agents'
    session manager. */
module AgentRegister {
  import opened Common
  import opened Http
  import opened Forms
  import opened AgentAuth

  const DashboardPage: string := "/dashboard"

  datatype Page = Page(form: map<string, string>, isSubmitting: bool, session: Session)

  /** `handleSubmit`: the page afterwards and the toast's description
      (app/agent-register/page.tsx:35-66). A thrown error shows its own
      message; `register` only throws errors, so the fallback text is never
      reached. */
  function Submitted(p: Page): (Page, string) {
    if !PasswordsMatch(p.form) then (p, "Passwords do not match")
    else
      var (s1, out) := RegisterOutcome(p.session, StripConfirm(p.form));
      match out
      case Done => (p.(session := s1.(net := s1.net.(location := DashboardPage)), isSubmitting := false),
                    "Agent account created successfully!")
      case Failed(message) => (p.(session := s1, isSubmitting := false), message)
  }

  /** A mismatched confirmation stops before `register`: nothing is sent and
      `isSubmitting` keeps its value. */
  lemma MismatchStopsEarly(p: Page)
    requires !PasswordsMatch(p.form)
    ensures Submitted(p) == (p, "Passwords do not match")
  {
  }

  /** Past the guard: the one request carries the form without the
      confirmation; success goes to the dashboard, failure shows the error's
      message ("Registration failed" for a non-2xx answer); `isSubmitting`
      ends false either way and the session slots are untouched. */
  lemma SubmitPastTheGuard(p: Page)
    requires PasswordsMatch(p.form)
    ensures var (r, notice) := Submitted(p);
      && r.session.net.sent == p.session.net.sent + [RegisterRequest(StripConfirm(p.form))]
      && ConfirmField !in StripConfirm(p.form)
      && !r.isSubmitting && r.form == p.form
      && r.session.token == p.session.token && r.session.agent == p.session.agent
      && (Succeeded(Upcoming(p.session.net, 0)) ==> r.session.net.location == DashboardPage)
      && (Upcoming(p.session.net, 0).Answer? && !Succeeded(Upcoming(p.session.net, 0)) ==>
            notice == "Registration failed" && r.session.net.location == p.session.net.location)
  {
    RegisterLeavesSessionAlone(p.session, StripConfirm(p.form));
  }

  class AgentRegisterPage {
    const session: AgentSession
    var form: map<string, string>
    var isSubmitting: bool

    function State(): Page
      reads this, session, session.browser
    {
      Page(form, isSubmitting, session.State())
    }

    constructor (session: AgentSession)
      ensures this.session == session && form == BlankSignup && !isSubmitting
    {
      this.session := session;
      form, isSubmitting := BlankSignup, false;
    }

    method HandleChange(name: string, value: string)
      modifies this
      ensures form == UpdateField(old(form), name, value) && isSubmitting == old(isSubmitting)
    {
      form := UpdateField(form, name, value);
    }

    method HandleSubmit() returns (notice: string)
      modifies this, session.browser
      ensures (State(), notice) == Submitted(old(State()))
    {
      if !PasswordsMatch(form) {
        return "Passwords do not match";
      }
      isSubmitting := true;
      var out := session.Register(StripConfirm(form));
      if out.Done? {
        notice := "Agent account created successfully!";
        session.browser.Navigate(DashboardPage);
      } else {
        notice := out.message;
      }
      isSubmitting := false;
    }
  }
}
