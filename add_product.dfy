/** The product form of a verified agent (app/add-product/page.tsx): the
    access gate, field and image validation, and the POST to the product
    API. The session is the agents' session manager; only its
    `agent`, `token` and `isLoading` are read here. */
module AddProduct {
  import opened Common
  import opened Http
  import opened Forms
  import AgentAuth
  import Api

  const LoginPage: string := "/login"
  const DashboardPage: string := "/dashboard"
  const AgentDashboardPage: string := "/agent-dashboard"

  /** The field names, with the form's own spelling of `decription`. */
  const ProductFields: set<string> := {"productname", "decription", "producttype"}
  const BlankProduct: map<string, string> := map k | k in ProductFields :: ""

  /** The paths the access effect pushes, in order. Both pushes can happen
      in a single run of the effect. */
  function Redirects(isLoading: bool, token: Option<string>, agent: Option<Agent>): (r: seq<string>)
    ensures isLoading ==> r == []
    ensures (LoginPage in r) <==> !isLoading && !Truthy(token)
    ensures (DashboardPage in r) <==> !isLoading && agent.Some? && !agent.value.hasPaid
    ensures |r| == 2 ==> r == [LoginPage, DashboardPage]
  {
    (if !isLoading && !Truthy(token) then [LoginPage] else [])
    + (if !isLoading && agent.Some? && !agent.value.hasPaid then [DashboardPage] else [])
  }

  /** The location after the pushes: the last path pushed, if any. */
  function Landing(start: string, pushes: seq<string>): string {
    if pushes == [] then start else pushes[|pushes| - 1]
  }

  /** The form is rendered only once loading is over for a paid agent. */
  predicate ShowsForm(isLoading: bool, agent: Option<Agent>) {
    !isLoading && agent.Some? && agent.value.hasPaid
  }

  /** Whenever the form is rendered the effect never sends the agent to the
      dashboard; an agent without a token is still sent to the login page. */
  lemma FormOnlyForPaidAgents(isLoading: bool, token: Option<string>, agent: Option<Agent>)
    ensures ShowsForm(isLoading, agent) ==> DashboardPage !in Redirects(isLoading, token, agent)
    ensures ShowsForm(isLoading, agent) && !Truthy(token) ==> Redirects(isLoading, token, agent) == [LoginPage]
    ensures !isLoading && !Truthy(token) && agent.Some? && !agent.value.hasPaid ==>
              Landing("/add-product", Redirects(isLoading, token, agent)) == DashboardPage
  {
  }

  /** `!formData.productname || !formData.decription || !formData.producttype`
      negated. */
  predicate FieldsFilled(form: map<string, string>) {
    Truthy(GetItem(form, "productname")) && Truthy(GetItem(form, "decription"))
    && Truthy(GetItem(form, "producttype"))
  }

  function ProductRequest(form: map<string, string>, images: seq<ImageData>, token: Option<string>): Request {
    Request("POST", Api.ApiBase + "/addproduct",
            map["Content-Type" := "application/json", "Authorization" := "Bearer " + NullText(token)],
            ProductBody(form, images))
  }

  datatype Page = Page(form: map<string, string>, images: seq<ImageData>, isSubmitting: bool, net: Net)

  /** `handleSubmit` (app/add-product/page.tsx:55-117): the page afterwards
      and the toast's description. */
  function Submitted(p: Page, token: Option<string>): (Page, string) {
    if !FieldsFilled(p.form) then (p, "Please fill in all fields")
    else if |p.images| == 0 then (p, "Please upload at least one image")
    else
      var (n1, reply) := Exchange(p.net, ProductRequest(p.form, p.images, token));
      if Succeeded(reply) then
        (Page(BlankProduct, [], false, n1.(location := AgentDashboardPage)), "Product added to marketplace")
      else
        (p.(isSubmitting := false, net := n1), "Failed to add product. Please try again.")
  }

  /** Validation checks the fields before the images and sends nothing when
      either fails. */
  lemma ValidationSendsNothing(p: Page, token: Option<string>)
    requires !FieldsFilled(p.form) || |p.images| == 0
    ensures Submitted(p, token).0 == p
    ensures Submitted(p, token).1 ==
              if !FieldsFilled(p.form) then "Please fill in all fields" else "Please upload at least one image"
  {
  }

  /** A valid form sends exactly one request carrying every field and every
      image; success clears the form and opens the agent dashboard, failure
      keeps what was typed and where the browser is. */
  lemma ValidFormSendsOnce(p: Page, token: Option<string>)
    requires FieldsFilled(p.form) && |p.images| > 0
    ensures var (r, notice) := Submitted(p, token);
      && r.net.sent == p.net.sent + [ProductRequest(p.form, p.images, token)]
      && r.net.storage == p.net.storage
      && !r.isSubmitting
      && (Succeeded(Upcoming(p.net, 0)) ==>
            r.form == BlankProduct && r.images == [] && r.net.location == AgentDashboardPage
            && notice == "Product added to marketplace")
      && (!Succeeded(Upcoming(p.net, 0)) ==>
            r.form == p.form && r.images == p.images && r.net.location == p.net.location
            && notice == "Failed to add product. Please try again.")
  {
  }

  /** The cleared form is invalid again. */
  lemma ClearedFormIsInvalid()
    ensures !FieldsFilled(BlankProduct)
  {
    assert GetItem(BlankProduct, "productname") == Some("");
  }

  class AddProductPage {
    const session: AgentAuth.AgentSession
    var form: map<string, string>
    var images: seq<ImageData>
    var isSubmitting: bool

    function State(): Page
      reads this, session.browser
    {
      Page(form, images, isSubmitting, session.browser.State())
    }

    constructor (session: AgentAuth.AgentSession)
      ensures this.session == session && form == BlankProduct && images == [] && !isSubmitting
    {
      this.session := session;
      form, images, isSubmitting := BlankProduct, [], false;
    }

    /** The access effect; `denied` is the "Access Denied" toast. */
    method CheckAccess() returns (denied: bool)
      modifies session.browser
      ensures var pushes := Redirects(session.isLoading, session.token, session.agent);
        session.browser.State() == old(session.browser.State()).(location := Landing(old(session.browser.location), pushes))
        && (denied <==> DashboardPage in pushes)
    {
      if !session.isLoading && !Truthy(session.token) {
        session.browser.Navigate(LoginPage);
      }
      denied := !session.isLoading && session.agent.Some? && !session.agent.value.hasPaid;
      if denied {
        session.browser.Navigate(DashboardPage);
      }
    }

    method HandleChange(name: string, value: string)
      modifies this
      ensures form == UpdateField(old(form), name, value)
      ensures images == old(images) && isSubmitting == old(isSubmitting)
    {
      form := UpdateField(form, name, value);
    }

    /** The `onImagesChange` callback of the upload component. */
    method HandleImagesChange(newImages: seq<ImageData>)
      modifies this
      ensures images == newImages && form == old(form) && isSubmitting == old(isSubmitting)
    {
      images := newImages;
    }

    method HandleSubmit() returns (notice: string)
      modifies this, session.browser
      ensures (State(), notice) == Submitted(old(State()), session.token)
    {
      if !FieldsFilled(form) {
        return "Please fill in all fields";
      }
      if |images| == 0 {
        return "Please upload at least one image";
      }
      isSubmitting := true;
      var reply := session.browser.Fetch(ProductRequest(form, images, session.token));
      if Succeeded(reply) {
        notice := "Product added to marketplace";
        form, images := BlankProduct, [];
        session.browser.Navigate(AgentDashboardPage);
      } else {
        notice := "Failed to add product. Please try again.";
      }
      isSubmitting := false;
    }
  }
}
