/** The browser as the client code sees it: `localStorage` as a string map, the
    current location, and the network. The server is an oracle: a script of
    replies handed out one per request, in order; once the script is used up
    every further request fails at the transport level. Every request that
    leaves the browser is appended to a log, so properties about "how many
    calls were made" are statements about that log. */
module Http {
  import opened Common

  /** A marketplace agent as the `/agent` endpoint lists it under `userinfo`. */
  datatype Agent = Agent(
    id: Option<string>,
    fullName: string,
    agentName: string,
    matricNumber: string,
    roomNumber: string,
    residence: string,
    email: string,
    phoneNumber: string,
    hasPaid: bool)

  /** The fields of a JSON response body that the core reads; an absent
      field is `None` (JavaScript `undefined`). The field name `acesstoken`
      is the server's own spelling. */
  datatype Payload = Payload(
    acesstoken: Option<string>,
    message: Option<string>,
    userinfo: Option<seq<Agent>>)

  /** What the server does with one request: answer with a status and a body,
      or fail before any response arrives (the reason is the error message). */
  datatype Reply = Answer(status: int, data: Payload) | NoAnswer(reason: string)

  /** An image stored on the asset host. */
  datatype ImageData = ImageData(url: string, publicId: string)

  /** A request body: none, a flat JSON object of strings, or a product
      (string fields plus the list of images). */
  datatype Body = NoBody | Fields(fields: map<string, string>)
                | ProductBody(fields: map<string, string>, images: seq<ImageData>)

  datatype Request = Request(verb: string, url: string, headers: map<string, string>, body: Body)

  /** `response.ok`, and axios' default `validateStatus`. */
  predicate IsOk(status: int) {
    200 <= status <= 299
  }

  predicate Succeeded(r: Reply) {
    r.Answer? && IsOk(r.status)
  }

  /** How an async operation of the pages settles: it resolves, or it rejects
      with an error message. */
  datatype Completion = Done | Failed(message: string)

  /** A toast as the pages raise it: a title and a description. */
  datatype Toast = Toast(title: string, description: string)

  /** How a page's list request settles, as far as the page looks at it: the
      list field of the body (absent is `None`), or the status of the error
      response (`None` when none arrived). */
  datatype ListReply<T> = Listed(items: Option<seq<T>>) | Refused(status: Option<int>)

  /** `data.<field> || []`. */
  function ItemsOr<T>(items: Option<seq<T>>): seq<T> {
    if items.Some? then items.value else []
  }

  /** The message a request carries when the script holds no further reply. */
  const NetworkError: string := "Network Error"

  /** Everything observable about the browser between two steps. */
  datatype Net = Net(
    storage: map<string, string>,
    location: string,
    sent: seq<Request>,
    replies: seq<Reply>)

  /** `localStorage.getItem(key)`; `None` is `null`. */
  function GetItem(storage: map<string, string>, key: string): (r: Option<string>)
    ensures r.Some? <==> key in storage
    ensures r.Some? ==> r.value == storage[key]
  {
    if key in storage then Some(storage[key]) else None
  }

  /** The string `localStorage.setItem` and a template literal make of a token
      that may be `undefined`. */
  function TokenText(t: Option<string>): (r: string)
    ensures t.Some? ==> r == t.value
    ensures t.None? ==> r == "undefined"
  {
    t.GetOr("undefined")
  }

  /** A template literal renders a missing (null) token as "null". */
  function NullText(t: Option<string>): (r: string)
    ensures t.Some? ==> r == t.value
    ensures t.None? ==> r == "null"
  {
    t.GetOr("null")
  }

  /** The `k`-th reply still to come (0 is the next one). */
  function Upcoming(n: Net, k: nat): Reply {
    if k < |n.replies| then n.replies[k] else NoAnswer(NetworkError)
  }

  /** One round trip: the request is logged and answered by the next reply.
      Storage and location are untouched, and the script only gets shorter. */
  function Exchange(n: Net, req: Request): (r: (Net, Reply))
    ensures r.0 == n.(sent := n.sent + [req], replies := r.0.replies)
    ensures r.1 == Upcoming(n, 0)
    ensures n.replies != [] ==> r.0.replies == n.replies[1..]
    ensures n.replies == [] ==> r.0.replies == []
    ensures r.1.Answer? ==> |r.0.replies| < |n.replies|
  {
    if n.replies == [] then (n.(sent := n.sent + [req]), NoAnswer(NetworkError))
    else (n.(sent := n.sent + [req], replies := n.replies[1..]), n.replies[0])
  }

  class Browser {
    var storage: map<string, string>
    var location: string
    var sent: seq<Request>
    var replies: seq<Reply>

    function State(): Net
      reads this
    {
      Net(storage, location, sent, replies)
    }

    constructor (storage: map<string, string>, location: string, script: seq<Reply>)
      ensures State() == Net(storage, location, [], script)
    {
      this.storage := storage;
      this.location := location;
      this.sent := [];
      this.replies := script;
    }

    /** `fetch` / the axios adapter: one request, one reply from the script. */
    method Fetch(req: Request) returns (reply: Reply)
      modifies this
      ensures (State(), reply) == Exchange(old(State()), req)
    {
      sent := sent + [req];
      if replies == [] {
        reply := NoAnswer(NetworkError);
      } else {
        reply := replies[0];
        replies := replies[1..];
      }
    }

    method SetItem(key: string, value: string)
      modifies this
      ensures State() == old(State()).(storage := old(storage)[key := value])
    {
      storage := storage[key := value];
    }

    method RemoveItem(key: string)
      modifies this
      ensures State() == old(State()).(storage := old(storage) - {key})
    {
      storage := storage - {key};
    }

    /** `router.push(path)` or `window.location.href = path`. */
    method Navigate(path: string)
      modifies this
      ensures State() == old(State()).(location := path)
    {
      location := path;
    }
  }
}
