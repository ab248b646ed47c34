/** The remote side of every DNS and realm backend: an append-only log of the requests
    sent, and an oracle that answers each request from its position in the log. Both
    backend generations share one such remote, so the order of all requests is visible. */
module Http {
  import opened Base

  /** A form body as the foreman smart proxy receives it. A field the source sets to
      `None` is an absent option here; how the HTTP client would encode it is not modelled. */
  datatype Body =
    | DnsRecord(fqdn: Option<string>, value: Option<string>, rtype: string)
    | RealmHost(hostname: Option<string>)

  /** One entry of an AWS Route 53 change batch. */
  datatype Change = Change(action: string, name: string, rtype: string, ttl: nat, value: string)

  datatype Request =
    | Post(url: string, body: Body)
    | Delete(url: string)
    | ChangeRecordSets(zoneId: string, comment: string, change: Change)

  /** A request together with the backend (by name) that sent it. */
  datatype Entry = Entry(client: string, request: Request)

  /** A reply: the status code, the JSON object the sending client's `resp.json()`
      yields (`None` when it yields no object), and whether that call raises
      `JSONDecodeError` instead. For aiohttp the call raises only for a body declared
      JSON that does not decode, and any other content type is a client error; for
      httpx, which ignores the content type, it raises for any body that is not JSON
      text. A body that is JSON text but not an object (`null`, a list, a string) is
      never malformed. */
  datatype Response = Response(status: nat, json: Option<map<string, string>>, malformed: bool)

  /** `resp.json()` raises `JSONDecodeError`. */
  predicate Undecodable(resp: Response) {
    resp.json.None? && resp.malformed
  }

  type Responder = (nat, Entry) -> Response

  /** The reply to `e` when it is the `|log|`-th request, and the log after it. */
  function SendOp(respond: Responder, log: seq<Entry>, e: Entry): (Response, seq<Entry>) {
    (respond(|log|, e), log + [e])
  }

  /** How `str()` renders an optional text inside a URL. */
  function PyStr(s: Option<string>): string {
    if s.Some? then s.value else "None"
  }

  class Remote {
    var log: seq<Entry>
    const respond: Responder

    constructor (respond: Responder)
      ensures log == [] && this.respond == respond
    {
      log := [];
      this.respond := respond;
    }

    method Send(e: Entry) returns (resp: Response)
      modifies this
      ensures (resp, log) == SendOp(respond, old(log), e)
    {
      resp := respond(|log|, e);
      log := log + [e];
    }
  }
}
