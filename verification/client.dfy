/** The HAL client's requests (src/cli/pact_broker/main.rs).

    The broker is a function from a request to the reply the client hands back
    after classifying the response (`Hal.ParseBrokerResponse`). A command is
    modelled as a `Run`: its outcome together with every request it sent, in
    order, so that "nothing was posted" can be stated.
 */
module Client {
  import opened Wrappers
  import opened Json
  import opened Errors
  import opened Hal
  import opened Types

  datatype Verb = GET | POST | PUT | PATCH | DELETE

  datatype Request = Request(verb: Verb, path: string, body: Option<Json>)

  type Broker = Request -> Reply

  datatype Run<T> = Run(outcome: Outcome<T, BrokerError>, sent: seq<Request>)

  /** The client's configuration. */
  datatype HalClient = HalClient(url: string, auth: Option<Auth>, ssl: SslOptions, retries: nat, pathInfo: Option<Json>)

  /** `HALClient::setup` / `with_url`: three attempts per request and nothing fetched yet. */
  function Setup(url: string, auth: Option<Auth>, ssl: SslOptions): (c: HalClient)
    ensures c.retries == 3 && c.pathInfo.None?
    ensures c.url == url && c.auth == auth && c.ssl == ssl
  {
    HalClient(url, auth, ssl, 3, None)
  }

  /** True when none of the requests writes to the broker. */
  predicate ReadOnly(sent: seq<Request>) {
    forall i :: 0 <= i < |sent| ==> sent[i].verb == GET
  }

  /** The requests that use the given verb, in order. */
  function WithVerb(sent: seq<Request>, m: Verb): (r: seq<Request>)
    ensures |r| <= |sent|
    ensures forall i :: 0 <= i < |r| ==> r[i].verb == m && r[i] in sent
  {
    if |sent| == 0 then []
    else if sent[0].verb == m then [sent[0]] + WithVerb(sent[1..], m)
    else WithVerb(sent[1..], m)
  }

  function Send(broker: Broker, m: Verb, path: string, body: Option<Json>): (r: Run<Json>)
    ensures r.sent == [Request(m, path, body)]
    ensures r.outcome == broker(Request(m, path, body))
  {
    var req := Request(m, path, body);
    Run(broker(req), [req])
  }

  /** `fetch`: a GET of the path. */
  function Fetch(broker: Broker, path: string): (r: Run<Json>)
    ensures r.sent == [Request(GET, path, None)]
    ensures r.outcome == broker(Request(GET, path, None))
  {
    Send(broker, GET, path, None)
  }

  /** The target of a link: its expanded template, or its href as written. */
  function LinkTarget(link: Link, values: map<string, string>, url: string): (r: Outcome<string, BrokerError>)
    ensures !r.Halted?
    ensures r.Err? <==> link.href.None?
    ensures r.Err? ==> r.error.LinkError?
    ensures r.Ok? && link.templated ==> r.value == Expand(link.href.value, values)
    ensures r.Ok? && !link.templated ==> r.value == link.href.value
  {
    if link.templated then ParseLinkUrl(link, values, url)
    else match link.href
      case Some(h) => Ok(h)
      case None => Err(LinkError("Link is malformed, there is no href. URL: '" + url + "', LINK: '" + link.name + "'"))
  }

  /** `fetch_url` (verb GET) and `delete_url` (verb DELETE): nothing is sent
      when the link has no target. */
  function FollowLink(broker: Broker, m: Verb, link: Link, values: map<string, string>, url: string): (r: Run<Json>)
    ensures link.href.None? ==> r.sent == [] && r.outcome.Err? && r.outcome.error.LinkError?
    ensures link.href.Some? ==> r == Send(broker, m, LinkTarget(link, values, url).value, None)
  {
    match LinkTarget(link, values, url)
    case Ok(target) => Send(broker, m, target, None)
    case Err(e) => Run(Err(e), [])
  }
}
