/** The `delete-webhook` command (src/cli/pact_broker/main/webhooks/delete.rs):
    the webhook is looked up through the index's `pb:webhook` relation, its
    self link is reduced to a path, and a DELETE is sent there directly, not
    through the HAL client; a webhook that is not found counts as deleted. */
module WebhookDelete {
  import opened Wrappers
  import opened Json
  import opened Errors
  import opened Client
  import Text
  import Utils

  /** What the direct DELETE gives back: the status (with its display text,
      code and reason) and the body, or the reason nothing was answered. */
  datatype RawReply = Answered(status: nat, display: string, body: string) | Unsent(reason: string)

  /** Parsing an absolute webhook URL: its path, or the reason it did not parse. */
  datatype Parsed = UrlPath(path: string) | BadUrl(reason: string)

  /** Joining the webhook path onto the broker URL: the joined URL, or the
      reason the broker URL did not parse or the join failed. */
  datatype Joined = Joined(url: string) | BadBrokerUrl(reason: string) | BadJoin(reason: string)

  /** The URL library and the raw HTTP client, which this model does not look into. */
  datatype Net = Net(parse: string -> Parsed, join: string -> Joined, delete: string -> RawReply)

  const UuidRequired := "Webhook UUID is required"
  const NoSelfLink := "Could not find webhook self link"

  /** The self href of the webhook, when it is a string. */
  function SelfLink(j: Json): Option<string> {
    PathStr(j, ["_links", "self", "href"])
  }

  /** The path to delete: an absolute href (starting with `http`) is reduced
      to its URL path, any other href is used as it is. */
  function WebhookPath(net: Net, href: string): (r: Outcome<string, BrokerError>)
    ensures !r.Halted?
    ensures !Text.StartsWith(href, "http") ==> r == Ok(href)
    ensures Text.StartsWith(href, "http") && net.parse(href).UrlPath? ==> r == Ok(net.parse(href).path)
    ensures r.Err? ==> Text.StartsWith(href, "http") && net.parse(href).BadUrl? &&
                       r.error == UrlError("Invalid webhook URL: " + net.parse(href).reason)
  {
    if Text.StartsWith(href, "http") then
      match net.parse(href)
      case UrlPath(p) => Ok(p)
      case BadUrl(reason) => Err(UrlError("Invalid webhook URL: " + reason))
    else Ok(href)
  }

  /** The outcome of the DELETE: success for a 2xx status, NotFound for 404,
      an I/O error carrying the status and body otherwise. */
  function DeleteOutcome(reply: RawReply): (r: Outcome<Json, BrokerError>)
    ensures !r.Halted?
    ensures r.Ok? <==> reply.Answered? && 200 <= reply.status < 300
    ensures r.Ok? ==> r.value == Obj([])
    ensures r.Err? && r.error.NotFound? <==> reply.Answered? && reply.status == 404
    ensures reply.Answered? && !(200 <= reply.status < 300) && reply.status != 404 ==>
              r == Err(IoError("DELETE request failed with status " + reply.display + ": " + reply.body))
    ensures reply.Unsent? ==> r == Err(IoError("Failed to send DELETE request: " + reply.reason))
  {
    match reply
    case Unsent(reason) => Err(IoError("Failed to send DELETE request: " + reason))
    case Answered(status, display, body) =>
      if 200 <= status < 300 then Ok(Obj([]))
      else if status == 404 then Err(NotFound("Webhook not found"))
      else Err(IoError("DELETE request failed with status " + display + ": " + body))
  }

  /** From the found webhook on: its self link, the path, the join, the DELETE. */
  function DeleteFound(net: Net, webhook: Json): (r: Run<Json>)
    ensures |r.sent| <= 1 && (|r.sent| == 1 ==> r.sent[0].verb == DELETE)
    ensures SelfLink(webhook).None? ==> r == Run(Err(IoError(NoSelfLink)), [])
    ensures r.outcome.Ok? ==>
              SelfLink(webhook).Some? && WebhookPath(net, SelfLink(webhook).value).Ok? &&
              net.join(WebhookPath(net, SelfLink(webhook).value).value).Joined? &&
              var target := net.join(WebhookPath(net, SelfLink(webhook).value).value).url;
              r.sent == [Request(DELETE, target, None)] && r.outcome == DeleteOutcome(net.delete(target))
  {
    match SelfLink(webhook)
    case None => Run(Err(IoError(NoSelfLink)), [])
    case Some(href) =>
      match WebhookPath(net, href)
      case Err(e) => Run(Err(e), [])
      case Halted(h) => Run(Halted(h), [])
      case Ok(path) =>
        match net.join(path)
        case BadBrokerUrl(reason) => Run(Err(UrlError("Invalid broker URL: " + reason)), [])
        case BadJoin(reason) => Run(Err(UrlError("Failed to join webhook path: " + reason)), [])
        case Joined(target) => Run(DeleteOutcome(net.delete(target)), [Request(DELETE, target, None)])
  }

  /** The webhook lookup for a uuid, once the `pb:webhook` relation is known. */
  function WebhookLookup(href: string, uuid: string): Request {
    Request(GET, Hal.Expand(href, map["uuid" := uuid]), None)
  }

  /** Once the `pb:webhook` relation is known: the lookup, then the DELETE
      of the webhook found; a failed lookup is passed on. */
  function LookupAndDelete(broker: Broker, net: Net, href: string, uuid: string, url: string): (r: Run<Json>)
    ensures |r.sent| >= 1 && r.sent[0] == WebhookLookup(href, uuid)
    ensures forall i :: 0 <= i < |r.sent| - 1 ==> r.sent[i].verb == GET
    ensures broker(WebhookLookup(href, uuid)).Err? ==>
              r == Run(Err(broker(WebhookLookup(href, uuid)).error), [WebhookLookup(href, uuid)])
    ensures broker(WebhookLookup(href, uuid)).Ok? ==>
              var d := DeleteFound(net, broker(WebhookLookup(href, uuid)).value);
              r == Run(d.outcome, [WebhookLookup(href, uuid)] + d.sent)
  {
    var fetched := Utils.FollowTemplatedBrokerRelation(broker, "pb:webhook", href, map["uuid" := uuid], url);
    assert fetched.sent == [WebhookLookup(href, uuid)];
    match fetched.outcome
    case Err(e) => Run(Err(e), fetched.sent)
    case Halted(h) => Run(Halted(h), fetched.sent)
    case Ok(webhook) =>
      var d := DeleteFound(net, webhook);
      Run(d.outcome, fetched.sent + d.sent)
  }

  /** The async block: the relation, then the lookup and the DELETE; each
      failure is passed on as it is. */
  function DeleteRun(broker: Broker, net: Net, uuid: string, url: string): (r: Run<Json>)
    ensures |r.sent| >= 1 && r.sent[0] == Request(GET, "/", None)
    ensures forall i :: 0 <= i < |r.sent| - 1 ==> r.sent[i].verb == GET
    ensures Utils.GetBrokerRelation(broker, "pb:webhook").outcome.Ok? ==>
              var rest := LookupAndDelete(broker, net, Utils.GetBrokerRelation(broker, "pb:webhook").outcome.value, uuid, url);
              r == Run(rest.outcome, [Request(GET, "/", None)] + rest.sent)
    ensures Utils.GetBrokerRelation(broker, "pb:webhook").outcome.Err? ==>
              r == Run(Err(Utils.GetBrokerRelation(broker, "pb:webhook").outcome.error), [Request(GET, "/", None)])
  {
    var rel := Utils.GetBrokerRelation(broker, "pb:webhook");
    match rel.outcome
    case Err(e) => Run(Err(e), rel.sent)
    case Halted(h) => Run(Halted(h), rel.sent)
    case Ok(href) =>
      var rest := LookupAndDelete(broker, net, href, uuid, url);
      Run(rest.outcome, rel.sent + rest.sent)
  }

  function DeletedMessage(uuid: string): string {
    "Webhook with UUID " + uuid + " successfully deleted"
  }

  function NotFoundMessage(uuid: string): string {
    "Webhook with UUID " + uuid + " was not found"
  }

  /** `delete_webhook`: a missing uuid is an error before any request; a
      NotFound anywhere (the relation, the lookup or the DELETE) reports the
      webhook as not found and succeeds; other failures are passed on. */
  function DeleteWebhook(broker: Broker, net: Net, uuid: Option<string>, url: string): (r: Run<string>)
    ensures uuid.None? ==> r == Run(Err(IoError(UuidRequired)), [])
    ensures uuid.Some? ==> r.sent == DeleteRun(broker, net, uuid.value, url).sent
    ensures uuid.Some? ==>
              var inner := DeleteRun(broker, net, uuid.value, url).outcome;
              (r.outcome == Ok(DeletedMessage(uuid.value)) <==> inner.Ok?) &&
              (r.outcome == Ok(NotFoundMessage(uuid.value)) <==> inner.Err? && inner.error.NotFound?) &&
              (r.outcome.Err? <==> inner.Err? && !inner.error.NotFound?) &&
              (r.outcome.Err? ==> r.outcome.error == inner.error)
  {
    match uuid
    case None => Run(Err(IoError(UuidRequired)), [])
    case Some(u) =>
      var inner := DeleteRun(broker, net, u, url);
      var outcome := match inner.outcome
        case Ok(_) => Ok(DeletedMessage(u))
        case Err(NotFound(_)) => Ok(NotFoundMessage(u))
        case Err(e) => Err(e)
        case Halted(h) => Halted(h);
      assert DeletedMessage(u) != NotFoundMessage(u) by {
        assert |DeletedMessage(u)| != |NotFoundMessage(u)|;
      }
      Run(outcome, inner.sent)
  }

  /** A webhook that the lookup does not find is reported as not found, and
      nothing is deleted. */
  lemma MissingWebhookSucceeds(broker: Broker, net: Net, uuid: string, url: string)
    requires Utils.GetBrokerRelation(broker, "pb:webhook").outcome.Ok?
    requires var lookup := WebhookLookup(Utils.GetBrokerRelation(broker, "pb:webhook").outcome.value, uuid);
             broker(lookup).Err? && broker(lookup).error.NotFound?
    ensures var r := DeleteWebhook(broker, net, Some(uuid), url);
            r.outcome == Ok(NotFoundMessage(uuid)) && forall i :: 0 <= i < |r.sent| ==> r.sent[i].verb == GET
  {
  }

  /** A 404 from the DELETE itself is reported the same way. */
  lemma DeleteNotFoundSucceeds(broker: Broker, net: Net, uuid: string, url: string, target: string)
    requires Utils.GetBrokerRelation(broker, "pb:webhook").outcome.Ok?
    requires var lookup := WebhookLookup(Utils.GetBrokerRelation(broker, "pb:webhook").outcome.value, uuid);
             broker(lookup).Ok? && SelfLink(broker(lookup).value).Some? &&
             WebhookPath(net, SelfLink(broker(lookup).value).value) == Ok(target)
    requires net.join(target).Joined?
    requires net.delete(net.join(target).url).Answered? && net.delete(net.join(target).url).status == 404
    ensures var r := DeleteWebhook(broker, net, Some(uuid), url);
            r.outcome == Ok(NotFoundMessage(uuid)) && r.sent[|r.sent| - 1] == Request(DELETE, net.join(target).url, None)
  {
  }
}
