/** The `create-webhook` and `create-or-update-webhook` commands
    (src/cli/pact_broker/main/webhooks/create.rs): the `--user` split, the
    event list, the webhook document, the choice between updating an existing
    webhook and creating a new one, and the wrapping of every failure. */
module WebhookCreate {
  import opened Wrappers
  import opened Json
  import opened Errors
  import opened Client
  import Text
  import Utils

  // ---------------------------------------------------------------------------
  // Credentials

  /** `--user` split at its first `:` into username and password; without a
      `:` the whole value is the username and there is no password. */
  function SplitUser(user: Option<string>): (r: (Option<string>, Option<string>))
    ensures user.None? ==> r == (None, None)
    ensures user.Some? ==> r.0.Some? && ':' !in r.0.value
    ensures user.Some? && ':' !in user.value ==> r == (user, None)
    ensures user.Some? && ':' in user.value ==> r.1.Some? && user.value == r.0.value + ":" + r.1.value
  {
    match user
    case None => (None, None)
    case Some(u) =>
      match Text.SplitOnce(u, ':')
      case Some((name, password)) => (Some(name), Some(password))
      case None => (Some(u), None)
  }

  /** Splitting `name:password` gives back the two halves, whatever the
      password holds, as long as the name has no `:`. */
  lemma SplitUserJoin(name: string, password: string)
    requires ':' !in name
    ensures SplitUser(Some(name + ":" + password)) == (Some(name), Some(password))
  {
    Text.SplitOnceAt(name, password, ':');
  }

  // ---------------------------------------------------------------------------
  // Events

  datatype Event =
    | ContractContentChanged
    | ContractPublished
    | ProviderVerificationPublished
    | ProviderVerificationFailed
    | ProviderVerificationSucceeded
    | ContractRequiringVerificationPublished

  function EventName(e: Event): string {
    match e
    case ContractContentChanged => "contract_content_changed"
    case ContractPublished => "contract_published"
    case ProviderVerificationPublished => "provider_verification_published"
    case ProviderVerificationFailed => "provider_verification_failed"
    case ProviderVerificationSucceeded => "provider_verification_succeeded"
    case ContractRequiringVerificationPublished => "contract_requiring_verification_published"
  }

  /** The order in which the events are listed. */
  const EventOrder: seq<Event> := [ContractContentChanged, ContractPublished, ProviderVerificationPublished,
                                   ProviderVerificationFailed, ProviderVerificationSucceeded,
                                   ContractRequiringVerificationPublished]

  /** An event's position in that order. */
  function Rank(e: Event): nat {
    match e
    case ContractContentChanged => 0
    case ContractPublished => 1
    case ProviderVerificationPublished => 2
    case ProviderVerificationFailed => 3
    case ProviderVerificationSucceeded => 4
    case ContractRequiringVerificationPublished => 5
  }

  /** The six event flags of the command line. */
  datatype EventFlags = EventFlags(contentChanged: bool, published: bool, verificationPublished: bool,
                                   verificationFailed: bool, verificationSucceeded: bool,
                                   requiringVerificationPublished: bool)

  predicate Flagged(f: EventFlags, e: Event) {
    match e
    case ContractContentChanged => f.contentChanged
    case ContractPublished => f.published
    case ProviderVerificationPublished => f.verificationPublished
    case ProviderVerificationFailed => f.verificationFailed
    case ProviderVerificationSucceeded => f.verificationSucceeded
    case ContractRequiringVerificationPublished => f.requiringVerificationPublished
  }

  /** The flagged events among `es`, in the order of `es`. */
  function Selected(f: EventFlags, es: seq<Event>): (r: seq<Event>)
    ensures |r| <= |es|
  {
    if |es| == 0 then []
    else (if Flagged(f, es[0]) then [es[0]] else []) + Selected(f, es[1..])
  }

  /** The events of the webhook: one per set flag, in the fixed order. */
  function Events(f: EventFlags): seq<Event> {
    Selected(f, EventOrder)
  }

  /** A subsequence of events keeps only flagged members of the original. */
  lemma {:induction false} SelectedMembers(f: EventFlags, es: seq<Event>)
    ensures forall e :: e in Selected(f, es) <==> e in es && Flagged(f, e)
  {
    if |es| > 0 {
      SelectedMembers(f, es[1..]);
      Text.HeadTail(es);
    }
  }

  predicate Ascending(es: seq<Event>) {
    forall i, j :: 0 <= i < j < |es| ==> Rank(es[i]) < Rank(es[j])
  }

  /** Selecting from an ascending sequence keeps it ascending. */
  lemma {:induction false} SelectedAscending(f: EventFlags, es: seq<Event>)
    requires Ascending(es)
    ensures Ascending(Selected(f, es))
  {
    if |es| > 0 {
      var tail := es[1..];
      assert Ascending(tail) by {
        forall i, j | 0 <= i < j < |tail| ensures Rank(tail[i]) < Rank(tail[j]) {
          assert tail[i] == es[i + 1] && tail[j] == es[j + 1];
        }
      }
      SelectedAscending(f, tail);
      SelectedMembers(f, tail);
      var rest := Selected(f, tail);
      forall k | 0 <= k < |rest| ensures Rank(es[0]) < Rank(rest[k]) {
        assert rest[k] in rest;
        var m :| 0 <= m < |tail| && tail[m] == rest[k];
        assert tail[m] == es[m + 1];
      }
    }
  }

  lemma EventOrderAscending()
    ensures Ascending(EventOrder)
    ensures forall e: Event :: e in EventOrder
  {
    forall e: Event ensures e in EventOrder {
      assert EventOrder[Rank(e)] == e;
    }
  }

  /** The webhook lists exactly the flagged events, each once, in the fixed
      order; it lists none exactly when no flag is set. */
  lemma EventsChosen(f: EventFlags)
    ensures forall e :: e in Events(f) <==> Flagged(f, e)
    ensures Ascending(Events(f))
    ensures |Events(f)| == 0 <==> forall e :: !Flagged(f, e)
  {
    EventOrderAscending();
    SelectedMembers(f, EventOrder);
    SelectedAscending(f, EventOrder);
    if |Events(f)| > 0 {
      assert Events(f)[0] in Events(f);
    }
  }

  function EventJson(e: Event): Json {
    Obj([("name", Str(EventName(e)))])
  }

  function EventsJson(es: seq<Event>): (r: seq<Json>)
    ensures |r| == |es|
    ensures forall i :: 0 <= i < |es| ==> r[i] == EventJson(es[i])
  {
    if |es| == 0 then [] else [EventJson(es[0])] + EventsJson(es[1..])
  }

  const NoEvents := "No events specified for webhook, you must specify at least one of --contract-content-changed, --contract-published, --provider-verification-published, --provider-verification-succeeded or --provider-verification-faile"

  // ---------------------------------------------------------------------------
  // The webhook document

  /** The command's arguments (the broker URL and credentials aside). */
  datatype WebhookArgs = WebhookArgs(
    url: Option<string>, httpMethod: Option<string>, headers: seq<string>, data: Option<string>,
    user: Option<string>, consumer: Option<string>, consumerLabel: Option<string>,
    provider: Option<string>, providerLabel: Option<string>, description: Option<string>,
    events: EventFlags, teamUuid: Option<string>, uuid: Option<string>)

  /** An optional string as a JSON value: null when absent. */
  function OrNull(o: Option<string>): Json {
    if o.Some? then Str(o.value) else Null
  }

  /** The entry for an optional string that is kept only when non-empty. */
  function NonEmptyField(key: string, v: Option<string>): seq<(string, Json)> {
    if NonEmpty(v) then [(key, Str(v.value))] else []
  }

  /** `request`: method, headers and body always (null when not given), the
      URL when given, and the credentials split from `--user`. */
  function RequestParams(a: WebhookArgs): Json {
    Obj([("method", OrNull(a.httpMethod)), ("headers", Arr(StringsJson(a.headers))), ("body", OrNull(a.data))] +
        (OptField("url", a.url) + (OptField("username", SplitUser(a.user).0) + OptField("password", SplitUser(a.user).1))))
  }

  /** The `consumer` or `provider` object: only for a non-empty name, with
      its label only when that is non-empty too. */
  function Party(key: string, name: Option<string>, partyLabel: Option<string>): seq<(string, Json)> {
    if NonEmpty(name) then [(key, PartyJson(name.value, partyLabel))] else []
  }

  function PartyJson(name: string, partyLabel: Option<string>): Json {
    Obj([("name", Str(name))] + NonEmptyField("label", partyLabel))
  }

  /** The webhook document, or None when no event is flagged. */
  function Payload(a: WebhookArgs): Option<Json> {
    var events := Events(a.events);
    if |events| == 0 then None
    else Some(Obj([("request", RequestParams(a))] +
                  (NonEmptyField("description", a.description) +
                   ([("events", Arr(EventsJson(events)))] +
                    (Party("consumer", a.consumer, a.consumerLabel) +
                     (Party("provider", a.provider, a.providerLabel) +
                      NonEmptyField("teamUuid", a.teamUuid)))))))
  }

  lemma NonEmptyFieldLookup(k: string, v: Option<string>, key: string)
    ensures Lookup(NonEmptyField(k, v), key) == if k == key && NonEmpty(v) then Some(Str(v.value)) else None
  {
  }

  lemma PartyLookup(k: string, name: Option<string>, partyLabel: Option<string>, key: string)
    ensures Lookup(Party(k, name, partyLabel), key) ==
            if k == key && NonEmpty(name) then Some(PartyJson(name.value, partyLabel)) else None
  {
  }

  lemma SingleLookup(k: string, v: Json, key: string)
    ensures Lookup([(k, v)], key) == if k == key then Some(v) else None
  {
  }

  lemma PayloadLookup(a: WebhookArgs, key: string)
    requires |Events(a.events)| > 0
    ensures Get(Payload(a).value, key) ==
            if key == "request" then Some(RequestParams(a))
            else if key == "description" && NonEmpty(a.description) then Some(Str(a.description.value))
            else if key == "events" then Some(Arr(EventsJson(Events(a.events))))
            else if key == "consumer" && NonEmpty(a.consumer) then Some(PartyJson(a.consumer.value, a.consumerLabel))
            else if key == "provider" && NonEmpty(a.provider) then Some(PartyJson(a.provider.value, a.providerLabel))
            else if key == "teamUuid" && NonEmpty(a.teamUuid) then Some(Str(a.teamUuid.value))
            else None
  {
    var f := NonEmptyField("teamUuid", a.teamUuid);
    var e := Party("provider", a.provider, a.providerLabel) + f;
    var d := Party("consumer", a.consumer, a.consumerLabel) + e;
    var c := [("events", Arr(EventsJson(Events(a.events))))] + d;
    var b := NonEmptyField("description", a.description) + c;
    LookupConcat([("request", RequestParams(a))], b, key);
    LookupConcat(NonEmptyField("description", a.description), c, key);
    LookupConcat([("events", Arr(EventsJson(Events(a.events))))], d, key);
    LookupConcat(Party("consumer", a.consumer, a.consumerLabel), e, key);
    LookupConcat(Party("provider", a.provider, a.providerLabel), f, key);
    SingleLookup("request", RequestParams(a), key);
    SingleLookup("events", Arr(EventsJson(Events(a.events))), key);
    NonEmptyFieldLookup("description", a.description, key);
    NonEmptyFieldLookup("teamUuid", a.teamUuid, key);
    PartyLookup("consumer", a.consumer, a.consumerLabel, key);
    PartyLookup("provider", a.provider, a.providerLabel, key);
  }


  /** The document carries the request, the events and each optional part
      exactly when its argument is non-empty. */
  lemma PayloadFields(a: WebhookArgs)
    requires |Events(a.events)| > 0
    ensures var p := Payload(a).value;
            Get(p, "request") == Some(RequestParams(a)) &&
            Get(p, "events") == Some(Arr(EventsJson(Events(a.events)))) &&
            Get(p, "description") == (if NonEmpty(a.description) then Some(Str(a.description.value)) else None) &&
            Get(p, "consumer") == (if NonEmpty(a.consumer) then Some(PartyJson(a.consumer.value, a.consumerLabel)) else None) &&
            Get(p, "provider") == (if NonEmpty(a.provider) then Some(PartyJson(a.provider.value, a.providerLabel)) else None) &&
            Get(p, "teamUuid") == (if NonEmpty(a.teamUuid) then Some(Str(a.teamUuid.value)) else None)
  {
    PayloadLookup(a, "request");
    PayloadLookup(a, "events");
    PayloadLookup(a, "description");
    PayloadLookup(a, "consumer");
    PayloadLookup(a, "provider");
    PayloadLookup(a, "teamUuid");
  }

  /** A party names itself, and carries its label only when that is non-empty. */
  lemma PartyFields(name: string, partyLabel: Option<string>)
    ensures Get(PartyJson(name, partyLabel), "name") == Some(Str(name))
    ensures Get(PartyJson(name, partyLabel), "label") == (if NonEmpty(partyLabel) then Some(Str(partyLabel.value)) else None)
  {
    LookupConcat([("name", Str(name))], NonEmptyField("label", partyLabel), "label");
    NonEmptyFieldLookup("label", partyLabel, "label");
  }

  lemma FixedLookup(m: Json, h: Json, b: Json, key: string)
    ensures Lookup([("method", m), ("headers", h), ("body", b)], key) ==
            if key == "method" then Some(m) else if key == "headers" then Some(h) else if key == "body" then Some(b) else None
  {
    assert [("method", m), ("headers", h), ("body", b)] == [("method", m)] + ([("headers", h)] + [("body", b)]);
    LookupCons("method", m, [("headers", h)] + [("body", b)], key);
    LookupCons("headers", h, [("body", b)], key);
    LookupCons("body", b, [], key);
  }

  lemma RequestLookup(a: WebhookArgs, key: string)
    ensures Get(RequestParams(a), key) ==
            if key == "method" then Some(OrNull(a.httpMethod))
            else if key == "headers" then Some(Arr(StringsJson(a.headers)))
            else if key == "body" then Some(OrNull(a.data))
            else if key == "url" && a.url.Some? then Some(Str(a.url.value))
            else if key == "username" && SplitUser(a.user).0.Some? then Some(Str(SplitUser(a.user).0.value))
            else if key == "password" && SplitUser(a.user).1.Some? then Some(Str(SplitUser(a.user).1.value))
            else None
  {
    var (username, password) := SplitUser(a.user);
    var fixed := [("method", OrNull(a.httpMethod)), ("headers", Arr(StringsJson(a.headers))), ("body", OrNull(a.data))];
    var c := OptField("username", username) + OptField("password", password);
    var b := OptField("url", a.url) + c;
    LookupConcat(fixed, b, key);
    LookupConcat(OptField("url", a.url), c, key);
    LookupConcat(OptField("username", username), OptField("password", password), key);
    OptFieldLookup("url", a.url, key);
    OptFieldLookup("username", username, key);
    OptFieldLookup("password", password, key);
    FixedLookup(OrNull(a.httpMethod), Arr(StringsJson(a.headers)), OrNull(a.data), key);
  }

  /** The webhook's request: method, headers and body always, the URL only
      when given, the username whenever `--user` is, and the password only
      when `--user` holds a `:`. */
  lemma RequestFields(a: WebhookArgs)
    ensures var q := RequestParams(a);
            Get(q, "method") == Some(OrNull(a.httpMethod)) &&
            Get(q, "headers") == Some(Arr(StringsJson(a.headers))) &&
            Get(q, "body") == Some(OrNull(a.data)) &&
            Get(q, "url") == (if a.url.Some? then Some(Str(a.url.value)) else None) &&
            (Get(q, "username").Some? <==> a.user.Some?) &&
            (Get(q, "password").Some? <==> a.user.Some? && ':' in a.user.value)
  {
    RequestLookup(a, "method");
    RequestLookup(a, "headers");
    RequestLookup(a, "body");
    RequestLookup(a, "url");
    RequestLookup(a, "username");
    RequestLookup(a, "password");
  }

  // ---------------------------------------------------------------------------
  // Where the document goes

  /** Whether the document replaces an existing webhook (PUT) or creates one (POST). */
  datatype Operation = Create | Update

  /** The lookup of an existing webhook by its uuid. */
  function WebhookLookup(href: string, uuid: string): Request {
    Request(GET, Hal.Expand(href, map["uuid" := uuid]), None)
  }

  /** The self href of the webhook found (JSON text, quotes removed); a
      response without one panics. */
  function SelfHref(j: Json): (r: Outcome<string, BrokerError>)
    ensures !r.Err?
    ensures r.Ok? <==> Path(j, ["_links", "self", "href"]).Some?
    ensures r.Ok? ==> r.value == Text.RemoveChar(ToText(Path(j, ["_links", "self", "href"]).value), '"')
  {
    match Path(j, ["_links", "self", "href"])
    case None => Halted(Panic("create_webhook: webhook has no self link"))
    case Some(h) => Ok(Text.RemoveChar(ToText(h), '"'))
  }

  /** The `pb:webhooks` relation, as the target of a new webhook, read after
      the requests already sent. */
  function CreateTarget(broker: Broker, sent: seq<Request>): (r: Run<(string, Operation)>)
    ensures r.sent == sent + [Request(GET, "/", None)]
    ensures r.outcome.Ok? <==> Utils.GetBrokerRelation(broker, "pb:webhooks").outcome.Ok?
    ensures r.outcome.Ok? ==> r.outcome.value == (Utils.GetBrokerRelation(broker, "pb:webhooks").outcome.value, Create)
  {
    var rel := Utils.GetBrokerRelation(broker, "pb:webhooks");
    match rel.outcome
    case Ok(href) => Run(Ok((href, Create)), sent + rel.sent)
    case Err(e) => Run(Err(e), sent + rel.sent)
    case Halted(h) => Run(Halted(h), sent + rel.sent)
  }

  predicate NotFoundReply(r: Reply) {
    r.Err? && r.error.NotFound?
  }

  /** The choice once the `pb:webhook` relation is known: with a uuid the
      webhook is looked up and, when found, its self href is updated; when it
      is not found, or without a uuid, a new webhook is posted to the
      `pb:webhooks` relation; any other failure of the lookup is passed on. */
  function Choose(broker: Broker, href: string, uuid: Option<string>, url: string): (r: Run<(string, Operation)>)
    ensures ReadOnly(r.sent)
    ensures uuid.None? ==> r == CreateTarget(broker, [])
    ensures uuid.Some? ==> |r.sent| >= 1 && r.sent[0] == WebhookLookup(href, uuid.value)
    ensures r.outcome.Ok? && r.outcome.value.1.Update? ==>
              uuid.Some? && r.sent == [WebhookLookup(href, uuid.value)] &&
              broker(WebhookLookup(href, uuid.value)).Ok? &&
              SelfHref(broker(WebhookLookup(href, uuid.value)).value) == Ok(r.outcome.value.0)
    ensures r.outcome.Ok? && r.outcome.value.1.Create? ==>
              uuid.None? || NotFoundReply(broker(WebhookLookup(href, uuid.value)))
    ensures uuid.Some? && NotFoundReply(broker(WebhookLookup(href, uuid.value))) ==>
              r == CreateTarget(broker, [WebhookLookup(href, uuid.value)])
    ensures uuid.Some? && broker(WebhookLookup(href, uuid.value)).Err? && !NotFoundReply(broker(WebhookLookup(href, uuid.value))) ==>
              r.outcome == Err(broker(WebhookLookup(href, uuid.value)).error)
  {
    match uuid
    case None => CreateTarget(broker, [])
    case Some(u) =>
      var fetched := Utils.FollowTemplatedBrokerRelation(broker, "pb:webhook", href, map["uuid" := u], url);
      assert fetched.sent == [WebhookLookup(href, u)];
      match fetched.outcome
      case Ok(j) =>
        (match SelfHref(j)
         case Ok(target) => Run(Ok((target, Update)), fetched.sent)
         case Err(e) => Run(Err(e), fetched.sent)
         case Halted(h) => Run(Halted(h), fetched.sent))
      case Err(e) =>
        if e.NotFound? then CreateTarget(broker, fetched.sent) else Run(Err(e), fetched.sent)
      case Halted(h) => Run(Halted(h), fetched.sent)
  }

  /** Where the document is sent: the broker index's `pb:webhook` relation is
      read first (its failure is passed on), then the choice above. */
  function Endpoint(broker: Broker, uuid: Option<string>, url: string): (r: Run<(string, Operation)>)
    ensures ReadOnly(r.sent)
    ensures |r.sent| >= 1 && r.sent[0] == Request(GET, "/", None)
    ensures r.outcome.Ok? ==> Utils.GetBrokerRelation(broker, "pb:webhook").outcome.Ok?
    ensures Utils.GetBrokerRelation(broker, "pb:webhook").outcome.Err? ==>
              r == Run(Err(Utils.GetBrokerRelation(broker, "pb:webhook").outcome.error), [Request(GET, "/", None)])
    ensures Utils.GetBrokerRelation(broker, "pb:webhook").outcome.Ok? ==>
              var c := Choose(broker, Utils.GetBrokerRelation(broker, "pb:webhook").outcome.value, uuid, url);
              r == Run(c.outcome, [Request(GET, "/", None)] + c.sent)
  {
    var rel := Utils.GetBrokerRelation(broker, "pb:webhook");
    match rel.outcome
    case Err(e) => Run(Err(e), rel.sent)
    case Halted(h) => Run(Halted(h), rel.sent)
    case Ok(href) =>
      var c := Choose(broker, href, uuid, url);
      Run(c.outcome, rel.sent + c.sent)
  }

  // ---------------------------------------------------------------------------
  // The command

  const FailurePrefix := "Failed to create webhook: "

  /** Every failure, reported as an I/O error naming the command. */
  function Wrap(e: BrokerError): (r: BrokerError)
    ensures r.IoError? && Text.StartsWith(r.msg, FailurePrefix)
  {
    IoError(FailurePrefix + Display(e))
  }

  /** The request that writes the document to the chosen target. */
  function Write(target: (string, Operation), body: Json): Request {
    Request(if target.1.Update? then PUT else POST, target.0, Some(body))
  }

  /** A run that wrote the document to the target chosen by `ep` and
      returns the response as JSON text. */
  predicate Wrote(broker: Broker, ep: Run<(string, Operation)>, a: WebhookArgs, r: Run<string>) {
    ep.outcome.Ok? && Payload(a).Some? &&
    r.sent == ep.sent + [Write(ep.outcome.value, Payload(a).value)] &&
    broker(Write(ep.outcome.value, Payload(a).value)).Ok? &&
    r.outcome == Ok(ToText(broker(Write(ep.outcome.value, Payload(a).value)).value))
  }

  /** What follows the choice of target: without events nothing is written;
      otherwise one PUT or POST; every failure is wrapped. */
  function Deliver(broker: Broker, ep: Run<(string, Operation)>, a: WebhookArgs): (r: Run<string>)
    ensures r.outcome.Err? ==> r.outcome.error.IoError? && Text.StartsWith(r.outcome.error.msg, FailurePrefix)
    ensures |Events(a.events)| == 0 || !ep.outcome.Ok? ==> r.sent == ep.sent && !r.outcome.Ok?
    ensures |Events(a.events)| == 0 && ep.outcome.Ok? ==> r.outcome == Err(Wrap(IoError(NoEvents)))
    ensures r.sent == ep.sent || (ep.outcome.Ok? && Payload(a).Some? && r.sent == ep.sent + [Write(ep.outcome.value, Payload(a).value)])
    ensures r.outcome.Ok? ==> Wrote(broker, ep, a, r)
  {
    match ep.outcome
    case Err(e) => Run(Err(Wrap(e)), ep.sent)
    case Halted(h) => Run(Halted(h), ep.sent)
    case Ok(target) =>
      match Payload(a)
      case None => Run(Err(Wrap(IoError(NoEvents))), ep.sent)
      case Some(body) =>
        var w := Send(broker, Write(target, body).verb, target.0, Some(body));
        var outcome := match w.outcome
          case Ok(j) => Ok(ToText(j))
          case Err(e) => Err(Wrap(e))
          case Halted(h) => Halted(h);
        Run(outcome, ep.sent + w.sent)
  }

  /** `create_webhook`: the target is chosen, then the document is written
      there; before the write every request is a GET, and without events
      nothing but GETs is sent. */
  function CreateWebhook(broker: Broker, brokerUrl: string, a: WebhookArgs): (r: Run<string>)
    ensures r.outcome.Err? ==> r.outcome.error.IoError? && Text.StartsWith(r.outcome.error.msg, FailurePrefix)
    ensures |Events(a.events)| == 0 ==> ReadOnly(r.sent) && !r.outcome.Ok?
    ensures forall i :: 0 <= i < |r.sent| - 1 ==> r.sent[i].verb == GET
    ensures r.outcome.Ok? ==> Wrote(broker, Endpoint(broker, a.uuid, brokerUrl), a, r)
  {
    Deliver(broker, Endpoint(broker, a.uuid, brokerUrl), a)
  }

  /** A successful run ends with a PUT exactly when a uuid was given and the
      webhook it names was found; otherwise it ends with a POST to the
      `pb:webhooks` relation. */
  lemma UpdateOnlyWhenFound(broker: Broker, brokerUrl: string, a: WebhookArgs)
    requires CreateWebhook(broker, brokerUrl, a).outcome.Ok?
    ensures var r := CreateWebhook(broker, brokerUrl, a);
            var last := r.sent[|r.sent| - 1];
            Utils.GetBrokerRelation(broker, "pb:webhook").outcome.Ok? &&
            (last.verb == PUT <==>
               a.uuid.Some? && broker(WebhookLookup(Utils.GetBrokerRelation(broker, "pb:webhook").outcome.value, a.uuid.value)).Ok?) &&
            (last.verb != PUT ==>
               last.verb == POST && Utils.GetBrokerRelation(broker, "pb:webhooks").outcome.Ok? &&
               last.path == Utils.GetBrokerRelation(broker, "pb:webhooks").outcome.value)
  {
    var ep := Endpoint(broker, a.uuid, brokerUrl);
    var href := Utils.GetBrokerRelation(broker, "pb:webhook").outcome.value;
    var c := Choose(broker, href, a.uuid, brokerUrl);
    assert ep.outcome == c.outcome;
  }
}
