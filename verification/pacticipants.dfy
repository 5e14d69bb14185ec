/** The `create-or-update-pacticipant` command
    (src/cli/pact_broker/main/pacticipants/create.rs): the pacticipant is
    looked up through the index's `pb:pacticipant` relation; one that
    exists is PATCHed at its self link, one that is not found is POSTed to
    the `pb:pacticipants` relation. */
module Pacticipants {
  import opened Wrappers
  import opened Json
  import opened Errors
  import opened Client
  import Hal
  import Utils

  datatype PacticipantArgs = PacticipantArgs(
    name: string,
    displayName: Option<string>,
    mainBranch: Option<string>,
    repositoryUrl: Option<string>)

  /** The pacticipant document: its name always, the other three when given. */
  function Payload(a: PacticipantArgs): Json {
    Obj([("name", Str(a.name))] + OptField("displayName", a.displayName)
        + OptField("mainBranch", a.mainBranch) + OptField("repositoryUrl", a.repositoryUrl))
  }

  function StrOf(v: Option<string>): Option<Json> {
    if v.Some? then Some(Str(v.value)) else None
  }

  lemma PayloadLookup(a: PacticipantArgs, key: string)
    ensures Get(Payload(a), key) ==
              if key == "name" then Some(Str(a.name))
              else if key == "displayName" then StrOf(a.displayName)
              else if key == "mainBranch" then StrOf(a.mainBranch)
              else if key == "repositoryUrl" then StrOf(a.repositoryUrl)
              else None
  {
    var n := [("name", Str(a.name))];
    var d := OptField("displayName", a.displayName);
    var m := OptField("mainBranch", a.mainBranch);
    var u := OptField("repositoryUrl", a.repositoryUrl);
    LookupConcat(n + d + m, u, key);
    LookupConcat(n + d, m, key);
    LookupConcat(n, d, key);
    LookupCons("name", Str(a.name), [], key);
    OptFieldLookup("displayName", a.displayName, key);
    OptFieldLookup("mainBranch", a.mainBranch, key);
    OptFieldLookup("repositoryUrl", a.repositoryUrl, key);
  }

  /** What the document says, read back: the name, and each optional field
      exactly when it was given. */
  lemma PayloadFields(a: PacticipantArgs)
    ensures Get(Payload(a), "name") == Some(Str(a.name))
    ensures Get(Payload(a), "displayName") == StrOf(a.displayName)
    ensures Get(Payload(a), "mainBranch") == StrOf(a.mainBranch)
    ensures Get(Payload(a), "repositoryUrl") == StrOf(a.repositoryUrl)
  {
    PayloadLookup(a, "name");
    PayloadLookup(a, "displayName");
    PayloadLookup(a, "mainBranch");
    PayloadLookup(a, "repositoryUrl");
  }

  /** The self href of the found pacticipant, or "" when it has none. */
  function SelfHref(entity: Json): string {
    match Path(entity, ["_links", "self", "href"])
    case Some(Str(h)) => h
    case _ => ""
  }

  function UpdatedMessage(name: string): string {
    "Pacticipant '" + name + "' updated successfully"
  }

  function CreatedMessage(name: string): string {
    "Pacticipant '" + name + "' created successfully"
  }

  /** The lookup of the pacticipant once `pb:pacticipant` is known. */
  function LookupRequest(href: string, name: string): Request {
    Request(GET, Hal.Expand(href, map["pacticipant" := name]), None)
  }

  /** Writing the document: its failure is wrapped as an I/O error naming
      the pacticipant and what was attempted. */
  function Write(broker: Broker, req: Request, name: string, updating: bool): (r: Run<string>)
    ensures r.sent == [req]
    ensures broker(req).Ok? ==> r.outcome == Ok(if updating then UpdatedMessage(name) else CreatedMessage(name))
    ensures broker(req).Err? ==>
              r.outcome == Err(IoError("Failed to " + (if updating then "update" else "create") + " pacticipant '"
                                       + name + "': " + Display(broker(req).error)))
  {
    var outcome := match broker(req)
      case Ok(_) => Ok(if updating then UpdatedMessage(name) else CreatedMessage(name))
      case Err(e) => Err(IoError("Failed to " + (if updating then "update" else "create") + " pacticipant '"
                                 + name + "': " + Display(e)))
      case Halted(h) => Halted(h);
    Run(outcome, [req])
  }

  /** A pacticipant that is not found is created: the `pb:pacticipants`
      relation (whose failure panics) and the POST. */
  function Create(broker: Broker, a: PacticipantArgs): (r: Run<string>)
    ensures |r.sent| >= 1 && r.sent[0] == Request(GET, "/", None)
    ensures Utils.GetBrokerRelation(broker, "pb:pacticipants").outcome.Ok? ==>
              r == (var w := Write(broker, Request(POST, Utils.GetBrokerRelation(broker, "pb:pacticipants").outcome.value,
                                                   Some(Payload(a))), a.name, false);
                    Run(w.outcome, [Request(GET, "/", None)] + w.sent))
    ensures !Utils.GetBrokerRelation(broker, "pb:pacticipants").outcome.Ok? ==> r.outcome.Halted? && |r.sent| == 1
  {
    var rel := Utils.GetBrokerRelation(broker, "pb:pacticipants");
    match rel.outcome
    case Ok(href) =>
      var w := Write(broker, Request(POST, href, Some(Payload(a))), a.name, false);
      Run(w.outcome, rel.sent + w.sent)
    case Err(_) => Run(Halted(Panic("create_or_update_pacticipant: pb:pacticipants relation")), rel.sent)
    case Halted(h) => Run(Halted(h), rel.sent)
  }

  /** After the index: the lookup, then the PATCH of a found pacticipant, the
      creation of a missing one, or the lookup's other error as it is. */
  function Decide(broker: Broker, href: string, a: PacticipantArgs): (r: Run<string>)
    ensures |r.sent| >= 1 && r.sent[0] == LookupRequest(href, a.name)
    ensures var found := broker(LookupRequest(href, a.name));
            (found.Ok? ==>
               var w := Write(broker, Request(PATCH, SelfHref(found.value), Some(Payload(a))), a.name, true);
               r == Run(w.outcome, [LookupRequest(href, a.name)] + w.sent)) &&
            (found.Err? && found.error.NotFound? ==>
               var c := Create(broker, a);
               r == Run(c.outcome, [LookupRequest(href, a.name)] + c.sent)) &&
            (found.Err? && !found.error.NotFound? ==> r == Run(Err(found.error), [LookupRequest(href, a.name)]))
  {
    var fetched := Utils.FollowTemplatedBrokerRelation(broker, "pb:pacticipant", href, map["pacticipant" := a.name], "");
    assert fetched.sent == [LookupRequest(href, a.name)];
    match fetched.outcome
    case Ok(entity) =>
      var w := Write(broker, Request(PATCH, SelfHref(entity), Some(Payload(a))), a.name, true);
      Run(w.outcome, fetched.sent + w.sent)
    case Err(NotFound(_)) =>
      var c := Create(broker, a);
      Run(c.outcome, fetched.sent + c.sent)
    case Err(e) => Run(Err(e), fetched.sent)
    case Halted(h) => Run(Halted(h), fetched.sent)
  }

  /** `create_or_update_pacticipant`: the `pb:pacticipant` relation (whose
      failure is returned as it is), then `Decide`. */
  function CreateOrUpdate(broker: Broker, a: PacticipantArgs): (r: Run<string>)
    ensures |r.sent| >= 1 && r.sent[0] == Request(GET, "/", None)
    ensures Utils.GetBrokerRelation(broker, "pb:pacticipant").outcome.Err? ==>
              r == Run(Err(Utils.GetBrokerRelation(broker, "pb:pacticipant").outcome.error), [Request(GET, "/", None)])
    ensures Utils.GetBrokerRelation(broker, "pb:pacticipant").outcome.Ok? ==>
              var d := Decide(broker, Utils.GetBrokerRelation(broker, "pb:pacticipant").outcome.value, a);
              r == Run(d.outcome, [Request(GET, "/", None)] + d.sent)
  {
    var rel := Utils.GetBrokerRelation(broker, "pb:pacticipant");
    match rel.outcome
    case Err(e) => Run(Err(e), rel.sent)
    case Halted(h) => Run(Halted(h), rel.sent)
    case Ok(href) =>
      var d := Decide(broker, href, a);
      Run(d.outcome, rel.sent + d.sent)
  }

  /** Exactly one write follows a successful index and lookup: a PATCH of
      the found pacticipant's self link, or, for one not found, a POST to
      `pb:pacticipants`; both carry the same document, and success names
      which one happened. */
  lemma PatchIffFound(broker: Broker, a: PacticipantArgs)
    requires Utils.GetBrokerRelation(broker, "pb:pacticipant").outcome.Ok?
    ensures var href := Utils.GetBrokerRelation(broker, "pb:pacticipant").outcome.value;
            var found := broker(LookupRequest(href, a.name));
            var r := CreateOrUpdate(broker, a);
            (found.Ok? ==>
               |r.sent| == 3 && r.sent[2] == Request(PATCH, SelfHref(found.value), Some(Payload(a))) &&
               (r.outcome.Ok? ==> r.outcome.value == UpdatedMessage(a.name))) &&
            (found.Err? && found.error.NotFound? && Utils.GetBrokerRelation(broker, "pb:pacticipants").outcome.Ok? ==>
               |r.sent| == 4 &&
               r.sent[3] == Request(POST, Utils.GetBrokerRelation(broker, "pb:pacticipants").outcome.value, Some(Payload(a))) &&
               (r.outcome.Ok? ==> r.outcome.value == CreatedMessage(a.name))) &&
            (found.Err? && !found.error.NotFound? ==> ReadOnly(r.sent) && r.outcome == Err(found.error))
  {
    var href := Utils.GetBrokerRelation(broker, "pb:pacticipant").outcome.value;
    var found := broker(LookupRequest(href, a.name));
    var d := Decide(broker, href, a);
    var r := CreateOrUpdate(broker, a);
    assert r.sent == [Request(GET, "/", None)] + d.sent;
    if found.Ok? {
      var w := Write(broker, Request(PATCH, SelfHref(found.value), Some(Payload(a))), a.name, true);
      assert d.sent == [LookupRequest(href, a.name)] + w.sent;
    } else if found.Err? && found.error.NotFound? {
      var c := Create(broker, a);
      assert d.sent == [LookupRequest(href, a.name)] + c.sent;
      if Utils.GetBrokerRelation(broker, "pb:pacticipants").outcome.Ok? {
        var w := Write(broker, Request(POST, Utils.GetBrokerRelation(broker, "pb:pacticipants").outcome.value,
                                       Some(Payload(a))), a.name, false);
        assert c.sent == [Request(GET, "/", None)] + w.sent;
      }
    } else if found.Err? {
      assert r.sent == [Request(GET, "/", None), LookupRequest(href, a.name)];
    }
  }
}
