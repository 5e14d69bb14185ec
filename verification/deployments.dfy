/** The `record-deployment`, `record-release` and `record-support-ended`
    commands (src/cli/pact_broker/main/deployments/).

    Deployment and release fetch the pacticipant version, decode its
    `pb:record-deployment` / `pb:record-release` links, pick the one named
    after the environment and POST to it. Support-ended finds the
    environment in the environment list, fetches its currently supported
    released versions and PATCHes them as no longer supported. */
module Deployments {
  import opened Wrappers
  import opened Json
  import opened Errors
  import opened Client
  import Text
  import Utils
  import Percent

  // ---------------------------------------------------------------------------
  // The version's record links

  /** A decoded record link: its href and its name, if any. */
  datatype RecordLink = RecordLink(href: string, name: Option<string>)

  /** Decoding an `Option<String>` field: absent or null is `None`, a string
      is `Some`, anything else does not decode (the outer None). */
  function OptionalStr(j: Json, key: string): Option<Option<string>> {
    match Get(j, key)
    case None => Some(None)
    case Some(Null) => Some(None)
    case Some(Str(s)) => Some(Some(s))
    case _ => None
  }

  /** Whether an `Option<bool>` field decodes. */
  predicate OptionalBoolDecodes(j: Json, key: string) {
    match Get(j, key)
    case None => true
    case Some(Null) => true
    case Some(Bool(_)) => true
    case _ => false
  }

  /** The link struct: a string `href`, optional string `name` and `title`,
      optional boolean `templated`; other entries are ignored. */
  function DecodeLink(j: Json): Option<RecordLink> {
    match Get(j, "href")
    case Some(Str(h)) =>
      var name := OptionalStr(j, "name");
      if name.Some? && OptionalStr(j, "title").Some? && OptionalBoolDecodes(j, "templated")
      then Some(RecordLink(h, name.value))
      else None
    case _ => None
  }

  /** A link as the broker writes it. */
  function EncodeLink(l: RecordLink): Json {
    Obj([("href", Str(l.href))] + OptField("name", l.name))
  }

  /** Decoding a link the broker wrote gives the link back. */
  lemma DecodeEncodeLink(l: RecordLink)
    ensures DecodeLink(EncodeLink(l)) == Some(l)
  {
    var fields := [("href", Str(l.href))] + OptField("name", l.name);
    forall key | key in ["href", "name", "title", "templated"]
      ensures Lookup(fields, key) == if key == "href" then Some(Str(l.href)) else if key == "name" && l.name.Some? then Some(Str(l.name.value)) else None
    {
      LookupCons("href", Str(l.href), OptField("name", l.name), key);
      OptFieldLookup("name", l.name, key);
    }
    assert "title" in ["href", "name", "title", "templated"];
    assert "templated" in ["href", "name", "title", "templated"];
  }

  /** A `Vec<Link>`: every item must decode. */
  function DecodeLinks(items: seq<Json>): (r: Option<seq<RecordLink>>)
    ensures r.Some? <==> forall i :: 0 <= i < |items| ==> DecodeLink(items[i]).Some?
    ensures r.Some? ==> |r.value| == |items| && forall i :: 0 <= i < |items| ==> DecodeLink(items[i]) == Some(r.value[i])
  {
    if |items| == 0 then Some([])
    else match (DecodeLink(items[0]), DecodeLinks(items[1..]))
      case (Some(l), Some(ls)) =>
        assert forall i :: 1 <= i < |items| ==> items[i] == items[1..][i - 1];
        Some([l] + ls)
      case (None, _) => None
      case (_, None) =>
        var i :| 0 <= i < |items[1..]| && DecodeLink(items[1..][i]).None?;
        assert items[i + 1] == items[1..][i];
        None
  }

  /** `serde_json::from_value` into the version struct: `_links` must hold
      the relation as an array of links. */
  function VersionLinks(res: Json, relation: string): (r: Option<seq<RecordLink>>)
    ensures r.Some? <==> Get(res, "_links").Some? && Get(Get(res, "_links").value, relation).Some? &&
                         Get(Get(res, "_links").value, relation).value.Arr? &&
                         var items := Get(Get(res, "_links").value, relation).value.items;
                         forall i :: 0 <= i < |items| ==> DecodeLink(items[i]).Some?
    ensures r.Some? ==> |r.value| == |Get(Get(res, "_links").value, relation).value.items|
  {
    match Get(res, "_links")
    case None => None
    case Some(links) =>
      match Get(links, relation)
      case Some(Arr(items)) => DecodeLinks(items)
      case _ => None
  }

  /** `iter().find(|x| x.name == Some(environment))`: the position of the
      first link named after the environment. */
  function FindNamed(links: seq<RecordLink>, environment: string): (r: Option<nat>)
    ensures r.Some? ==> r.value < |links| && links[r.value].name == Some(environment) &&
                        forall j :: 0 <= j < r.value ==> links[j].name != Some(environment)
    ensures r.None? <==> forall j :: 0 <= j < |links| ==> links[j].name != Some(environment)
  {
    if |links| == 0 then None
    else if links[0].name == Some(environment) then Some(0)
    else match FindNamed(links[1..], environment)
      case None =>
        assert forall j :: 1 <= j < |links| ==> links[j] == links[1..][j - 1];
        None
      case Some(k) =>
        assert forall j :: 1 <= j < k + 1 ==> links[j] == links[1..][j - 1];
        Some(k + 1)
  }

  // ---------------------------------------------------------------------------
  // record-deployment and record-release

  /** What is recorded: a deployment (with its optional application
      instance) or a release. */
  datatype Recording = Deployment(applicationInstance: Option<string>) | Release

  function Relation(k: Recording): string {
    match k
    case Deployment(_) => "pb:record-deployment"
    case Release => "pb:record-release"
  }

  function Noun(k: Recording): string {
    match k
    case Deployment(_) => "deployment"
    case Release => "release"
  }

  /** The POST body: a deployment names its target environment and, when
      given, the application instance; a release posts `{}`. */
  function RecordBody(k: Recording, environment: string): Json {
    match k
    case Deployment(instance) => Obj([("target", Str(environment))] + OptField("applicationInstance", instance))
    case Release => Obj([])
  }

  lemma RecordBodyFields(k: Recording, environment: string)
    ensures k.Release? ==> RecordBody(k, environment) == Obj([])
    ensures k.Deployment? ==>
              Get(RecordBody(k, environment), "target") == Some(Str(environment)) &&
              (Get(RecordBody(k, environment), "applicationInstance").Some? <==> k.applicationInstance.Some?) &&
              (k.applicationInstance.Some? ==>
                 Get(RecordBody(k, environment), "applicationInstance") == Some(Str(k.applicationInstance.value)))
  {
    if k.Deployment? {
      LookupCons("target", Str(environment), OptField("applicationInstance", k.applicationInstance), "target");
      LookupCons("target", Str(environment), OptField("applicationInstance", k.applicationInstance), "applicationInstance");
      OptFieldLookup("applicationInstance", k.applicationInstance, "applicationInstance");
    }
  }

  /** The version URL: the trimmed broker URL, then the pacticipant and the
      version, inserted as they are. */
  function VersionUrl(brokerUrl: string, pacticipant: string, version: string): string {
    Text.TrimEnd(brokerUrl, '/') + "/pacticipants/" + pacticipant + "/versions/" + version
  }

  function ShapeMessage(k: Recording, detail: string): string {
    "\U{274C} Failed to record " + Noun(k) + ": " + detail
  }

  function MissingEnvironment(environment: string): string {
    "\U{274C} Environment " + environment + " does not exist"
  }

  function InstanceSuffix(k: Recording): string {
    if k.Deployment? && k.applicationInstance.Some? then " (application instance " + k.applicationInstance.value + ")" else ""
  }

  function RecordedMessage(k: Recording, pacticipant: string, version: string, environment: string): string {
    "\U{2705} Recorded " + Noun(k) + " of " + pacticipant + " version " + version + " to " + environment
      + " environment" + InstanceSuffix(k) + " in the Pact Broker."
  }

  /** What a recorded deployment returns: the response as pretty or compact
      JSON text for those formats, the message otherwise; a release always
      returns the message. */
  function RecordedResult(k: Recording, output: string, pretty: Json -> string, res: Json, message: string): (s: string)
    ensures k.Release? || (output != "pretty" && output != "json") ==> s == message
    ensures k.Deployment? && output == "json" ==> s == ToText(res)
    ensures k.Deployment? && output == "pretty" ==> s == pretty(res)
  {
    if k.Deployment? && output == "pretty" then pretty(res)
    else if k.Deployment? && output == "json" then ToText(res)
    else message
  }

  /** The POST to the chosen link. */
  function RecordPost(k: Recording, link: RecordLink, environment: string): Request {
    Request(POST, link.href, Some(RecordBody(k, environment)))
  }

  /** From the decoded links on: the first link named after the environment
      is posted to; none gives NotFound and nothing is posted; a failed
      POST is passed on as it is. */
  function PostToEnvironment(broker: Broker, k: Recording, links: seq<RecordLink>, pacticipant: string,
                             version: string, environment: string, output: string,
                             pretty: Json -> string): (r: Run<string>)
    ensures FindNamed(links, environment).None? ==>
              r == Run(Err(NotFound(MissingEnvironment(environment))), [])
    ensures FindNamed(links, environment).Some? ==>
              var post := RecordPost(k, links[FindNamed(links, environment).value], environment);
              r.sent == [post] &&
              (broker(post).Err? ==> r.outcome == Err(broker(post).error)) &&
              (broker(post).Ok? ==>
                 r.outcome == Ok(RecordedResult(k, output, pretty, broker(post).value, RecordedMessage(k, pacticipant, version, environment))))
  {
    match FindNamed(links, environment)
    case None => Run(Err(NotFound(MissingEnvironment(environment))), [])
    case Some(i) =>
      var post := RecordPost(k, links[i], environment);
      var outcome := match broker(post)
        case Ok(res) => Ok(RecordedResult(k, output, pretty, res, RecordedMessage(k, pacticipant, version, environment)))
        case Err(e) => Err(e)
        case Halted(h) => Halted(h);
      Run(outcome, [post])
  }

  /** `record_deployment` / `record_release`: the version is fetched; a
      failed fetch is passed on; a response that does not decode is a
      content error and nothing is posted; then `PostToEnvironment`.
      `describe` stands for the decoder's error text. */
  function Record(broker: Broker, k: Recording, brokerUrl: string, pacticipant: string, version: string,
                  environment: string, output: string, pretty: Json -> string,
                  describe: Json -> string): (r: Run<string>)
    ensures var get := Request(GET, VersionUrl(brokerUrl, pacticipant, version), None);
            |r.sent| >= 1 && r.sent[0] == get && |r.sent| <= 2 &&
            (broker(get).Err? ==> r == Run(Err(broker(get).error), [get])) &&
            (broker(get).Ok? && VersionLinks(broker(get).value, Relation(k)).None? ==>
               r == Run(Err(ContentError(ShapeMessage(k, describe(broker(get).value)))), [get])) &&
            (broker(get).Ok? && VersionLinks(broker(get).value, Relation(k)).Some? ==>
               var rest := PostToEnvironment(broker, k, VersionLinks(broker(get).value, Relation(k)).value,
                                             pacticipant, version, environment, output, pretty);
               r == Run(rest.outcome, [get] + rest.sent))
  {
    var fetched := Fetch(broker, VersionUrl(brokerUrl, pacticipant, version));
    match fetched.outcome
    case Err(e) => Run(Err(e), fetched.sent)
    case Halted(h) => Run(Halted(h), fetched.sent)
    case Ok(res) =>
      match VersionLinks(res, Relation(k))
      case None => Run(Err(ContentError(ShapeMessage(k, describe(res)))), fetched.sent)
      case Some(links) =>
        var rest := PostToEnvironment(broker, k, links, pacticipant, version, environment, output, pretty);
        Run(rest.outcome, fetched.sent + rest.sent)
  }

  /** Decoding the links the broker wrote gives them back, in order. */
  lemma {:induction false} DecodeEncodeLinks(links: seq<RecordLink>)
    ensures DecodeLinks(seq(|links|, i requires 0 <= i < |links| => EncodeLink(links[i]))) == Some(links)
  {
    var items := seq(|links|, i requires 0 <= i < |links| => EncodeLink(links[i]));
    forall i | 0 <= i < |items|
      ensures DecodeLink(items[i]) == Some(links[i])
    {
      DecodeEncodeLink(links[i]);
    }
    assert DecodeLinks(items).value == links;
  }

  // ---------------------------------------------------------------------------
  // record-support-ended

  /** An environment of the list; both fields are required. */
  datatype Environment = Environment(uuid: string, name: string)

  function DecodeEnvironment(j: Json): Option<Environment> {
    match (Get(j, "uuid"), Get(j, "name"))
    case (Some(Str(u)), Some(Str(n))) => Some(Environment(u, n))
    case _ => None
  }

  /** Every environment of the list must decode; one that does not panics. */
  function DecodeEnvironments(items: seq<Json>): (r: Option<seq<Environment>>)
    ensures r.Some? ==> |r.value| == |items| && forall i :: 0 <= i < |items| ==> DecodeEnvironment(items[i]) == Some(r.value[i])
    ensures r.None? ==> exists i :: 0 <= i < |items| && DecodeEnvironment(items[i]).None?
  {
    if |items| == 0 then Some([])
    else match (DecodeEnvironment(items[0]), DecodeEnvironments(items[1..]))
      case (Some(e), Some(es)) =>
        assert forall i :: 1 <= i < |items| ==> items[i] == items[1..][i - 1];
        Some([e] + es)
      case (None, _) => None
      case (_, None) =>
        var i :| 0 <= i < |items[1..]| && DecodeEnvironment(items[1..][i]).None?;
        assert items[i + 1] == items[1..][i];
        None
  }

  /** The uuid of the first environment with the name. */
  function FindEnvironment(envs: seq<Environment>, name: string): (r: Option<string>)
    ensures r.None? <==> forall i :: 0 <= i < |envs| ==> envs[i].name != name
    ensures r.Some? ==> exists i :: 0 <= i < |envs| && envs[i].name == name && envs[i].uuid == r.value &&
                                    forall j :: 0 <= j < i ==> envs[j].name != name
  {
    if |envs| == 0 then None
    else if envs[0].name == name then Some(envs[0].uuid)
    else
      var r := FindEnvironment(envs[1..], name);
      assert forall i :: 1 <= i < |envs| ==> envs[i] == envs[1..][i - 1];
      if r.Some? then
        var i :| 0 <= i < |envs[1..]| && envs[1..][i].name == name && envs[1..][i].uuid == r.value &&
                 forall j :: 0 <= j < i ==> envs[1..][j].name != name;
        assert envs[i + 1] == envs[1..][i];
        r
      else r
  }

  function NoReleasedVersions(pacticipant: string, environment: string): string {
    "\U{274C} No currently released versions found for " + pacticipant + " in " + environment + " environment"
  }

  const NoHalRelation := "\U{274C} Could not process hal relation link"

  /** The PATCH body, exactly `{"currentlySupported": false}`. */
  const EndedBody := Obj([("currentlySupported", Bool(false))])

  /** `v[a][b][c].as_str()`: the string at a path of indexings, if it is one. */
  function StrAt(j: Json, a: string, b: string, c: string): Option<string> {
    AsStr(Index(Index(Index(j, a), b), c))
  }

  /** What the loop reads of a released version: the name of its
      pacticipant and its self href, when they are strings. */
  datatype Released = Released(owner: Option<string>, selfHref: Option<string>)

  function ReadReleased(rv: Json): Released {
    Released(StrAt(rv, "_embedded", "pacticipant", "name"), StrAt(rv, "_links", "self", "href"))
  }

  function EndRequest(href: string): Request {
    Request(PATCH, href, Some(EndedBody))
  }

  /** Every request is a PATCH with the support-ended body. */
  predicate OnlyEnds(sent: seq<Request>) {
    forall i :: 0 <= i < |sent| ==> sent[i].verb == PATCH && sent[i].body == Some(EndedBody)
  }

  /** `sent` is the support-ended PATCH of each of `vs`, at its self href, in order. */
  predicate EndsEach(vs: seq<Released>, sent: seq<Request>) {
    |sent| == |vs| &&
    forall i :: 0 <= i < |vs| ==> vs[i].selfHref.Some? && sent[i] == EndRequest(vs[i].selfHref.value)
  }

  /** Every version is the pacticipant's. */
  predicate AllOf(vs: seq<Released>, pacticipant: string) {
    forall i :: 0 <= i < |vs| ==> vs[i].owner == Some(pacticipant)
  }

  /** Every version names its pacticipant. */
  predicate AllOwned(vs: seq<Released>) {
    forall i :: 0 <= i < |vs| ==> vs[i].owner.Some?
  }

  lemma EndsEachCons(v: Released, vs: seq<Released>, sent: seq<Request>)
    requires v.selfHref.Some?
    ensures EndsEach([v] + vs, [EndRequest(v.selfHref.value)] + sent) <==> EndsEach(vs, sent)
  {
    assert forall i :: 0 <= i < |vs| ==> ([v] + vs)[i + 1] == vs[i];
  }

  lemma AllOfCons(v: Released, vs: seq<Released>, pacticipant: string)
    ensures AllOf([v] + vs, pacticipant) <==> v.owner == Some(pacticipant) && AllOf(vs, pacticipant)
  {
    assert ([v] + vs)[0] == v;
    assert forall i :: 0 <= i < |vs| ==> ([v] + vs)[i + 1] == vs[i];
  }

  lemma AllOwnedCons(v: Released, vs: seq<Released>)
    ensures AllOwned([v] + vs) <==> v.owner.Some? && AllOwned(vs)
  {
    assert ([v] + vs)[0] == v;
    assert forall i :: 0 <= i < |vs| ==> ([v] + vs)[i + 1] == vs[i];
  }

  /** The versions that are the pacticipant's, in their order. */
  function Mine(versions: seq<Released>, pacticipant: string): (r: seq<Released>)
    ensures |r| <= |versions| && AllOf(r, pacticipant)
    ensures forall i :: 0 <= i < |r| ==> r[i] in versions
    ensures r == [] <==> forall i :: 0 <= i < |versions| ==> versions[i].owner != Some(pacticipant)
    decreases |versions|
  {
    if |versions| == 0 then []
    else
      var rest := Mine(versions[1..], pacticipant);
      assert forall i :: 1 <= i < |versions| ==> versions[i] == versions[1..][i - 1];
      if versions[0].owner == Some(pacticipant) then [versions[0]] + rest else rest
  }

  const NoOwner := Panic("record_support_ended: released version without pacticipant name")
  const NoSelf := Panic("record_support_ended: released version without self href")

  /** The loop over the released versions as written: a version of the
      pacticipant is PATCHed (a failed PATCH exits with status 1), and the
      first version of another pacticipant ends the loop with NotFound,
      whatever was PATCHed before it; a version without a string owner or
      self href panics. */
  function EndSupportAsWritten(broker: Broker, versions: seq<Released>, pacticipant: string, environment: string): (r: Run<string>)
    ensures OnlyEnds(r.sent) && |r.sent| <= |versions|
    ensures AllOf(versions[..|r.sent|], pacticipant) && EndsEach(versions[..|r.sent|], r.sent)
    ensures r.outcome.Ok? ==> r.outcome.value == "" && |r.sent| == |versions| && AllOf(versions, pacticipant)
    ensures r.outcome.Err? ==> r.outcome.error == NotFound(NoReleasedVersions(pacticipant, environment))
    ensures r.outcome.Err? ==> |r.sent| < |versions| && versions[|r.sent|].owner.Some? &&
                               versions[|r.sent|].owner != Some(pacticipant)
    decreases |versions|
  {
    if |versions| == 0 then Run(Ok(""), [])
    else
      var v := versions[0];
      if v.owner.None? then Run(Halted(NoOwner), [])
      else if v.owner.value != pacticipant then Run(Err(NotFound(NoReleasedVersions(pacticipant, environment))), [])
      else if v.selfHref.None? then Run(Halted(NoSelf), [])
      else
        var patch := EndRequest(v.selfHref.value);
        var reply := broker(patch);
        if reply.Ok? then
          var rest := EndSupportAsWritten(broker, versions[1..], pacticipant, environment);
          assert versions[..|rest.sent| + 1] == [v] + versions[1..][..|rest.sent|];
          AllOfCons(v, versions[1..][..|rest.sent|], pacticipant);
          EndsEachCons(v, versions[1..][..|rest.sent|], rest.sent);
          assert rest.outcome.Ok? ==> versions == [v] + versions[1..];
          Run(rest.outcome, [patch] + rest.sent)
        else if reply.Err? then Run(Utils.HandleError(reply.error), [patch])
        else Run(Halted(reply.halt), [patch])
  }

  /** The loop as evidently intended: versions of other pacticipants are
      skipped, and NotFound is reported only when none of the versions is
      the pacticipant's. */
  function EndSupport(broker: Broker, versions: seq<Released>, pacticipant: string, environment: string): (r: Run<string>)
    ensures OnlyEnds(r.sent) && |r.sent| <= |versions|
    ensures r.outcome.Ok? ==> r.outcome.value == ""
    ensures r.outcome.Err? ==> r.outcome.error == NotFound(NoReleasedVersions(pacticipant, environment))
    ensures r.outcome.Err? ==> r.sent == [] && AllOwned(versions) && Mine(versions, pacticipant) == []
    ensures r.outcome.Ok? ==> AllOwned(versions) && Mine(versions, pacticipant) != [] &&
                              EndsEach(Mine(versions, pacticipant), r.sent)
    decreases |versions|
  {
    if |versions| == 0 then Run(Err(NotFound(NoReleasedVersions(pacticipant, environment))), [])
    else
      var v := versions[0];
      if v.owner.None? then Run(Halted(NoOwner), [])
      else if v.owner.value != pacticipant then
        var rest := EndSupport(broker, versions[1..], pacticipant, environment);
        assert versions == [v] + versions[1..];
        AllOwnedCons(v, versions[1..]);
        rest
      else if v.selfHref.None? then Run(Halted(NoSelf), [])
      else
        var patch := EndRequest(v.selfHref.value);
        var reply := broker(patch);
        if reply.Ok? then
          var rest := EndSupport(broker, versions[1..], pacticipant, environment);
          assert versions == [v] + versions[1..];
          AllOwnedCons(v, versions[1..]);
          EndsEachCons(v, Mine(versions[1..], pacticipant), rest.sent);
          Run(if rest.outcome.Err? then Ok("") else rest.outcome, [patch] + rest.sent)
        else if reply.Err? then Run(Utils.HandleError(reply.error), [patch])
        else Run(Halted(reply.halt), [patch])
  }

  /** The property the intended loop keeps: NotFound is reported only when
      nothing was PATCHed and no version is the pacticipant's. */
  lemma {:induction false} EndSupportNotFoundOnlyWhenNoneMatch(broker: Broker, versions: seq<Released>,
                                                               pacticipant: string, environment: string)
    ensures var r := EndSupport(broker, versions, pacticipant, environment);
            r.outcome.Err? ==> r.sent == [] && forall i :: 0 <= i < |versions| ==> versions[i].owner != Some(pacticipant)
    decreases |versions|
  {
    if |versions| > 0 && versions[0].owner.Some? && versions[0].owner.value != pacticipant {
      EndSupportNotFoundOnlyWhenNoneMatch(broker, versions[1..], pacticipant, environment);
      assert forall i :: 1 <= i < |versions| ==> versions[i] == versions[1..][i - 1];
    }
  }

  /** When every version is the pacticipant's (as the broker's query by
      pacticipant makes it), the two loops agree on every non-empty list. */
  lemma {:induction false} LoopsAgreeWhenAllMatch(broker: Broker, versions: seq<Released>, pacticipant: string, environment: string)
    requires |versions| > 0
    requires forall i :: 0 <= i < |versions| ==> versions[i].owner == Some(pacticipant)
    ensures EndSupport(broker, versions, pacticipant, environment) == EndSupportAsWritten(broker, versions, pacticipant, environment)
    decreases |versions|
  {
    var v := versions[0];
    assert v.owner == Some(pacticipant);
    if v.selfHref.Some? && broker(EndRequest(v.selfHref.value)).Ok? && |versions| > 1 {
      assert forall i :: 0 <= i < |versions[1..]| ==> versions[1..][i] == versions[i + 1];
      LoopsAgreeWhenAllMatch(broker, versions[1..], pacticipant, environment);
    }
  }

  /** The written loop reports NotFound after PATCHing a version of the
      pacticipant when a version of another pacticipant follows it. */
  lemma AsWrittenPatchesThenReportsNotFound()
    ensures var broker: Broker := req => Ok(Obj([]));
            var r := EndSupportAsWritten(broker, [Released(Some("A"), Some("/rv/1")), Released(Some("B"), None)], "A", "prod");
            r.outcome == Err(NotFound(NoReleasedVersions("A", "prod"))) && r.sent == [EndRequest("/rv/1")]
  {
    var versions := [Released(Some("A"), Some("/rv/1")), Released(Some("B"), None)];
    assert versions[1..] == [Released(Some("B"), None)];
  }

  /** The released versions of a currently-supported response: `_embedded`
      must be an object; a missing `releasedVersions` entry in it panics (the
      map is indexed directly), one that is not an array gives NotFound, and
      so does an empty array. */
  function ReleasedVersions(result: Json, pacticipant: string, environment: string): (r: Outcome<seq<Released>, BrokerError>)
    ensures r.Ok? ==> |r.value| > 0
    ensures r.Err? ==> r.error.NotFound?
    ensures !(Get(result, "_embedded").Some? && Get(result, "_embedded").value.Obj?) ==> r == Err(NotFound(NoHalRelation))
    ensures Get(result, "_embedded").Some? && Get(result, "_embedded").value.Obj? ==>
              (r.Halted? <==> Get(Get(result, "_embedded").value, "releasedVersions").None?)
    ensures Get(result, "_embedded").Some? && Get(result, "_embedded").value.Obj? &&
            Get(Get(result, "_embedded").value, "releasedVersions").Some? &&
            Get(Get(result, "_embedded").value, "releasedVersions").value.Arr? ==>
              var items := Get(Get(result, "_embedded").value, "releasedVersions").value.items;
              (|items| == 0 ==> r == Err(NotFound(NoReleasedVersions(pacticipant, environment)))) &&
              (|items| > 0 ==> r == Ok(seq(|items|, i requires 0 <= i < |items| => ReadReleased(items[i]))))
  {
    match Get(result, "_embedded")
    case Some(Obj(fields)) =>
      (match Lookup(fields, "releasedVersions")
       case None => Halted(Panic("record_support_ended: _embedded without releasedVersions"))
       case Some(Arr(items)) =>
         if |items| == 0 then Err(NotFound(NoReleasedVersions(pacticipant, environment)))
         else Ok(seq(|items|, i requires 0 <= i < |items| => ReadReleased(items[i])))
       case Some(_) => Err(NotFound(NoReleasedVersions(pacticipant, environment))))
    case _ => Err(NotFound(NoHalRelation))
  }

  /** The currently-supported query for the pacticipant. */
  function SupportedQuery(link: string, pacticipant: string): string {
    link + "?pacticipant=" + Percent.Encode(pacticipant)
  }

  /** From the supported versions' response on: NotFound when there are none
      to end, else the loop as written. */
  function EndFound(broker: Broker, found: Json, pacticipant: string, environment: string): (r: Run<string>)
    ensures OnlyEnds(r.sent)
    ensures r.outcome.Err? ==> r.outcome.error.NotFound?
    ensures r.outcome.Ok? ==> r.outcome.value == "" && ReleasedVersions(found, pacticipant, environment).Ok? &&
                              |r.sent| == |ReleasedVersions(found, pacticipant, environment).value|
    ensures !ReleasedVersions(found, pacticipant, environment).Ok? ==> r.sent == []
    ensures ReleasedVersions(found, pacticipant, environment).Ok? ==>
              var versions := ReleasedVersions(found, pacticipant, environment).value;
              |r.sent| <= |versions| &&
              AllOf(versions[..|r.sent|], pacticipant) && EndsEach(versions[..|r.sent|], r.sent) &&
              (r.outcome.Ok? ==> AllOf(versions, pacticipant)) &&
              (r.outcome.Err? ==> |r.sent| < |versions| && versions[|r.sent|].owner.Some? &&
                                  versions[|r.sent|].owner != Some(pacticipant))
  {
    match ReleasedVersions(found, pacticipant, environment)
    case Err(e) => Run(Err(e), [])
    case Halted(h) => Run(Halted(h), [])
    case Ok(versions) => EndSupportAsWritten(broker, versions, pacticipant, environment)
  }

  /** From the environment's uuid on: the environment is fetched and its
      currently-supported link followed with the pacticipant as query; a
      failed fetch exits with status 1 and a missing link panics. */
  function EndForEnvironment(broker: Broker, brokerUrl: string, uuid: string, pacticipant: string,
                             environment: string): (r: Run<string>)
    ensures |r.sent| >= 1 && r.sent[0] == Request(GET, brokerUrl + "/environments/" + uuid + "?", None)
    ensures r.outcome.Err? ==> r.outcome.error.NotFound?
    ensures |r.sent| <= 2 || (|r.sent| > 2 && r.sent[1].verb == GET && OnlyEnds(r.sent[2..]))
  {
    var env := Fetch(broker, brokerUrl + "/environments/" + uuid + "?");
    match env.outcome
    case Err(e) => Run(Utils.HandleError(e), env.sent)
    case Halted(h) => Run(Halted(h), env.sent)
    case Ok(result) =>
      match StrAt(result, "_links", "pb:currently-supported-released-versions", "href")
      case None => Run(Halted(Panic("record_support_ended: no currently-supported-released-versions link")), env.sent)
      case Some(link) =>
        var supported := Fetch(broker, SupportedQuery(link, pacticipant));
        var sent := env.sent + supported.sent;
        match supported.outcome
        case Err(e) => Run(Utils.HandleError(e), sent)
        case Halted(h) => Run(Halted(h), sent)
        case Ok(found) =>
          var rest := EndFound(broker, found, pacticipant, environment);
          assert (sent + rest.sent)[2..] == rest.sent;
          Run(rest.outcome, sent + rest.sent)
  }

  function EnvironmentNotFound(environment: string): string {
    "\U{274C} Environment " + environment + " not found"
  }

  /** The environments of the list response, or why there are none: a list
      that is not an array, or an entry without string uuid and name, panics. */
  function ListedEnvironments(response: Json): (r: Outcome<seq<Environment>, BrokerError>)
    ensures !r.Err?
    ensures r.Ok? <==> AsArray(Index(Index(response, "_embedded"), "environments")).Some? &&
                       DecodeEnvironments(AsArray(Index(Index(response, "_embedded"), "environments")).value).Some?
    ensures r.Ok? ==> r.value == DecodeEnvironments(AsArray(Index(Index(response, "_embedded"), "environments")).value).value
  {
    match AsArray(Index(Index(response, "_embedded"), "environments"))
    case None => Halted(Panic("record_support_ended: no environment list"))
    case Some(items) =>
      match DecodeEnvironments(items)
      case None => Halted(Panic("record_support_ended: malformed environment"))
      case Some(envs) => Ok(envs)
  }

  /** `record_support_ended`: a failed index or environment-list fetch exits
      with status 1; an unknown environment is NotFound before anything is
      written; every write is the support-ended PATCH. */
  function RecordSupportEnded(broker: Broker, brokerUrl: string, pacticipant: string, environment: string): (r: Run<string>)
    ensures |r.sent| >= 1 && r.sent[0] == Request(GET, brokerUrl + "/", None)
    ensures broker(Request(GET, brokerUrl + "/", None)).Err? ==> r.outcome == Halted(Exit(1))
    ensures r.outcome.Err? ==> r.outcome.error.NotFound?
    ensures |r.sent| <= 4 || (r.sent[1].verb == GET && r.sent[2].verb == GET && r.sent[3].verb == GET && OnlyEnds(r.sent[4..]))
    ensures var list := broker(Request(GET, brokerUrl + "/environments?", None));
            broker(Request(GET, brokerUrl + "/", None)).Ok? && list.Ok? &&
            ListedEnvironments(list.value).Ok? && FindEnvironment(ListedEnvironments(list.value).value, environment).None? ==>
              r == Run(Err(NotFound(EnvironmentNotFound(environment))),
                       [Request(GET, brokerUrl + "/", None), Request(GET, brokerUrl + "/environments?", None)])
  {
    var index := Fetch(broker, brokerUrl + "/");
    match index.outcome
    case Err(e) => Run(Utils.HandleError(e), index.sent)
    case Halted(h) => Run(Halted(h), index.sent)
    case Ok(_) =>
      var list := Fetch(broker, brokerUrl + "/environments?");
      var sent := index.sent + list.sent;
      match list.outcome
      case Err(e) => Run(Utils.HandleError(e), sent)
      case Halted(h) => Run(Halted(h), sent)
      case Ok(response) =>
        match ListedEnvironments(response)
        case Err(e) => Run(Err(e), sent)
        case Halted(h) => Run(Halted(h), sent)
        case Ok(envs) =>
          match FindEnvironment(envs, environment)
          case None => Run(Err(NotFound(EnvironmentNotFound(environment))), sent)
          case Some(uuid) =>
            var rest := EndForEnvironment(broker, brokerUrl, uuid, pacticipant, environment);
            assert (sent + rest.sent)[2..] == rest.sent;
            Run(rest.outcome, sent + rest.sent)
  }
}
