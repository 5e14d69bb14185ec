/** The `create-version-tag` and `delete-version-tag` commands
    (src/cli/pact_broker/main/tags/create_version_tag.rs and delete_tag.rs). */
module Tags {
  import opened Wrappers
  import opened Json
  import opened Errors
  import opened Client
  import Text
  import Hal
  import Utils
  import Versions

  // ---------------------------------------------------------------------------
  // create-version-tag

  /** Sending every request in order whatever it answers: a failed PUT is
      only reported, and only a halt stops the loop. */
  function SendEach(broker: Broker, reqs: seq<Request>): (r: Run<()>)
    ensures |r.sent| <= |reqs| && r.sent == reqs[..|r.sent|]
    ensures r.outcome.Ok? || r.outcome.Halted?
    ensures r.outcome.Ok? <==> r.sent == reqs && forall i :: 0 <= i < |reqs| ==> !broker(reqs[i]).Halted?
    ensures r.outcome.Halted? ==> |r.sent| > 0 && broker(r.sent[|r.sent| - 1]) == Halted(r.outcome.halt)
    decreases |reqs|
  {
    if |reqs| == 0 then Run(Ok(()), [])
    else match broker(reqs[0])
      case Halted(h) => Run(Halted(h), [reqs[0]])
      case _ =>
        var rest := SendEach(broker, reqs[1..]);
        assert forall i :: 1 <= i < |reqs| ==> reqs[i] == reqs[1..][i - 1];
        assert [reqs[0]] + rest.sent == reqs[..|rest.sent| + 1] by {
          assert reqs[..|rest.sent| + 1] == [reqs[0]] + reqs[1..][..|rest.sent|];
        }
        Run(rest.outcome, [reqs[0]] + rest.sent)
  }

  function MissingVersion(pacticipant: string, version: string): string {
    "Version '" + version + "' of pacticipant '" + pacticipant
    + "' does not exist. Use --auto-create-version to create it."
  }

  function TaggedMessage(pacticipant: string, version: string): string {
    "Successfully tagged version '" + version + "' of pacticipant '" + pacticipant + "'"
  }

  /** The existence check: a GET of the version. */
  function VersionCheck(base: string, pacticipant: string, version: string): Request {
    Request(GET, Versions.VersionUrl(base, pacticipant, version), None)
  }

  /** `create_version_tag`: the version is always fetched; without
      `--auto-create-version` a version that cannot be fetched stops the
      command with NotFound before any tag is written. Otherwise every tag is
      PUT in order and the command succeeds whatever the PUTs answer. */
  function CreateVersionTag(broker: Broker, brokerUrl: string, pacticipant: string, version: string,
                            tags: seq<string>, autoCreate: bool): (r: Run<string>)
    ensures var check := VersionCheck(Text.TrimEnd(brokerUrl, '/'), pacticipant, version);
            |r.sent| >= 1 && r.sent[0] == check &&
            (r.outcome.Err? <==> !autoCreate && broker(check).Err?) &&
            (r.outcome.Err? ==> r == Run(Err(NotFound(MissingVersion(pacticipant, version))), [check]))
    ensures var base := Text.TrimEnd(brokerUrl, '/');
            var check := VersionCheck(base, pacticipant, version);
            var puts := SendEach(broker, Versions.Plan(base, pacticipant, version, None, tags));
            !broker(check).Halted? && (autoCreate || broker(check).Ok?) && puts.outcome.Ok? ==>
              r == Run(Ok(TaggedMessage(pacticipant, version)), [check] + Versions.Plan(base, pacticipant, version, None, tags))
  {
    var base := Text.TrimEnd(brokerUrl, '/');
    var check := Fetch(broker, Versions.VersionUrl(base, pacticipant, version));
    if check.outcome.Halted? then Run(Halted(check.outcome.halt), check.sent)
    else if !autoCreate && !check.outcome.Ok? then
      Run(Err(NotFound(MissingVersion(pacticipant, version))), check.sent)
    else
      var puts := SendEach(broker, Versions.Plan(base, pacticipant, version, None, tags));
      match puts.outcome
      case Halted(h) => Run(Halted(h), check.sent + puts.sent)
      case _ => Run(Ok(TaggedMessage(pacticipant, version)), check.sent + puts.sent)
  }

  /** A failing tag PUT does not fail the command: when the version exists
      and no reply halts, the result is the success message, with one PUT of
      `{"name": t}` per tag, in order, after the existence check. */
  lemma TagFailuresAreIgnored(broker: Broker, brokerUrl: string, pacticipant: string, version: string,
                              tags: seq<string>, autoCreate: bool)
    requires broker(VersionCheck(Text.TrimEnd(brokerUrl, '/'), pacticipant, version)).Ok?
    requires forall t :: t in tags ==> !broker(Versions.TagPut(Text.TrimEnd(brokerUrl, '/'), pacticipant, version, t)).Halted?
    ensures var r := CreateVersionTag(broker, brokerUrl, pacticipant, version, tags, autoCreate);
            r.outcome == Ok(TaggedMessage(pacticipant, version)) &&
            |r.sent| == |tags| + 1 &&
            forall i :: 0 <= i < |tags| ==>
              r.sent[i + 1] == Versions.TagPut(Text.TrimEnd(brokerUrl, '/'), pacticipant, version, tags[i])
  {
    var base := Text.TrimEnd(brokerUrl, '/');
    var plan := Versions.Plan(base, pacticipant, version, None, tags);
    forall i | 0 <= i < |plan|
      ensures !broker(plan[i]).Halted?
    {
      assert plan[i] == Versions.TagPut(base, pacticipant, version, tags[i]);
      assert tags[i] in tags;
    }
    var r := CreateVersionTag(broker, brokerUrl, pacticipant, version, tags, autoCreate);
    assert r.sent == [VersionCheck(base, pacticipant, version)] + plan;
    forall i | 0 <= i < |tags|
      ensures r.sent[i + 1] == Versions.TagPut(base, pacticipant, version, tags[i])
    {
      assert r.sent[i + 1] == plan[i];
    }
  }

  // ---------------------------------------------------------------------------
  // delete-version-tag

  const NoVersionTagRelation := "pb:version-tag relation not found in pacticipant response"

  /** The `pb:version-tag` href of the pacticipant, when it is a string. */
  function VersionTagHref(entity: Json): Option<string> {
    PathStr(entity, ["_links", "pb:version-tag", "href"])
  }

  function TagValues(pacticipant: string, version: string, tag: string): (m: map<string, string>)
    ensures m.Keys == {"pacticipant", "version", "tag"}
    ensures m["pacticipant"] == pacticipant && m["version"] == version && m["tag"] == tag
  {
    map["pacticipant" := pacticipant, "version" := version, "tag" := tag]
  }

  function PacticipantLookup(href: string, pacticipant: string): Request {
    Request(GET, Hal.Expand(href, map["pacticipant" := pacticipant]), None)
  }

  /** From the pacticipant found: the DELETE of its `pb:version-tag`
      template, or NotFound without a request when it has none. */
  function DeleteFromPacticipant(broker: Broker, entity: Json, pacticipant: string, version: string, tag: string): (r: Run<Json>)
    ensures VersionTagHref(entity).None? ==> r == Run(Err(NotFound(NoVersionTagRelation)), [])
    ensures VersionTagHref(entity).Some? ==>
              r == Send(broker, DELETE, Hal.Expand(VersionTagHref(entity).value, TagValues(pacticipant, version, tag)), None)
  {
    match VersionTagHref(entity)
    case None => Run(Err(NotFound(NoVersionTagRelation)), [])
    case Some(h) => Utils.DeleteTemplatedBrokerRelation(broker, "pb:version-tag", h, TagValues(pacticipant, version, tag), "")
  }

  /** Once the `pb:pacticipant` relation is known: the pacticipant, then the
      DELETE; a failed lookup is passed on. */
  function LookupAndDelete(broker: Broker, href: string, pacticipant: string, version: string, tag: string): (r: Run<Json>)
    ensures |r.sent| >= 1 && r.sent[0] == PacticipantLookup(href, pacticipant)
    ensures broker(PacticipantLookup(href, pacticipant)).Err? ==>
              r == Run(Err(broker(PacticipantLookup(href, pacticipant)).error), [PacticipantLookup(href, pacticipant)])
    ensures broker(PacticipantLookup(href, pacticipant)).Ok? ==>
              var d := DeleteFromPacticipant(broker, broker(PacticipantLookup(href, pacticipant)).value, pacticipant, version, tag);
              r == Run(d.outcome, [PacticipantLookup(href, pacticipant)] + d.sent)
  {
    var fetched := Utils.FollowTemplatedBrokerRelation(broker, "pb:pacticipant", href, map["pacticipant" := pacticipant], "");
    assert fetched.sent == [PacticipantLookup(href, pacticipant)];
    match fetched.outcome
    case Err(e) => Run(Err(e), fetched.sent)
    case Halted(h) => Run(Halted(h), fetched.sent)
    case Ok(entity) =>
      var d := DeleteFromPacticipant(broker, entity, pacticipant, version, tag);
      Run(d.outcome, fetched.sent + d.sent)
  }

  /** The async block: the index relation, then `LookupAndDelete`. */
  function DeleteRun(broker: Broker, pacticipant: string, version: string, tag: string): (r: Run<Json>)
    ensures |r.sent| >= 1 && r.sent[0] == Request(GET, "/", None)
    ensures Utils.GetBrokerRelation(broker, "pb:pacticipant").outcome.Err? ==>
              r == Run(Err(Utils.GetBrokerRelation(broker, "pb:pacticipant").outcome.error), [Request(GET, "/", None)])
    ensures Utils.GetBrokerRelation(broker, "pb:pacticipant").outcome.Ok? ==>
              var rest := LookupAndDelete(broker, Utils.GetBrokerRelation(broker, "pb:pacticipant").outcome.value,
                                          pacticipant, version, tag);
              r == Run(rest.outcome, [Request(GET, "/", None)] + rest.sent)
  {
    var rel := Utils.GetBrokerRelation(broker, "pb:pacticipant");
    match rel.outcome
    case Err(e) => Run(Err(e), rel.sent)
    case Halted(h) => Run(Halted(h), rel.sent)
    case Ok(href) =>
      var rest := LookupAndDelete(broker, href, pacticipant, version, tag);
      Run(rest.outcome, rel.sent + rest.sent)
  }

  function DeletedMessage(pacticipant: string, version: string, tag: string): string {
    "Successfully deleted tag '" + tag + "' from version '" + version + "' of pacticipant '" + pacticipant + "'"
  }

  function TagNotFoundMessage(pacticipant: string, version: string, tag: string): string {
    "Tag '" + tag + "' for version '" + version + "' of pacticipant '" + pacticipant
    + "' was not found (may have already been deleted)"
  }

  lemma MessagesDiffer(pacticipant: string, version: string, tag: string)
    ensures DeletedMessage(pacticipant, version, tag) != TagNotFoundMessage(pacticipant, version, tag)
  {
    assert DeletedMessage(pacticipant, version, tag)[0] != TagNotFoundMessage(pacticipant, version, tag)[0];
  }

  /** The reply to the user for the outcome of the async block. */
  function Report(inner: Outcome<Json, BrokerError>, pacticipant: string, version: string, tag: string): (r: Outcome<string, BrokerError>)
    ensures inner.Ok? ==> r == Ok(DeletedMessage(pacticipant, version, tag))
    ensures inner.Err? && inner.error.NotFound? ==> r == Ok(TagNotFoundMessage(pacticipant, version, tag))
    ensures inner.Err? && !inner.error.NotFound? ==> r == Err(inner.error)
    ensures inner.Halted? ==> r == Halted(inner.halt)
  {
    match inner
    case Ok(_) => Ok(DeletedMessage(pacticipant, version, tag))
    case Err(NotFound(_)) => Ok(TagNotFoundMessage(pacticipant, version, tag))
    case Err(e) => Err(e)
    case Halted(h) => Halted(h)
  }

  /** `delete_version_tag`: a NotFound anywhere (the relation, the
      pacticipant, its `pb:version-tag` link or the DELETE) reports the tag
      as not found and succeeds; other failures are passed on as they are. */
  function DeleteVersionTag(broker: Broker, pacticipant: string, version: string, tag: string): (r: Run<string>)
    ensures var inner := DeleteRun(broker, pacticipant, version, tag);
            r.sent == inner.sent &&
            (r.outcome == Ok(DeletedMessage(pacticipant, version, tag)) <==> inner.outcome.Ok?) &&
            (r.outcome == Ok(TagNotFoundMessage(pacticipant, version, tag)) <==>
               inner.outcome.Err? && inner.outcome.error.NotFound?) &&
            (r.outcome.Err? <==> inner.outcome.Err? && !inner.outcome.error.NotFound?) &&
            (r.outcome.Err? ==> r.outcome.error == inner.outcome.error) &&
            (r.outcome.Halted? <==> inner.outcome.Halted?)
  {
    var inner := DeleteRun(broker, pacticipant, version, tag);
    ReportDistinguishes(inner.outcome, pacticipant, version, tag);
    Run(Report(inner.outcome, pacticipant, version, tag), inner.sent)
  }

  /** The two successes are told apart: the deleted message exactly when
      the DELETE succeeded, the not-found one exactly when a NotFound
      stopped the command. */
  lemma ReportDistinguishes(inner: Outcome<Json, BrokerError>, pacticipant: string, version: string, tag: string)
    ensures var r := Report(inner, pacticipant, version, tag);
            (r == Ok(DeletedMessage(pacticipant, version, tag)) <==> inner.Ok?) &&
            (r == Ok(TagNotFoundMessage(pacticipant, version, tag)) <==> inner.Err? && inner.error.NotFound?) &&
            (r.Err? <==> inner.Err? && !inner.error.NotFound?)
  {
    assert DeletedMessage(pacticipant, version, tag)[0] != TagNotFoundMessage(pacticipant, version, tag)[0];
  }

  /** A pacticipant without a `pb:version-tag` link: nothing is deleted and
      the tag is reported as not found. */
  lemma MissingLinkReportsNotFound(broker: Broker, pacticipant: string, version: string, tag: string)
    requires Utils.GetBrokerRelation(broker, "pb:pacticipant").outcome.Ok?
    requires var lookup := PacticipantLookup(Utils.GetBrokerRelation(broker, "pb:pacticipant").outcome.value, pacticipant);
             broker(lookup).Ok? && VersionTagHref(broker(lookup).value).None?
    ensures var r := DeleteVersionTag(broker, pacticipant, version, tag);
            r.outcome == Ok(TagNotFoundMessage(pacticipant, version, tag)) && ReadOnly(r.sent) && |r.sent| == 2
  {
    var href := Utils.GetBrokerRelation(broker, "pb:pacticipant").outcome.value;
    var rest := LookupAndDelete(broker, href, pacticipant, version, tag);
    assert rest.sent == [PacticipantLookup(href, pacticipant)];
    assert DeleteRun(broker, pacticipant, version, tag).sent == [Request(GET, "/", None), PacticipantLookup(href, pacticipant)];
  }

  /** When the relation, the pacticipant and its link are found, the one
      write is a DELETE of the link's template expanded with the
      pacticipant, version and tag. */
  lemma DeleteTargetsTemplate(broker: Broker, pacticipant: string, version: string, tag: string)
    requires Utils.GetBrokerRelation(broker, "pb:pacticipant").outcome.Ok?
    requires var lookup := PacticipantLookup(Utils.GetBrokerRelation(broker, "pb:pacticipant").outcome.value, pacticipant);
             broker(lookup).Ok? && VersionTagHref(broker(lookup).value).Some?
    ensures var lookup := PacticipantLookup(Utils.GetBrokerRelation(broker, "pb:pacticipant").outcome.value, pacticipant);
            var target := Hal.Expand(VersionTagHref(broker(lookup).value).value, TagValues(pacticipant, version, tag));
            var r := DeleteVersionTag(broker, pacticipant, version, tag);
            r.sent == [Request(GET, "/", None), lookup, Request(DELETE, target, None)] &&
            (broker(Request(DELETE, target, None)).Ok? ==> r.outcome == Ok(DeletedMessage(pacticipant, version, tag)))
  {
    var href := Utils.GetBrokerRelation(broker, "pb:pacticipant").outcome.value;
    var lookup := PacticipantLookup(href, pacticipant);
    var target := Hal.Expand(VersionTagHref(broker(lookup).value).value, TagValues(pacticipant, version, tag));
    var d := DeleteFromPacticipant(broker, broker(lookup).value, pacticipant, version, tag);
    assert d.sent == [Request(DELETE, target, None)];
    var rest := LookupAndDelete(broker, href, pacticipant, version, tag);
    assert rest.sent == [lookup, Request(DELETE, target, None)];
  }
}
