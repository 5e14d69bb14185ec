/** The `create-or-update-version` and `describe-version` commands
    (src/cli/pact_broker/main/versions/create.rs and describe.rs). */
module Versions {
  import opened Wrappers
  import opened Json
  import opened Errors
  import opened Client
  import Text
  import Hal
  import Types
  import Utils

  // ---------------------------------------------------------------------------
  // create-or-update-version

  function VersionUrl(base: string, pacticipant: string, version: string): string {
    base + "/pacticipants/" + pacticipant + "/versions/" + version
  }

  function BranchVersionUrl(base: string, pacticipant: string, branch: string, version: string): string {
    base + "/pacticipants/" + pacticipant + "/branches/" + branch + "/versions/" + version
  }

  function TagUrl(base: string, pacticipant: string, version: string, tag: string): string {
    VersionUrl(base, pacticipant, version) + "/tags/" + tag
  }

  /** `{"name": n}`, the body of a branch or tag PUT. */
  function NameBody(n: string): Json {
    Obj([("name", Str(n))])
  }

  function TagPut(base: string, pacticipant: string, version: string, tag: string): Request {
    Request(PUT, TagUrl(base, pacticipant, version, tag), Some(NameBody(tag)))
  }

  /** The PUT of the bare version, with body `{}`. */
  function VersionPut(base: string, pacticipant: string, version: string): Request {
    Request(PUT, VersionUrl(base, pacticipant, version), Some(Obj([])))
  }

  /** The branch PUT (when a branch is given), then one PUT per tag, in order. */
  function Plan(base: string, pacticipant: string, version: string, branch: Option<string>, tags: seq<string>): (p: seq<Request>)
    ensures |p| == |tags| + (if branch.Some? then 1 else 0)
    ensures forall i :: 0 <= i < |p| ==> p[i].verb == PUT && p[i].body.Some? && p[i].body.value.Obj? && |p[i].body.value.fields| == 1
    ensures branch.Some? ==> p[0] == Request(PUT, BranchVersionUrl(base, pacticipant, branch.value, version), Some(NameBody(branch.value)))
    ensures forall i :: 0 <= i < |tags| ==> p[|p| - |tags| + i] == TagPut(base, pacticipant, version, tags[i])
  {
    var puts := seq(|tags|, i requires 0 <= i < |tags| => TagPut(base, pacticipant, version, tags[i]));
    match branch
    case Some(b) => [Request(PUT, BranchVersionUrl(base, pacticipant, b, version), Some(NameBody(b)))] + puts
    case None => puts
  }

  /** Sending requests in order until one fails: the sent requests are a
      prefix of the plan, all but the last answered Ok; success means every
      one was sent and answered Ok, and a failure is the last one's error,
      unchanged. */
  function SendInOrder(broker: Broker, reqs: seq<Request>): (r: Run<()>)
    ensures |r.sent| <= |reqs| && r.sent == reqs[..|r.sent|]
    ensures forall i :: 0 <= i < |r.sent| - 1 ==> broker(r.sent[i]).Ok?
    ensures r.outcome.Ok? <==> r.sent == reqs && forall i :: 0 <= i < |reqs| ==> broker(reqs[i]).Ok?
    ensures r.outcome.Err? ==> |r.sent| > 0 && broker(r.sent[|r.sent| - 1]) == Err(r.outcome.error)
    ensures r.outcome.Halted? ==> |r.sent| > 0 && broker(r.sent[|r.sent| - 1]) == Halted(r.outcome.halt)
    decreases |reqs|
  {
    if |reqs| == 0 then Run(Ok(()), [])
    else match broker(reqs[0])
      case Err(e) => Run(Err(e), [reqs[0]])
      case Halted(h) => Run(Halted(h), [reqs[0]])
      case Ok(_) =>
        var rest := SendInOrder(broker, reqs[1..]);
        assert forall i :: 1 <= i < |reqs| ==> reqs[i] == reqs[1..][i - 1];
        assert [reqs[0]] + rest.sent == reqs[..|rest.sent| + 1] by {
          assert reqs[..|rest.sent| + 1] == [reqs[0]] + reqs[1..][..|rest.sent|];
        }
        Run(rest.outcome, [reqs[0]] + rest.sent)
  }

  const VersionDone := "Version created or updated successfully"

  predicate Bare(branch: Option<string>, tags: seq<string>) {
    branch.None? && tags == []
  }

  /** The PUT of the bare version, its failure wrapped as an I/O error. */
  function PutVersion(broker: Broker, put: Request, version: string): (r: Run<string>)
    ensures r.sent == [put]
    ensures broker(put).Ok? <==> r.outcome == Ok(VersionDone)
    ensures broker(put).Err? ==>
              r.outcome == Err(IoError("Failed to create or update version '" + version + "': " + Display(broker(put).error)))
  {
    var outcome := match broker(put)
      case Ok(_) => Ok(VersionDone)
      case Err(e) => Err(IoError("Failed to create or update version '" + version + "': " + Display(e)))
      case Halted(h) => Halted(h);
    Run(outcome, [put])
  }

  /** `create_or_update_version`: the plan is sent in order and the first
      failure aborts with its error as it is; the bare version is PUT only
      when there is neither branch nor tag. */
  function CreateOrUpdateVersion(broker: Broker, brokerUrl: string, pacticipant: string, version: string,
                                 branch: Option<string>, tags: seq<string>): (r: Run<string>)
    ensures Bare(branch, tags) ==>
              r == PutVersion(broker, VersionPut(Text.TrimEnd(brokerUrl, '/'), pacticipant, version), version)
    ensures !Bare(branch, tags) ==>
              var puts := SendInOrder(broker, Plan(Text.TrimEnd(brokerUrl, '/'), pacticipant, version, branch, tags));
              r.sent == puts.sent &&
              (r.outcome.Ok? <==> puts.outcome.Ok?) &&
              (r.outcome.Ok? ==> r.outcome.value == VersionDone) &&
              (r.outcome.Err? <==> puts.outcome.Err?) &&
              (r.outcome.Err? ==> r.outcome.error == puts.outcome.error)
  {
    var base := Text.TrimEnd(brokerUrl, '/');
    var puts := SendInOrder(broker, Plan(base, pacticipant, version, branch, tags));
    match puts.outcome
    case Err(e) => Run(Err(e), puts.sent)
    case Halted(h) => Run(Halted(h), puts.sent)
    case Ok(_) =>
      if Bare(branch, tags) then PutVersion(broker, VersionPut(base, pacticipant, version), version)
      else Run(Ok(VersionDone), puts.sent)
  }

  /** The bare version PUT (body `{}`) is sent exactly when there is neither
      branch nor tag: every other PUT carries a `{"name": ..}` body. */
  lemma VersionPutIffBare(broker: Broker, brokerUrl: string, pacticipant: string, version: string,
                          branch: Option<string>, tags: seq<string>)
    ensures var r := CreateOrUpdateVersion(broker, brokerUrl, pacticipant, version, branch, tags);
            (forall i :: 0 <= i < |r.sent| ==> r.sent[i].verb == PUT) &&
            ((exists i :: 0 <= i < |r.sent| && r.sent[i].body == Some(Obj([]))) <==> Bare(branch, tags))
  {
    var base := Text.TrimEnd(brokerUrl, '/');
    var plan := Plan(base, pacticipant, version, branch, tags);
    var r := CreateOrUpdateVersion(broker, brokerUrl, pacticipant, version, branch, tags);
    if Bare(branch, tags) {
      assert r.sent[0].body == Some(Obj([]));
    } else {
      var puts := SendInOrder(broker, plan);
      assert r.sent == puts.sent;
      forall i | 0 <= i < |r.sent|
        ensures r.sent[i].verb == PUT && r.sent[i].body != Some(Obj([]))
      {
        assert r.sent[i] == plan[i];
      }
    }
  }

  // ---------------------------------------------------------------------------
  // describe-version

  /** The relation read from the index: the latest version with the given
      tag when `--latest` names one, else the latest version. */
  function DescribeRelation(latest: Option<string>): string {
    if latest.Some? then "pb:latest-tagged-version" else "pb:latest-version"
  }

  /** The template values: the pacticipant, and the version and tag or "". */
  function DescribeValues(pacticipant: string, version: Option<string>, latest: Option<string>): (m: map<string, string>)
    ensures m.Keys == {"pacticipant", "version", "tag"}
    ensures m["pacticipant"] == pacticipant && m["version"] == version.GetOr("") && m["tag"] == latest.GetOr("")
  {
    map["pacticipant" := pacticipant, "version" := version.GetOr(""), "tag" := latest.GetOr("")]
  }

  /** The output format: parsed from the argument, Table when it is absent
      or does not parse. */
  function DescribeOutput(output: Option<string>): (o: Types.OutputType)
    ensures output.None? ==> o == Types.OutputType.Table
    ensures output.Some? && Types.ParseOutputType(output.value).None? ==> o == Types.OutputType.Table
    ensures output.Some? && Types.ParseOutputType(output.value).Some? ==> o == Types.ParseOutputType(output.value).value
  {
    match output
    case None => Types.OutputType.Table
    case Some(s) => Types.ParseOutputType(s).GetOr(Types.OutputType.Table)
  }

  /** `filter_map` over the tags: the names that are strings, in order. */
  function TagNames(items: seq<Json>): (r: seq<string>)
    ensures |r| <= |items|
    ensures forall k :: 0 <= k < |r| ==> exists i :: 0 <= i < |items| && Get(items[i], "name") == Some(Str(r[k]))
    ensures forall i :: 0 <= i < |items| && Get(items[i], "name").Some? && Get(items[i], "name").value.Str? ==>
                          Get(items[i], "name").value.s in r
  {
    if |items| == 0 then []
    else
      var rest := TagNames(items[1..]);
      assert forall i :: 1 <= i < |items| ==> items[i] == items[1..][i - 1];
      assert forall k :: 0 <= k < |rest| ==> exists i :: 0 <= i < |items| && Get(items[i], "name") == Some(Str(rest[k])) by {
        forall k | 0 <= k < |rest|
          ensures exists i :: 0 <= i < |items| && Get(items[i], "name") == Some(Str(rest[k]))
        {
          var i :| 0 <= i < |items[1..]| && Get(items[1..][i], "name") == Some(Str(rest[k]));
          assert items[i + 1] == items[1..][i];
        }
      }
      match Get(items[0], "name")
      case Some(Str(n)) => [n] + rest
      case _ => rest
  }

  /** A tag as the broker embeds it. */
  function TagJson(name: string): Json {
    Obj([("name", Str(name))])
  }

  /** Reading back the names of tags written as the broker writes them gives
      the names, in order. */
  lemma {:induction false} TagNamesOfTags(names: seq<string>)
    ensures TagNames(seq(|names|, i requires 0 <= i < |names| => TagJson(names[i]))) == names
  {
    var items := seq(|names|, i requires 0 <= i < |names| => TagJson(names[i]));
    if |names| > 0 {
      assert items[1..] == seq(|names[1..]|, i requires 0 <= i < |names[1..]| => TagJson(names[1..][i]));
      TagNamesOfTags(names[1..]);
      assert Get(items[0], "name") == Some(Str(names[0]));
      assert names == [names[0]] + names[1..];
    }
  }

  /** The NAME cell: the version number, or "-". */
  function NumberCell(result: Json): string {
    match Get(result, "number")
    case Some(Str(n)) => n
    case _ => "-"
  }

  /** The TAGS cell: the tag names joined with ", " (empty for no tags), or
      "-" when there is no tag array. */
  function TagsCell(result: Json): string {
    match Path(result, ["_embedded", "tags"])
    case Some(Arr(items)) => Text.Join(TagNames(items), ", ")
    case _ => "-"
  }

  /** What describe-version returns: JSON text, or the one-row table. */
  datatype VersionView = JsonText(text: string) | TableView(table: Utils.Table)

  const NoTextOutput := "Text output is not supported for describe versions"
  const VersionNotFound := "Pacticipant version not found"

  /** The view of a found version for the format. */
  function View(result: Json, output: Types.OutputType): (r: Outcome<VersionView, BrokerError>)
    ensures output == Types.OutputType.Text <==> r.Err?
    ensures r.Err? ==> r.error == NotFound(NoTextOutput)
    ensures output == Types.OutputType.Json || output == Types.OutputType.Pretty ==> r == Ok(JsonText(ToText(result)))
    ensures output == Types.OutputType.Table ==>
              r == Ok(TableView(Utils.Table(["NAME", "TAGS"], [[NumberCell(result), TagsCell(result)]])))
  {
    match output
    case Json => Ok(JsonText(ToText(result)))
    case Pretty => Ok(JsonText(ToText(result)))
    case Table => Ok(TableView(Utils.Table(["NAME", "TAGS"], [[NumberCell(result), TagsCell(result)]])))
    case Text => Err(NotFound(NoTextOutput))
  }

  /** Once the relation is known: the version through its template; a
      version not found gives a fixed NotFound and other errors are passed on
      as they are. */
  function DescribeFound(broker: Broker, href: string, values: map<string, string>, output: Types.OutputType): (r: Run<VersionView>)
    ensures var get := Request(GET, Hal.Expand(href, values), None);
            r.sent == [get] &&
            (broker(get).Ok? ==> r.outcome == View(broker(get).value, output)) &&
            (broker(get).Err? && broker(get).error.NotFound? ==> r.outcome == Err(NotFound(VersionNotFound))) &&
            (broker(get).Err? && !broker(get).error.NotFound? ==> r.outcome == Err(broker(get).error))
  {
    var fetched := Utils.FollowTemplatedBrokerRelation(broker, "pb:pacticipant-version", href, values, "");
    var outcome := match fetched.outcome
      case Ok(result) => View(result, output)
      case Err(NotFound(_)) => Err(NotFound(VersionNotFound))
      case Err(e) => Err(e)
      case Halted(h) => Halted(h);
    Run(outcome, fetched.sent)
  }

  /** `describe_version`: the relation, whose failure panics, then
      `DescribeFound`. */
  function DescribeVersion(broker: Broker, pacticipant: string, version: Option<string>, latest: Option<string>,
                           output: Option<string>): (r: Run<VersionView>)
    ensures |r.sent| >= 1 && r.sent[0] == Request(GET, "/", None)
    ensures Utils.GetBrokerRelation(broker, DescribeRelation(latest)).outcome.Err? ==>
              r.outcome.Halted? && r.sent == [Request(GET, "/", None)]
    ensures Utils.GetBrokerRelation(broker, DescribeRelation(latest)).outcome.Ok? ==>
              var d := DescribeFound(broker, Utils.GetBrokerRelation(broker, DescribeRelation(latest)).outcome.value,
                                     DescribeValues(pacticipant, version, latest), DescribeOutput(output));
              r == Run(d.outcome, [Request(GET, "/", None)] + d.sent)
  {
    var rel := Utils.GetBrokerRelation(broker, DescribeRelation(latest));
    match rel.outcome
    case Err(_) => Run(Halted(Panic("describe_version: relation not found")), rel.sent)
    case Halted(h) => Run(Halted(h), rel.sent)
    case Ok(href) =>
      var d := DescribeFound(broker, href, DescribeValues(pacticipant, version, latest), DescribeOutput(output));
      Run(d.outcome, rel.sent + d.sent)
  }

  /** Describing only reads: two GETs at most. */
  lemma DescribeReadsOnly(broker: Broker, pacticipant: string, version: Option<string>, latest: Option<string>,
                          output: Option<string>)
    ensures var r := DescribeVersion(broker, pacticipant, version, latest, output);
            |r.sent| <= 2 && ReadOnly(r.sent)
  {
    var rel := Utils.GetBrokerRelation(broker, DescribeRelation(latest));
    var r := DescribeVersion(broker, pacticipant, version, latest, output);
    if rel.outcome.Ok? {
      var d := DescribeFound(broker, rel.outcome.value, DescribeValues(pacticipant, version, latest), DescribeOutput(output));
      assert r.sent == [Request(GET, "/", None)] + d.sent;
    }
  }
}
