/** The `get-pacts` command (src/cli/pact_broker/main/pacts/get_pacts.rs):
    the broker relation and path chosen for the filters, the normalisation of
    the response, and the download of every pact it lists. */
module GetPacts {
  import opened Wrappers
  import opened Json
  import opened Errors
  import opened Client
  import Hal
  import Utils
  import Types

  // ---------------------------------------------------------------------------
  // Relation and path

  /** `build_pacts_path`: one relation per combination of consumer filter,
      branch filter and `--latest`, with the path it stands for (the names are
      inserted as given). */
  function BuildPactsPath(provider: string, consumer: Option<string>, branch: Option<string>, latest: bool): (r: (string, string))
  {
    match (consumer, branch, latest)
    case (Some(c), Some(b), true) =>
      ("pb:latest-branch-pact-versions", "/pacts/provider/" + provider + "/consumer/" + c + "/branch/" + b + "/latest")
    case (Some(c), Some(b), false) =>
      ("pb:branch-pact-versions", "/pacts/provider/" + provider + "/consumer/" + c + "/branch/" + b)
    case (Some(c), None, true) =>
      ("pb:latest-main-branch-pact-versions", "/pacts/provider/" + provider + "/consumer/" + c + "/branch/latest")
    case (Some(c), None, false) =>
      ("pb:main-branch-pact-versions", "/pacts/provider/" + provider + "/consumer/" + c + "/branch")
    case (None, Some(b), true) =>
      ("pb:latest-provider-pacts-with-branch", "/pacts/provider/" + provider + "/branch/" + b + "/latest")
    case (None, Some(b), false) =>
      ("pb:provider-pacts-with-branch", "/pacts/provider/" + provider + "/branch/" + b)
    case (None, None, true) =>
      ("pb:latest-provider-pacts-with-main-branch", "/pacts/provider/" + provider + "/branch/latest")
    case (None, None, false) =>
      ("pb:provider-pacts-with-main-branch", "/pacts/provider/" + provider + "/branch")
  }

  function ConsumerSegment(consumer: Option<string>): string {
    match consumer
    case None => ""
    case Some(c) => "/consumer/" + c
  }

  function BranchSegment(branch: Option<string>): string {
    match branch
    case None => ""
    case Some(b) => "/" + b
  }

  function LatestSegment(latest: bool): string {
    if latest then "/latest" else ""
  }

  lemma PathLiterals()
    ensures "/branch/latest" == "/branch" + "/latest"
  {
  }

  /** Every path is the provider's base, then the consumer segment when a
      consumer is given, then `/branch`, then the branch name when one is
      given, then `/latest` when asked for. */
  lemma PactsPathShape(provider: string, consumer: Option<string>, branch: Option<string>, latest: bool)
    ensures BuildPactsPath(provider, consumer, branch, latest).1 ==
            "/pacts/provider/" + provider + ConsumerSegment(consumer) + "/branch" + BranchSegment(branch) + LatestSegment(latest)
  {
    var base := "/pacts/provider/" + provider;
    var path := BuildPactsPath(provider, consumer, branch, latest).1;
    var cs, bs, ls := ConsumerSegment(consumer), BranchSegment(branch), LatestSegment(latest);
    match (consumer, branch, latest)
    case (Some(c), Some(b), true) =>
      assert path == base + "/consumer/" + c + "/branch/" + b + "/latest";
      assert cs == "/consumer/" + c && bs == "/" + b && ls == "/latest";
      BranchSlash();
      Regroup7(base, "/consumer/", c, "/branch", "/", b, "/latest");
      assert path == base + cs + "/branch" + bs + ls;
    case (Some(c), Some(b), false) =>
      assert path == base + "/consumer/" + c + "/branch/" + b;
      assert cs == "/consumer/" + c && bs == "/" + b && ls == "";
      BranchSlash();
      Regroup7(base, "/consumer/", c, "/branch", "/", b, "");
      Text.AppendEmpty(path);
      assert path == base + cs + "/branch" + bs + ls;
    case (Some(c), None, true) =>
      assert path == base + "/consumer/" + c + "/branch/latest";
      assert cs == "/consumer/" + c && bs == "" && ls == "/latest";
      PathLiterals();
      Text.AppendEmpty(base + cs + "/branch");
      Text.AppendAssoc(base, "/consumer/", c);
      Text.AppendAssoc(base + cs, "/branch", "/latest");
      assert path == base + cs + "/branch" + bs + ls;
    case (Some(c), None, false) =>
      assert path == base + "/consumer/" + c + "/branch";
      assert cs == "/consumer/" + c && bs == "" && ls == "";
      Text.AppendEmpty(base + cs + "/branch");
      Text.AppendEmpty(base + cs + "/branch" + "");
      Text.AppendAssoc(base, "/consumer/", c);
      assert path == base + cs + "/branch" + bs + ls;
    case (None, Some(b), true) =>
      assert path == base + "/branch/" + b + "/latest";
      assert cs == "" && bs == "/" + b && ls == "/latest";
      BranchSlash();
      Text.AppendEmpty(base);
      Text.AppendAssoc(base, "/branch", "/");
      Text.AppendAssoc(base + "/branch", "/", b);
      assert path == base + cs + "/branch" + bs + ls;
    case (None, Some(b), false) =>
      assert path == base + "/branch/" + b;
      assert cs == "" && bs == "/" + b && ls == "";
      BranchSlash();
      Text.AppendEmpty(base);
      Text.AppendAssoc(base, "/branch", "/");
      Text.AppendAssoc(base + "/branch", "/", b);
      Text.AppendEmpty(path);
      assert path == base + cs + "/branch" + bs + ls;
    case (None, None, true) =>
      assert path == base + "/branch/latest";
      assert cs == "" && bs == "" && ls == "/latest";
      PathLiterals();
      Text.AppendEmpty(base);
      Text.AppendEmpty(base + "/branch");
      Text.AppendAssoc(base, "/branch", "/latest");
      assert path == base + cs + "/branch" + bs + ls;
    case (None, None, false) =>
      assert path == base + "/branch";
      assert cs == "" && bs == "" && ls == "";
      Text.AppendEmpty(base);
      Text.AppendEmpty(base + "/branch");
      assert path == base + cs + "/branch" + bs + ls;
  }

  lemma BranchSlash()
    ensures "/branch/" == "/branch" + "/"
  {
  }

  lemma Regroup7<T>(a: seq<T>, b: seq<T>, c: seq<T>, d: seq<T>, e: seq<T>, f: seq<T>, g: seq<T>)
    ensures a + (b + c) + d + (e + f) + g == a + b + c + (d + e) + f + g
  {
  }

  /** The relation names the combination of filters: two requests share a
      relation only when they filter alike. */
  lemma RelationNamesFilters(p1: string, c1: Option<string>, b1: Option<string>, l1: bool,
                             p2: string, c2: Option<string>, b2: Option<string>, l2: bool)
    ensures BuildPactsPath(p1, c1, b1, l1).0 == BuildPactsPath(p2, c2, b2, l2).0 <==>
            c1.Some? == c2.Some? && b1.Some? == b2.Some? && l1 == l2
  {
    RelationLength(p1, c1, b1, l1);
    RelationLength(p2, c2, b2, l2);
  }

  /** The eight relation names have eight different lengths. */
  lemma RelationLength(provider: string, consumer: Option<string>, branch: Option<string>, latest: bool)
    ensures |BuildPactsPath(provider, consumer, branch, latest).0| ==
            (if consumer.Some? then (if branch.Some? then 23 else 28) else (if branch.Some? then 29 else 34)) +
            (if latest then 7 else 0)
  {
  }

  /** The values the relation's template is expanded with: the provider
      always, the consumer and the branch when given. */
  function TemplateParams(provider: string, consumer: Option<string>, branch: Option<string>): (m: map<string, string>)
    ensures "provider" in m && m["provider"] == provider
    ensures "consumer" in m <==> consumer.Some?
    ensures consumer.Some? ==> m["consumer"] == consumer.value
    ensures "branch" in m <==> branch.Some?
    ensures branch.Some? ==> m["branch"] == branch.value
    ensures m.Keys <= {"provider", "consumer", "branch"}
  {
    var base := map["provider" := provider];
    var withConsumer := if consumer.Some? then base["consumer" := consumer.value] else base;
    if branch.Some? then withConsumer["branch" := branch.value] else withConsumer
  }

  // ---------------------------------------------------------------------------
  // Normalisation

  /** The pacts listed under `_links.pb:pacts` become `{"pacts": ...}`; any
      other response is kept as it is. */
  function Normalise(result: Json): (d: Json)
    ensures Path(result, ["_links", "pb:pacts"]).Some? ==>
              d == Obj([("pacts", Path(result, ["_links", "pb:pacts"]).value)])
    ensures Path(result, ["_links", "pb:pacts"]).None? ==> d == result
  {
    match Get(result, "_links")
    case None => result
    case Some(links) =>
      match Get(links, "pb:pacts")
      case None => result
      case Some(pacts) => Obj([("pacts", pacts)])
  }

  /** Normalising twice is normalising once. */
  lemma NormaliseIdempotent(result: Json)
    ensures Normalise(Normalise(result)) == Normalise(result)
  {
    var d := Normalise(result);
    if d != result {
      assert Get(d, "_links").None?;
    }
  }

  // ---------------------------------------------------------------------------
  // Download

  /** The download directory as the file system answers for it: the error
      text when it cannot be created, and for each file name the error text
      when that file cannot be written. */
  datatype DownloadDir = DownloadDir(createError: Option<string>, writeError: string -> Option<string>)

  const DirFailedPrefix := "Failed to create download directory: "
  const WriteFailedPrefix := "Failed to write pact file "

  function WriteFailed(name: string, e: string): string {
    WriteFailedPrefix + name + ": " + e
  }

  /** An error raised by writing a pact file. */
  ghost predicate IsWriteFailure(e: BrokerError) {
    exists name, err :: e == IoError(WriteFailed(name, err))
  }

  /** The entries to download: the `pacts` array, else the single `pact`,
      else the `_links.pb:pacts` array; with none of them, a content error. */
  function DownloadSources(data: Json): (r: Outcome<seq<Json>, BrokerError>)
    ensures !r.Halted?
    ensures Get(data, "pacts").Some? && Get(data, "pacts").value.Arr? ==> r == Ok(Get(data, "pacts").value.items)
    ensures !(Get(data, "pacts").Some? && Get(data, "pacts").value.Arr?) && Get(data, "pact").Some? ==>
              r == Ok([Get(data, "pact").value])
    ensures r.Err? <==>
              !(Get(data, "pacts").Some? && Get(data, "pacts").value.Arr?) && Get(data, "pact").None? &&
              !(Path(data, ["_links", "pb:pacts"]).Some? && Path(data, ["_links", "pb:pacts"]).value.Arr?)
    ensures r.Err? ==> r.error == ContentError("No pacts found to download")
  {
    match Get(data, "pacts")
    case Some(Arr(items)) => Ok(items)
    case _ =>
      match Get(data, "pact")
      case Some(single) => Ok([single])
      case None =>
        match Path(data, ["_links", "pb:pacts"])
        case Some(Arr(items)) => Ok(items)
        case _ => Err(ContentError("No pacts found to download"))
  }

  /** A response listing its pacts as a `_links.pb:pacts` array downloads
      exactly those entries once normalised. */
  lemma NormalisedSources(result: Json)
    requires Path(result, ["_links", "pb:pacts"]).Some? && Path(result, ["_links", "pb:pacts"]).value.Arr?
    ensures DownloadSources(Normalise(result)) == Ok(Path(result, ["_links", "pb:pacts"]).value.items)
  {
    var d := Normalise(result);
    assert Get(d, "pacts") == Some(Path(result, ["_links", "pb:pacts"]).value);
  }

  /** The string at the end of a key path, when there is one. */
  function StrAt(j: Json, keys: seq<string>): Option<string> {
    match Path(j, keys)
    case Some(Str(s)) => Some(s)
    case _ => None
  }

  /** The URL an entry is fetched from: its self link's href, else its own
      href (a non-string href reads as empty); None means the entry is skipped. */
  function PactUrl(pact: Json): (r: Option<string>)
    ensures r.Some? <==> Path(pact, ["_links", "self", "href"]).Some? || Get(pact, "href").Some?
    ensures StrAt(pact, ["_links", "self", "href"]).Some? ==> r == StrAt(pact, ["_links", "self", "href"])
  {
    match Path(pact, ["_links", "self", "href"])
    case Some(h) => Some(AsStr(h).GetOr(""))
    case None =>
      match Get(pact, "href")
      case Some(h) => Some(AsStr(h).GetOr(""))
      case None => None
  }

  /** The name a downloaded pact is saved under: consumer, provider and
      consumer version from the pact's links, `unknown` for each missing one
      (the consumer falling back to the entry's `name` first). */
  function FileName(content: Json, pact: Json): (r: string)
    ensures |r| >= 5 && r[|r| - 5..] == ".json"
  {
    var consumer := match StrAt(content, ["_links", "pb:consumer", "name"])
      case Some(c) => c
      case None => StrAt(pact, ["name"]).GetOr("unknown");
    var provider := StrAt(content, ["_links", "pb:provider", "name"]).GetOr("unknown");
    var version := StrAt(content, ["_links", "pb:consumer-version", "name"]).GetOr("unknown");
    consumer + ("-" + (provider + ("-" + (version + ".json"))))
  }

  lemma UnknownLiterals()
    ensures "-" + ("unknown" + ("-" + ("unknown" + ".json"))) == "-unknown-unknown.json"
    ensures "unknown" + "-unknown-unknown.json" == "unknown-unknown-unknown.json"
  {
  }

  function NameLink(name: string): Json {
    Obj([("name", Str(name))])
  }

  /** A pact whose links name its consumer, provider and consumer version. */
  function LinkedPact(consumer: string, provider: string, version: string): Json {
    Obj([("_links", Obj([("pb:consumer", NameLink(consumer)),
                         ("pb:provider", NameLink(provider)),
                         ("pb:consumer-version", NameLink(version))]))])
  }

  lemma NameLinkName(name: string)
    ensures Get(NameLink(name), "name") == Some(Str(name))
  {
  }

  /** A pact whose links carry all three names is saved as
      `consumer-provider-version.json`. */
  lemma FileNameOfLinkedPact(consumer: string, provider: string, version: string, pact: Json)
    ensures FileName(LinkedPact(consumer, provider, version), pact) ==
            consumer + "-" + provider + "-" + version + ".json"
  {
    var links := Obj([("pb:consumer", NameLink(consumer)),
                      ("pb:provider", NameLink(provider)),
                      ("pb:consumer-version", NameLink(version))]);
    Lookup3("pb:consumer", NameLink(consumer), "pb:provider", NameLink(provider), "pb:consumer-version", NameLink(version));
    var j := LinkedPact(consumer, provider, version);
    assert Get(j, "_links") == Some(links);
    NameLinkName(consumer);
    NameLinkName(provider);
    NameLinkName(version);
    assert StrAt(j, ["_links", "pb:consumer", "name"]) == Some(consumer);
    assert StrAt(j, ["_links", "pb:provider", "name"]) == Some(provider);
    assert StrAt(j, ["_links", "pb:consumer-version", "name"]) == Some(version);
    assert FileName(j, pact) == consumer + ("-" + (provider + ("-" + (version + ".json"))));
    NameRegroup(consumer, "-", provider, version, ".json");
  }

  lemma NameRegroup<T>(a: seq<T>, s: seq<T>, b: seq<T>, c: seq<T>, e: seq<T>)
    ensures a + (s + (b + (s + (c + e)))) == a + s + b + s + c + e
  {
  }

  /** A pact without links is named after the entry's `name`, or `unknown`. */
  lemma FileNameWithoutLinks(content: Json, pact: Json)
    requires Get(content, "_links").None?
    ensures StrAt(pact, ["name"]).Some? ==>
              FileName(content, pact) == StrAt(pact, ["name"]).value + "-unknown-unknown.json"
    ensures StrAt(pact, ["name"]).None? ==> FileName(content, pact) == "unknown-unknown-unknown.json"
  {
    assert StrAt(content, ["_links", "pb:consumer", "name"]).None?;
    assert StrAt(content, ["_links", "pb:provider", "name"]).None?;
    assert StrAt(content, ["_links", "pb:consumer-version", "name"]).None?;
    UnknownLiterals();
  }

  /** How many entries have a URL and are therefore fetched. */
  function Listed(entries: seq<Json>): (n: nat)
    ensures n <= |entries|
  {
    if |entries| == 0 then 0
    else (if PactUrl(entries[0]).Some? then 1 else 0) + Listed(entries[1..])
  }

  /** The fetch one entry makes: a GET of its URL, or none. */
  function FetchOf(entry: Json): (r: seq<Request>)
    ensures PactUrl(entry).None? ==> r == []
    ensures PactUrl(entry).Some? ==> r == [Request(GET, PactUrl(entry).value, None)]
  {
    match PactUrl(entry)
    case Some(url) => [Request(GET, url, None)]
    case None => []
  }

  /** The fetches a full download makes, in order. */
  function Fetches(entries: seq<Json>): (r: seq<Request>)
    ensures |r| == Listed(entries)
    ensures ReadOnly(r)
  {
    if |entries| == 0 then [] else FetchOf(entries[0]) + Fetches(entries[1..])
  }

  /** Writing one pact file: its name, or the write failure. */
  function Save(dir: DownloadDir, name: string): (r: Outcome<string, BrokerError>)
    ensures !r.Halted?
    ensures r.Ok? <==> dir.writeError(name).None?
    ensures r.Ok? ==> r.value == name
    ensures r.Err? ==> IsWriteFailure(r.error) && r.error == IoError(WriteFailed(name, dir.writeError(name).value))
  {
    match dir.writeError(name)
    case Some(e) => Err(IoError(WriteFailed(name, e)))
    case None => Ok(name)
  }

  /** One entry of the download: when it has a URL, the pact is fetched,
      named after its content and written. The value is the file name, or
      None for an entry without a URL. */
  function Step(broker: Broker, dir: DownloadDir, entry: Json): (r: Run<Option<string>>)
    ensures r.sent == FetchOf(entry)
    ensures PactUrl(entry).None? ==> r == Run(Ok(None), [])
    ensures PactUrl(entry).Some? ==> r.sent == [Request(GET, PactUrl(entry).value, None)]
    ensures r.outcome.Ok? && PactUrl(entry).Some? ==>
              broker(r.sent[0]).Ok? && r.outcome.value == Some(FileName(broker(r.sent[0]).value, entry)) &&
              dir.writeError(r.outcome.value.value).None?
    ensures r.outcome.Err? ==>
              |r.sent| == 1 &&
              (broker(r.sent[0]) == Err(r.outcome.error) || (broker(r.sent[0]).Ok? && IsWriteFailure(r.outcome.error)))
  {
    match PactUrl(entry)
    case None => Run(Ok(None), [])
    case Some(url) =>
      var fetched := Fetch(broker, url);
      match fetched.outcome
      case Err(e) => Run(Err(e), fetched.sent)
      case Halted(h) => Run(Halted(h), fetched.sent)
      case Ok(content) =>
        match Save(dir, FileName(content, entry))
        case Err(e) => Run(Err(e), fetched.sent)
        case Halted(h) => Run(Halted(h), fetched.sent)
        case Ok(name) => Run(Ok(Some(name)), fetched.sent)
  }

  /** The download loop: each entry with a URL is fetched, named and
      written; the first failed fetch or write ends the download with its
      error. Returns the file names. */
  function Download(broker: Broker, dir: DownloadDir, entries: seq<Json>): (r: Run<seq<string>>)
    ensures r.sent <= Fetches(entries)
    ensures r.outcome.Ok? ==> r.sent == Fetches(entries) && |r.outcome.value| == |Fetches(entries)|
    ensures r.outcome.Ok? ==> forall name :: name in r.outcome.value ==> dir.writeError(name).None?
    ensures r.outcome.Err? ==> |r.sent| > 0
    decreases |entries|
  {
    if |entries| == 0 then Run(Ok([]), [])
    else
      var step := Step(broker, dir, entries[0]);
      assert Fetches(entries) == step.sent + Fetches(entries[1..]);
      match step.outcome
      case Err(e) => Run(Err(e), step.sent)
      case Halted(h) => Run(Halted(h), step.sent)
      case Ok(found) =>
        var rest := Download(broker, dir, entries[1..]);
        PrefixAfter(step.sent, rest.sent, Fetches(entries[1..]));
        Prepend(found, step.sent, rest)
  }

  lemma PrefixAfter<T>(a: seq<T>, b: seq<T>, c: seq<T>)
    requires b <= c
    ensures a + b <= a + c
  {
    assert (a + c)[..|a + b|] == a + c[..|b|];
  }

  /** A finished step followed by the rest of the download: its requests
      come first, and its file name, if any, heads the rest's names. */
  function Prepend(found: Option<string>, sent: seq<Request>, rest: Run<seq<string>>): (r: Run<seq<string>>)
    ensures r.sent == sent + rest.sent
    ensures forall i :: 0 <= i < |rest.sent| ==> r.sent[|sent| + i] == rest.sent[i]
    ensures |rest.sent| > 0 ==> r.sent[|r.sent| - 1] == rest.sent[|rest.sent| - 1]
    ensures r.outcome.Ok? <==> rest.outcome.Ok?
    ensures r.outcome.Ok? ==> r.outcome.value == (if found.Some? then [found.value] else []) + rest.outcome.value
    ensures !r.outcome.Ok? ==> r.outcome == rest.outcome
  {
    var out := match rest.outcome
               case Ok(names) => Ok((if found.Some? then [found.value] else []) + names)
               case Err(e) => Err(e)
               case Halted(h) => Halted(h);
    Run(out, sent + rest.sent)
  }

  /** Every request but the last was answered successfully. */
  predicate EarlierOk(broker: Broker, sent: seq<Request>) {
    forall i :: 0 <= i < |sent| - 1 ==> broker(sent[i]).Ok?
  }

  /** An error of the run is the last request's own error, or the failed
      write of what that request returned. */
  ghost predicate FailedLast<T>(broker: Broker, r: Run<T>) {
    r.outcome.Err? ==>
      |r.sent| > 0 &&
      (broker(r.sent[|r.sent| - 1]) == Err(r.outcome.error) ||
       (broker(r.sent[|r.sent| - 1]).Ok? && IsWriteFailure(r.outcome.error)))
  }

  /** Successful requests put in front of a run keep both properties. */
  lemma PrependFailures(broker: Broker, found: Option<string>, sent: seq<Request>, rest: Run<seq<string>>)
    requires forall i :: 0 <= i < |sent| ==> broker(sent[i]).Ok?
    requires EarlierOk(broker, rest.sent) && FailedLast(broker, rest)
    ensures EarlierOk(broker, Prepend(found, sent, rest).sent) && FailedLast(broker, Prepend(found, sent, rest))
  {
    var r := Prepend(found, sent, rest);
    forall i | 0 <= i < |r.sent| - 1
      ensures broker(r.sent[i]).Ok?
    {
      if i >= |sent| {
        assert r.sent[i] == rest.sent[i - |sent|];
      }
    }
  }

  /** A download stops at its first failure: every fetch before the last
      request succeeded, and an error is the last fetch's own error or the
      failed write of the pact that fetch returned. */
  lemma {:induction false} DownloadFailures(broker: Broker, dir: DownloadDir, entries: seq<Json>)
    ensures EarlierOk(broker, Download(broker, dir, entries).sent)
    ensures FailedLast(broker, Download(broker, dir, entries))
    decreases |entries|
  {
    if |entries| > 0 {
      DownloadFailures(broker, dir, entries[1..]);
      var step := Step(broker, dir, entries[0]);
      var rest := Download(broker, dir, entries[1..]);
      if step.outcome.Ok? {
        assert Download(broker, dir, entries) == Prepend(step.outcome.value, step.sent, rest);
        PrependFailures(broker, step.outcome.value, step.sent, rest);
      } else {
        assert Download(broker, dir, entries).sent == step.sent;
      }
    }
  }

  /** `download_pacts`: the directory is created first; a failure there ends
      the command before anything is fetched. */
  function DownloadPacts(broker: Broker, dir: DownloadDir, data: Json): (r: Run<seq<string>>)
    ensures dir.createError.Some? ==> r == Run(Err(IoError(DirFailedPrefix + dir.createError.value)), [])
    ensures dir.createError.None? && DownloadSources(data).Err? ==>
              r.sent == [] && r.outcome == Err(ContentError("No pacts found to download"))
    ensures dir.createError.None? && DownloadSources(data).Ok? ==> r == Download(broker, dir, DownloadSources(data).value)
  {
    if dir.createError.Some? then Run(Err(IoError(DirFailedPrefix + dir.createError.value)), [])
    else
      match DownloadSources(data)
      case Ok(entries) => Download(broker, dir, entries)
      case Err(e) => Run(Err(e), [])
      case Halted(h) => Run(Halted(h), [])
  }

  // ---------------------------------------------------------------------------
  // The command

  /** What the command prints: the normalised response as JSON, or its table. */
  datatype PactsView = JsonView(data: Json) | TableView(table: Utils.Table)

  const TableHeader: seq<string> := ["CONSUMER", "TITLE", "LINK"]
  const TableColumns: seq<seq<string>> := [["name"], ["title"], ["href"]]

  /** The printed form of the normalised response for an output format:
      JSON for `json` and `pretty`, the pacts table otherwise. */
  function Render(data: Json, output: Types.OutputType): (r: Outcome<PactsView, BrokerError>)
    ensures !r.Err?
    ensures (output.Json? || output.Pretty?) ==> r == Ok(JsonView(data))
    ensures (output.Table? || output.Text?) ==>
              (r.Ok? <==> Utils.GenerateTable(data, TableHeader, TableColumns).Ok?) &&
              (r.Ok? ==> r.value == TableView(Utils.GenerateTable(data, TableHeader, TableColumns).value))
  {
    if output.Json? || output.Pretty? then Ok(JsonView(data))
    else
      match Utils.GenerateTable(data, TableHeader, TableColumns)
      case Ok(t) => Ok(TableView(t))
      case Err(e) => Err(e)
      case Halted(h) => Halted(h)
  }

  /** `get_pacts`. The first request follows the chosen relation; the
      downloads, when asked for, follow; nothing is written to the broker. */
  function GetPacts(broker: Broker, provider: string, consumer: Option<string>, branch: Option<string>,
                    latest: bool, output: Types.OutputType, download: bool, dir: DownloadDir, url: string): (r: Run<PactsView>)
    ensures |r.sent| >= 1 && ReadOnly(r.sent)
    ensures r.sent[0] == Request(GET, Hal.Expand(BuildPactsPath(provider, consumer, branch, latest).1,
                                                 TemplateParams(provider, consumer, branch)), None)
    ensures broker(r.sent[0]).Err? ==> r.sent == [r.sent[0]] && r.outcome == Err(broker(r.sent[0]).error)
    ensures !download ==> |r.sent| == 1
    ensures r.outcome.Ok? ==> broker(r.sent[0]).Ok? && r.outcome == Render(Normalise(broker(r.sent[0]).value), output)
  {
    var (relation, path) := BuildPactsPath(provider, consumer, branch, latest);
    var first := Request(GET, Hal.Expand(path, TemplateParams(provider, consumer, branch)), None);
    var fetched := Utils.FollowTemplatedBrokerRelation(broker, relation, path, TemplateParams(provider, consumer, branch), url);
    assert fetched.sent == [first];
    match fetched.outcome
    case Err(e) => Run(Err(e), [first])
    case Halted(h) => Run(Halted(h), [first])
    case Ok(result) =>
      var rest := DownloadAndRender(broker, Normalise(result), output, download, dir);
      Run(rest.outcome, [first] + rest.sent)
  }

  /** What follows the relation fetch: the downloads, when asked for, then
      the rendering. */
  function DownloadAndRender(broker: Broker, data: Json, output: Types.OutputType, download: bool, dir: DownloadDir): (r: Run<PactsView>)
    ensures ReadOnly(r.sent)
    ensures !download ==> r.sent == []
    ensures r.outcome.Ok? ==> r.outcome == Render(data, output)
    ensures download ==> r.sent == DownloadPacts(broker, dir, data).sent
  {
    var downloaded := if download then DownloadPacts(broker, dir, data) else Run(Ok([]), []);
    match downloaded.outcome
    case Err(e) => Run(Err(e), downloaded.sent)
    case Halted(h) => Run(Halted(h), downloaded.sent)
    case Ok(_) => Run(Render(data, output), downloaded.sent)
  }

  lemma SegmentsWithoutBraces(consumer: Option<string>, branch: Option<string>, latest: bool)
    requires consumer.Some? ==> '{' !in consumer.value
    requires branch.Some? ==> '{' !in branch.value
    ensures '{' !in "/pacts/provider/" && '{' !in "/branch"
    ensures '{' !in ConsumerSegment(consumer) && '{' !in BranchSegment(branch) && '{' !in LatestSegment(latest)
  {
  }

  /** When no name holds a brace, the relation is fetched at exactly the path
      built for it. */
  lemma PlainNamesFetchPath(provider: string, consumer: Option<string>, branch: Option<string>, latest: bool)
    requires '{' !in provider
    requires consumer.Some? ==> '{' !in consumer.value
    requires branch.Some? ==> '{' !in branch.value
    ensures Hal.Expand(BuildPactsPath(provider, consumer, branch, latest).1, TemplateParams(provider, consumer, branch)) ==
            BuildPactsPath(provider, consumer, branch, latest).1
  {
    var path := BuildPactsPath(provider, consumer, branch, latest).1;
    PactsPathShape(provider, consumer, branch, latest);
    SegmentsWithoutBraces(consumer, branch, latest);
    var front := "/pacts/provider/" + provider + ConsumerSegment(consumer);
    assert '{' !in front;
    assert '{' !in front + "/branch" + BranchSegment(branch);
    Hal.ExpandNoBrace(path, TemplateParams(provider, consumer, branch));
  }
}
