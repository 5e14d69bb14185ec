/** The PactFlow `publish-provider-contract` command
    (src/cli/pactflow/main/provider_contracts/publish.rs): the contract
    file, base64-encoded, with its specification and content type, optional
    self-verification results, the version, branch, tags and build URL,
    POSTed to the index's `pf:publish-provider-contract` relation with its
    `{provider}` placeholder filled in. */
module ProviderContracts {
  import opened Wrappers
  import opened Json
  import opened Errors
  import opened Client
  import Text
  import Utils

  /** The self-verification arguments. */
  datatype VerificationArgs = VerificationArgs(
    success: bool,
    results: Option<string>,
    contentType: Option<string>,
    format: Option<string>,
    verifier: Option<string>,
    verifierVersion: Option<string>)

  datatype PublishArgs = PublishArgs(
    provider: string,
    version: Option<string>,
    branch: Option<string>,
    tags: seq<string>,
    tagWithGitBranch: bool,
    buildUrl: Option<string>,
    specification: Option<string>,
    contentType: Option<string>,
    autoDetect: bool,
    verification: VerificationArgs)

  /** What git reports for the working copy: the commit and the branch. */
  datatype Git = Git(commit: string, branch: string)

  /** The command's result: the JSON value, or the exit code. */
  datatype Published = Published(outcome: Outcome<Json, int>, sent: seq<Request>)

  const DefaultSpecification := "oas"
  const DefaultContentType := "application/yaml"
  const ProviderPlaceholder := "{provider}"

  /** The version and branch after auto-detection: a value given on the
      command line is kept, a missing one is taken from git only when
      detection is on. */
  function Detected(a: PublishArgs, git: Git): (r: (Option<string>, Option<string>))
    ensures a.version.Some? ==> r.0 == a.version
    ensures a.branch.Some? ==> r.1 == a.branch
    ensures a.version.None? ==> r.0 == (if a.autoDetect then Some(git.commit) else None)
    ensures a.branch.None? ==> r.1 == (if a.autoDetect then Some(git.branch) else None)
  {
    if a.autoDetect then
      (if a.version.Some? then a.version else Some(git.commit),
       if a.branch.Some? then a.branch else Some(git.branch))
    else (a.version, a.branch)
  }

  /** Self-verification results are sent when results, a verifier or a
      verifier version is given. */
  predicate HasSelfResults(v: VerificationArgs) {
    v.results.Some? || v.verifier.Some? || v.verifierVersion.Some?
  }

  function Encoded(encode: string -> string, s: Option<string>): Option<string> {
    if s.Some? then Some(encode(s.value)) else None
  }

  function SelfResults(v: VerificationArgs, encode: string -> string): Json {
    Obj([("success", Bool(v.success))] + OptField("content", Encoded(encode, v.results))
        + OptField("contentType", v.contentType) + OptField("format", v.format)
        + OptField("verifier", v.verifier) + OptField("verifierVersion", v.verifierVersion))
  }

  function StrOf(v: Option<string>): Option<Json> {
    if v.Some? then Some(Str(v.value)) else None
  }

  lemma SelfResultsLookup(v: VerificationArgs, encode: string -> string, key: string)
    ensures Get(SelfResults(v, encode), key) ==
              if key == "success" then Some(Bool(v.success))
              else if key == "content" then StrOf(Encoded(encode, v.results))
              else if key == "contentType" then StrOf(v.contentType)
              else if key == "format" then StrOf(v.format)
              else if key == "verifier" then StrOf(v.verifier)
              else if key == "verifierVersion" then StrOf(v.verifierVersion)
              else None
  {
    var s := [("success", Bool(v.success))];
    var c := OptField("content", Encoded(encode, v.results));
    var t := OptField("contentType", v.contentType);
    var f := OptField("format", v.format);
    var w := OptField("verifier", v.verifier);
    var x := OptField("verifierVersion", v.verifierVersion);
    LookupConcat(s + c + t + f + w, x, key);
    LookupConcat(s + c + t + f, w, key);
    LookupConcat(s + c + t, f, key);
    LookupConcat(s + c, t, key);
    LookupConcat(s, c, key);
    LookupCons("success", Bool(v.success), [], key);
    OptFieldLookup("content", Encoded(encode, v.results), key);
    OptFieldLookup("contentType", v.contentType, key);
    OptFieldLookup("format", v.format, key);
    OptFieldLookup("verifier", v.verifier, key);
    OptFieldLookup("verifierVersion", v.verifierVersion, key);
  }

  /** The self-verification results read back: the outcome always, the
      results encoded, and each other field exactly when it was given. */
  lemma SelfResultsFields(v: VerificationArgs, encode: string -> string)
    ensures Get(SelfResults(v, encode), "success") == Some(Bool(v.success))
    ensures Get(SelfResults(v, encode), "content") == (if v.results.Some? then Some(Str(encode(v.results.value))) else None)
    ensures Get(SelfResults(v, encode), "contentType") == StrOf(v.contentType)
    ensures Get(SelfResults(v, encode), "format") == StrOf(v.format)
    ensures Get(SelfResults(v, encode), "verifier") == StrOf(v.verifier)
    ensures Get(SelfResults(v, encode), "verifierVersion") == StrOf(v.verifierVersion)
  {
    SelfResultsLookup(v, encode, "success");
    SelfResultsLookup(v, encode, "content");
    SelfResultsLookup(v, encode, "contentType");
    SelfResultsLookup(v, encode, "format");
    SelfResultsLookup(v, encode, "verifier");
    SelfResultsLookup(v, encode, "verifierVersion");
  }

  /** The `contract` object. */
  function ContractParams(a: PublishArgs, content: string, encode: string -> string): Json {
    Obj([("content", Str(encode(content))),
         ("specification", Str(a.specification.GetOr(DefaultSpecification))),
         ("contentType", Str(a.contentType.GetOr(DefaultContentType)))]
        + (if HasSelfResults(a.verification) then [("selfVerificationResults", SelfResults(a.verification, encode))] else []))
  }

  lemma ContractLookup(a: PublishArgs, content: string, encode: string -> string, key: string)
    ensures Get(ContractParams(a, content, encode), key) ==
              if key == "content" then Some(Str(encode(content)))
              else if key == "specification" then Some(Str(a.specification.GetOr(DefaultSpecification)))
              else if key == "contentType" then Some(Str(a.contentType.GetOr(DefaultContentType)))
              else if key == "selfVerificationResults" && HasSelfResults(a.verification) then Some(SelfResults(a.verification, encode))
              else None
  {
    var fixed := [("content", Str(encode(content))),
                  ("specification", Str(a.specification.GetOr(DefaultSpecification))),
                  ("contentType", Str(a.contentType.GetOr(DefaultContentType)))];
    var extra := if HasSelfResults(a.verification) then [("selfVerificationResults", SelfResults(a.verification, encode))] else [];
    LookupConcat(fixed, extra, key);
    assert fixed[1..] == fixed[1..][..2] && fixed[1..][1..] == [fixed[2]];
    LookupCons(fixed[0].0, fixed[0].1, fixed[1..], key);
    LookupCons(fixed[1].0, fixed[1].1, fixed[1..][1..], key);
    LookupCons(fixed[2].0, fixed[2].1, [], key);
    if HasSelfResults(a.verification) {
      LookupCons("selfVerificationResults", SelfResults(a.verification, encode), [], key);
    }
  }

  /** The contract read back: the encoded file, the specification and
      content type or their defaults, and the self-verification results
      exactly when results, a verifier or a verifier version was given. */
  lemma ContractFields(a: PublishArgs, content: string, encode: string -> string)
    ensures Get(ContractParams(a, content, encode), "content") == Some(Str(encode(content)))
    ensures Get(ContractParams(a, content, encode), "specification") ==
              Some(Str(if a.specification.Some? then a.specification.value else "oas"))
    ensures Get(ContractParams(a, content, encode), "contentType") ==
              Some(Str(if a.contentType.Some? then a.contentType.value else "application/yaml"))
    ensures Get(ContractParams(a, content, encode), "selfVerificationResults").Some? <==> HasSelfResults(a.verification)
    ensures HasSelfResults(a.verification) ==>
              Get(ContractParams(a, content, encode), "selfVerificationResults") == Some(SelfResults(a.verification, encode))
  {
    ContractLookup(a, content, encode, "content");
    ContractLookup(a, content, encode, "specification");
    ContractLookup(a, content, encode, "contentType");
    ContractLookup(a, content, encode, "selfVerificationResults");
  }

  /** The tags sent: the given ones, then git's branch when tagging with
      it; absent when there are neither. */
  function TagList(a: PublishArgs, git: Git): (r: Option<seq<string>>)
    ensures r.Some? <==> |a.tags| > 0 || a.tagWithGitBranch
    ensures r.Some? ==> |r.value| == |a.tags| + (if a.tagWithGitBranch then 1 else 0)
    ensures r.Some? ==> r.value[..|a.tags|] == a.tags
    ensures r.Some? && a.tagWithGitBranch ==> r.value[|a.tags|] == git.branch
  {
    if |a.tags| > 0 || a.tagWithGitBranch then
      Some(a.tags + (if a.tagWithGitBranch then [git.branch] else []))
    else None
  }

  function Strings(items: seq<string>): (r: seq<Json>)
    ensures |r| == |items| && forall i :: 0 <= i < |items| ==> r[i] == Str(items[i])
  {
    seq(|items|, i requires 0 <= i < |items| => Str(items[i]))
  }

  function TagsField(a: PublishArgs, git: Git): seq<(string, Json)> {
    match TagList(a, git)
    case Some(t) => [("tags", Arr(Strings(t)))]
    case None => []
  }

  /** The document POSTed, for the version and branch after detection. */
  function Payload(a: PublishArgs, version: string, branch: Option<string>, content: string,
                   git: Git, encode: string -> string): Json {
    Obj([("pacticipantVersionNumber", Str(version)), ("contract", ContractParams(a, content, encode))]
        + TagsField(a, git) + OptField("branch", branch) + OptField("buildUrl", a.buildUrl))
  }

  lemma PayloadLookup(a: PublishArgs, version: string, branch: Option<string>, content: string,
                      git: Git, encode: string -> string, key: string)
    ensures Get(Payload(a, version, branch, content, git, encode), key) ==
              if key == "pacticipantVersionNumber" then Some(Str(version))
              else if key == "contract" then Some(ContractParams(a, content, encode))
              else if key == "tags" && TagList(a, git).Some? then Some(Arr(Strings(TagList(a, git).value)))
              else if key == "branch" then StrOf(branch)
              else if key == "buildUrl" then StrOf(a.buildUrl)
              else None
  {
    var head := [("pacticipantVersionNumber", Str(version)), ("contract", ContractParams(a, content, encode))];
    var t := TagsField(a, git);
    var b := OptField("branch", branch);
    var u := OptField("buildUrl", a.buildUrl);
    LookupConcat(head + t + b, u, key);
    LookupConcat(head + t, b, key);
    LookupConcat(head, t, key);
    assert head[1..] == [head[1]];
    LookupCons(head[0].0, head[0].1, head[1..], key);
    LookupCons(head[1].0, head[1].1, [], key);
    if TagList(a, git).Some? {
      LookupCons("tags", Arr(Strings(TagList(a, git).value)), [], key);
    }
    OptFieldLookup("branch", branch, key);
    OptFieldLookup("buildUrl", a.buildUrl, key);
  }

  /** The document read back: the version, the contract, the tags exactly
      when there are any (in order, git's branch last), and the branch and
      build URL exactly when known. */
  lemma PayloadFields(a: PublishArgs, version: string, branch: Option<string>, content: string,
                      git: Git, encode: string -> string)
    ensures var p := Payload(a, version, branch, content, git, encode);
            Get(p, "pacticipantVersionNumber") == Some(Str(version)) &&
            Get(p, "contract") == Some(ContractParams(a, content, encode)) &&
            (Get(p, "tags").Some? <==> |a.tags| > 0 || a.tagWithGitBranch) &&
            (Get(p, "tags").Some? ==>
               Get(p, "tags").value.Arr? &&
               var items := Get(p, "tags").value.items;
               |items| == |a.tags| + (if a.tagWithGitBranch then 1 else 0) &&
               (forall i :: 0 <= i < |a.tags| ==> items[i] == Str(a.tags[i])) &&
               (a.tagWithGitBranch ==> items[|a.tags|] == Str(git.branch))) &&
            Get(p, "branch") == StrOf(branch) &&
            Get(p, "buildUrl") == StrOf(a.buildUrl)
  {
    PayloadLookup(a, version, branch, content, git, encode, "pacticipantVersionNumber");
    PayloadLookup(a, version, branch, content, git, encode, "contract");
    PayloadLookup(a, version, branch, content, git, encode, "tags");
    PayloadLookup(a, version, branch, content, git, encode, "branch");
    PayloadLookup(a, version, branch, content, git, encode, "buildUrl");
    if TagList(a, git).Some? {
      var t := TagList(a, git).value;
      forall i | 0 <= i < |a.tags|
        ensures Strings(t)[i] == Str(a.tags[i])
      {
        assert t[..|a.tags|][i] == t[i];
      }
    }
  }

  /** Once the relation is known: the version is required (a missing one
      panics before the POST), and the command returns `{}` whatever the
      POST answers. */
  function PostContract(broker: Broker, href: string, a: PublishArgs, content: string,
                        git: Git, encode: string -> string): (r: Published)
    ensures Detected(a, git).0.None? ==> r.outcome.Halted? && r.sent == []
    ensures Detected(a, git).0.Some? ==>
              var post := Request(POST, Text.ReplaceAll(href, ProviderPlaceholder, a.provider),
                                  Some(Payload(a, Detected(a, git).0.value, Detected(a, git).1, content, git, encode)));
              r.sent == [post] &&
              (!broker(post).Halted? ==> r.outcome == Ok(Obj([])))
  {
    var (version, branch) := Detected(a, git);
    match version
    case None => Published(Halted(Panic("publish: provider_app_version unwrap")), [])
    case Some(v) =>
      var post := Request(POST, Text.ReplaceAll(href, ProviderPlaceholder, a.provider),
                          Some(Payload(a, v, branch, content, git, encode)));
      match broker(post)
      case Halted(h) => Published(Halted(h), [post])
      case _ => Published(Ok(Obj([])), [post])
  }

  /** `publish`: an unreadable contract file gives exit code 1 before any
      request; a failed relation lookup is reported and the process exits
      with status 1; otherwise `PostContract`. */
  function Publish(broker: Broker, a: PublishArgs, contract: Option<string>, git: Git,
                   encode: string -> string): (r: Published)
    ensures contract.None? ==> r == Published(Err(1), [])
    ensures contract.Some? ==> |r.sent| >= 1 && r.sent[0] == Request(GET, "/", None)
    ensures contract.Some? && Utils.GetBrokerRelation(broker, "pf:publish-provider-contract").outcome.Err? ==>
              r == Published(Halted(Exit(1)), [Request(GET, "/", None)])
    ensures contract.Some? && Utils.GetBrokerRelation(broker, "pf:publish-provider-contract").outcome.Ok? ==>
              var p := PostContract(broker, Utils.GetBrokerRelation(broker, "pf:publish-provider-contract").outcome.value,
                                    a, contract.value, git, encode);
              r == Published(p.outcome, [Request(GET, "/", None)] + p.sent)
  {
    match contract
    case None => Published(Err(1), [])
    case Some(content) =>
      var rel := Utils.GetBrokerRelation(broker, "pf:publish-provider-contract");
      match rel.outcome
      case Err(e) => Published(Halted(Utils.HandleError<Json>(e).halt), rel.sent)
      case Halted(h) => Published(Halted(h), rel.sent)
      case Ok(href) =>
        var p := PostContract(broker, href, a, content, git, encode);
        Published(p.outcome, rel.sent + p.sent)
  }

  /** For a relation written `<prefix>{provider}<suffix>`, as the index
      gives it, the contract is POSTed to the provider's own URL. */
  lemma PostTargetsProvider(prefix: string, suffix: string, provider: string)
    requires '{' !in prefix && '{' !in suffix
    ensures Text.ReplaceAll(prefix + ProviderPlaceholder + suffix, ProviderPlaceholder, provider) == prefix + provider + suffix
  {
    Text.ReplaceOne(prefix, suffix, ProviderPlaceholder, provider);
  }

  /** Once the relation is found, the result does not depend on what the
      POST answered, short of a halt: the failure is only printed. */
  lemma PostFailureIsIgnored(broker: Broker, a: PublishArgs, content: string, git: Git, encode: string -> string)
    requires Utils.GetBrokerRelation(broker, "pf:publish-provider-contract").outcome.Ok?
    requires Detected(a, git).0.Some?
    requires forall q: Request :: q.verb == POST ==> !broker(q).Halted?
    ensures var r := Publish(broker, a, Some(content), git, encode);
            r.outcome == Ok(Obj([])) && |r.sent| == 2 && r.sent[1].verb == POST
  {
    var href := Utils.GetBrokerRelation(broker, "pf:publish-provider-contract").outcome.value;
    var p := PostContract(broker, href, a, content, git, encode);
    assert |p.sent| == 1 && p.sent[0].verb == POST;
  }
}
