/** The `list-provider-states` command
    (src/cli/pact_broker/main/provider_states/list.rs): the path for the
    chosen scope, the argument checks, the decoding of the broker's answer and
    its two output forms. */
module ProviderStates {
  import opened Wrappers
  import opened Json
  import opened Errors
  import opened Client
  import Text
  import Percent
  import Types

  // ---------------------------------------------------------------------------
  // Path

  /** `build_provider_states_path`: the provider's states, narrowed to a branch
      or an environment when exactly one of them is given; names are
      percent-encoded. */
  function BuildProviderStatesPath(provider: string, branch: Option<string>, environment: Option<string>): string {
    var base := "/pacts/provider/" + Percent.Encode(provider) + "/provider-states";
    match (branch, environment)
    case (Some(b), None) => base + "/branch/" + Percent.Encode(b)
    case (None, Some(e)) => base + "/environment/" + Percent.Encode(e)
    case _ => base
  }

  lemma ScopeLiterals()
    ensures "/branch/" == "/" + "branch" + "/"
    ensures "/environment/" == "/" + "environment" + "/"
  {
  }

  lemma Scoped(x: string, key: string, y: string)
    ensures x + ("/" + key + "/") + y == x + "/" + key + "/" + y
  {
  }

  /** The path's segments between slashes, as the broker reads them. */
  function Segments(provider: string, branch: Option<string>, environment: Option<string>): (r: seq<string>)
    ensures |r| >= 5
  {
    ["", "pacts", "provider", Percent.Encode(provider), "provider-states"] +
    match (branch, environment)
    case (Some(b), None) => ["branch", Percent.Encode(b)]
    case (None, Some(e)) => ["environment", Percent.Encode(e)]
    case _ => []
  }

  lemma JoinSlash(a: string, parts: seq<string>)
    requires |parts| >= 1
    ensures Text.Join([a] + parts, "/") == a + "/" + Text.Join(parts, "/")
  {
    Text.DropPrefix([a], parts);
  }

  lemma BaseJoin(p: string)
    ensures Text.Join(["", "pacts", "provider", p, "provider-states"], "/") ==
            "/pacts/provider/" + p + "/provider-states"
  {
    var j4 := Text.Join(["provider-states"], "/");
    var j3 := Text.Join([p, "provider-states"], "/");
    var j2 := Text.Join(["provider", p, "provider-states"], "/");
    var j1 := Text.Join(["pacts", "provider", p, "provider-states"], "/");
    var j0 := Text.Join(["", "pacts", "provider", p, "provider-states"], "/");
    Text.Split5("", "pacts", "provider", p, "provider-states");
    JoinSlash(p, ["provider-states"]);
    assert j3 == p + "/" + "provider-states";
    JoinSlash("provider", [p, "provider-states"]);
    assert j2 == "provider" + "/" + j3;
    JoinSlash("pacts", ["provider", p, "provider-states"]);
    assert j1 == "pacts" + "/" + j2;
    JoinSlash("", ["pacts", "provider", p, "provider-states"]);
    assert j0 == "" + "/" + j1;
    Regroup("", "/", "pacts", "provider", p, "provider-states");
    PrefixLiteral();
  }

  lemma PrefixLiteral()
    ensures "" + "/" + "pacts" + "/" + "provider" + "/" == "/pacts/provider/"
  {
  }

  lemma Regroup<T>(a: seq<T>, s: seq<T>, b: seq<T>, c: seq<T>, d: seq<T>, e: seq<T>)
    ensures a + s + (b + s + (c + s + (d + s + e))) == a + s + b + s + c + s + d + s + e
  {
  }

  lemma {:induction false} JoinAppend(parts: seq<string>, a: string, b: string)
    requires |parts| >= 1
    ensures Text.Join(parts + [a, b], "/") == Text.Join(parts, "/") + "/" + a + "/" + b
    decreases |parts|
  {
    if |parts| == 1 {
      JoinSlash(parts[0], [a, b]);
      JoinSlash(a, [b]);
      Text.Single(parts);
      Text.Pair(a, b);
    } else {
      JoinAppend(parts[1..], a, b);
      JoinSlash(parts[0], parts[1..] + [a, b]);
      JoinSlash(parts[0], parts[1..]);
      Text.HeadTail(parts);
      Text.AppendAssoc([parts[0]], parts[1..], [a, b]);
    }
  }

  /** The path is its segments joined with `/`. */
  lemma PathIsJoin(provider: string, branch: Option<string>, environment: Option<string>)
    ensures BuildProviderStatesPath(provider, branch, environment) == Text.Join(Segments(provider, branch, environment), "/")
  {
    var base: seq<string> := ["", "pacts", "provider", Percent.Encode(provider), "provider-states"];
    BaseJoin(Percent.Encode(provider));
    match (branch, environment)
    case (Some(b), None) =>
      JoinAppend(base, "branch", Percent.Encode(b));
      ScopeLiterals();
      Scoped(Text.Join(base, "/"), "branch", Percent.Encode(b));
    case (None, Some(e)) =>
      JoinAppend(base, "environment", Percent.Encode(e));
      ScopeLiterals();
      Scoped(Text.Join(base, "/"), "environment", Percent.Encode(e));
    case _ =>
      assert Segments(provider, branch, environment) == base;
  }

  /** Splitting the path at `/` gives back its segments, so the provider, and
      the branch or environment, can be read back from it. */
  lemma SplitProviderStatesPath(provider: string, branch: Option<string>, environment: Option<string>)
    ensures Text.Split(BuildProviderStatesPath(provider, branch, environment), '/') == Segments(provider, branch, environment)
  {
    var segs := Segments(provider, branch, environment);
    Percent.EncodedHasNoDelimiters(provider);
    if branch.Some? {
      Percent.EncodedHasNoDelimiters(branch.value);
    }
    if environment.Some? {
      Percent.EncodedHasNoDelimiters(environment.value);
    }
    assert forall i :: 0 <= i < |segs| ==> '/' !in segs[i];
    PathIsJoin(provider, branch, environment);
    Text.SplitJoin(segs, '/');
  }

  /** The provider's segment decodes to the provider's UTF-8 text. */
  lemma ProviderSegmentDecodes(provider: string, branch: Option<string>, environment: Option<string>)
    ensures Percent.DecodeBytes(Segments(provider, branch, environment)[3]) == Some(Percent.Utf8Text(provider))
  {
    Percent.DecodeEncode(Percent.Utf8Text(provider));
  }

  /** The scope segments appear exactly when one of branch or environment is given. */
  lemma ScopeSegments(provider: string, branch: Option<string>, environment: Option<string>)
    ensures |Segments(provider, branch, environment)| == 7 <==> branch.Some? != environment.Some?
    ensures branch.Some? && environment.None? ==>
              Segments(provider, branch, environment)[5] == "branch" &&
              Percent.DecodeBytes(Segments(provider, branch, environment)[6]) == Some(Percent.Utf8Text(branch.value))
    ensures branch.None? && environment.Some? ==>
              Segments(provider, branch, environment)[5] == "environment" &&
              Percent.DecodeBytes(Segments(provider, branch, environment)[6]) == Some(Percent.Utf8Text(environment.value))
  {
    if branch.Some? {
      Percent.DecodeEncode(Percent.Utf8Text(branch.value));
    }
    if environment.Some? {
      Percent.DecodeEncode(Percent.Utf8Text(environment.value));
    }
  }

  // ---------------------------------------------------------------------------
  // Response

  /** `ProviderState`: the consumers relying on a state, its name and its parameters. */
  datatype ProviderState = ProviderState(consumers: seq<string>, name: string, params: Option<Json>)

  /** An optional field: missing and null both read as None. */
  function Optional(j: Json, key: string): Option<Json> {
    match Get(j, key)
    case None => None
    case Some(Null) => None
    case Some(v) => Some(v)
  }

  function DecodeState(j: Json): Option<ProviderState> {
    match (Get(j, "consumers"), Get(j, "name"))
    case (Some(Arr(cs)), Some(Str(n))) =>
      (match DecodeStrings(cs)
       case Some(names) => Some(ProviderState(names, n, Optional(j, "params")))
       case None => None)
    case _ => None
  }

  function DecodeStates(items: seq<Json>): (r: Option<seq<ProviderState>>)
    ensures r.Some? ==> |r.value| == |items|
  {
    if |items| == 0 then Some([])
    else match (DecodeState(items[0]), DecodeStates(items[1..]))
      case (Some(s), Some(rest)) => Some([s] + rest)
      case _ => None
  }

  /** `ProviderStatesResponse` read from the body: a `providerStates` array of states. */
  function DecodeResponse(j: Json): (r: Option<seq<ProviderState>>)
    ensures r.Some? ==> Get(j, "providerStates").Some? && Get(j, "providerStates").value.Arr? &&
                        |r.value| == |Get(j, "providerStates").value.items|
  {
    match Get(j, "providerStates")
    case Some(Arr(items)) => DecodeStates(items)
    case _ => None
  }

  /** Writing the response back: the fields in declaration order, `params`
      only when present. */
  function StateJson(s: ProviderState): Json {
    match s.params
    case None => Obj([("consumers", Arr(StringsJson(s.consumers))), ("name", Str(s.name))])
    case Some(p) => Obj([("consumers", Arr(StringsJson(s.consumers))), ("name", Str(s.name)), ("params", p)])
  }

  function StatesJson(states: seq<ProviderState>): (r: seq<Json>)
    ensures |r| == |states|
  {
    if |states| == 0 then [] else [StateJson(states[0])] + StatesJson(states[1..])
  }

  function ResponseJson(states: seq<ProviderState>): Json {
    Obj([("providerStates", Arr(StatesJson(states)))])
  }

  /** A state as decoding produces it: parameters, when present, are not null. */
  predicate Decodable(s: ProviderState) {
    s.params != Some(Null)
  }

  lemma DecodeStateJson(s: ProviderState)
    requires Decodable(s)
    ensures DecodeState(StateJson(s)) == Some(s)
  {
    DecodeStringsJson(s.consumers);
    var cs := Arr(StringsJson(s.consumers));
    var j := StateJson(s);
    StateFields(s);
    assert Get(j, "consumers") == Some(cs) && Get(j, "name") == Some(Str(s.name));
    assert Optional(j, "params") == s.params;
  }

  /** The fields a written state reads back with. */
  lemma StateFields(s: ProviderState)
    requires Decodable(s)
    ensures Get(StateJson(s), "consumers") == Some(Arr(StringsJson(s.consumers)))
    ensures Get(StateJson(s), "name") == Some(Str(s.name))
    ensures Get(StateJson(s), "params") == s.params
  {
    var cs := Arr(StringsJson(s.consumers));
    match s.params
    case None =>
      Lookup2("consumers", cs, "name", Str(s.name));
      assert Lookup([("consumers", cs), ("name", Str(s.name))], "params").None?;
    case Some(p) =>
      Lookup3("consumers", cs, "name", Str(s.name), "params", p);
  }

  lemma {:induction false} DecodeStatesJson(states: seq<ProviderState>)
    requires forall i :: 0 <= i < |states| ==> Decodable(states[i])
    ensures DecodeStates(StatesJson(states)) == Some(states)
  {
    var items := StatesJson(states);
    if |states| > 0 {
      DecodeStateJson(states[0]);
      forall i | 0 <= i < |states[1..]|
        ensures Decodable(states[1..][i])
      {
        assert states[1..][i] == states[i + 1];
      }
      DecodeStatesJson(states[1..]);
      assert items[0] == StateJson(states[0]) && items[1..] == StatesJson(states[1..]);
      assert states == [states[0]] + states[1..];
    }
  }

  /** Decoding reads back every response written as above. */
  lemma DecodeResponseJson(states: seq<ProviderState>)
    requires forall i :: 0 <= i < |states| ==> Decodable(states[i])
    ensures DecodeResponse(ResponseJson(states)) == Some(states)
  {
    DecodeStatesJson(states);
  }

  lemma {:induction false} DecodedStatesDecodable(items: seq<Json>)
    requires DecodeStates(items).Some?
    ensures forall i :: 0 <= i < |items| ==> Decodable(DecodeStates(items).value[i])
  {
    if |items| > 0 {
      DecodedStatesDecodable(items[1..]);
      assert DecodeStates(items).value == [DecodeState(items[0]).value] + DecodeStates(items[1..]).value;
    }
  }

  /** The JSON output is a normal form: reading it again gives the same states. */
  lemma JsonOutputStable(j: Json)
    requires DecodeResponse(j).Some?
    ensures DecodeResponse(ResponseJson(DecodeResponse(j).value)) == DecodeResponse(j)
  {
    DecodedStatesDecodable(Get(j, "providerStates").value.items);
    DecodeResponseJson(DecodeResponse(j).value);
  }

  // ---------------------------------------------------------------------------
  // Output

  /** The line naming the scope: the branch, else the environment, else the main branch. */
  function ScopeLine(branch: Option<string>, environment: Option<string>): string {
    match (branch, environment)
    case (Some(b), _) => "Branch: " + b + "\n"
    case (None, Some(e)) => "Environment: " + e + "\n"
    case (None, None) => "Scope: Main branch\n"
  }

  function Heading(provider: string, branch: Option<string>, environment: Option<string>): string {
    "Provider States for Provider: " + provider + "\n" + ScopeLine(branch, environment) + "\n"
  }

  const NoStatesMessage := "No provider states found.\n"

  /** The row of a state: its name, its consumers joined with ", ", and its
      parameters as JSON text or empty. */
  function StateRow(s: ProviderState): (row: seq<string>)
    ensures |row| == 3 && row[0] == s.name
    ensures |s.consumers| == 1 ==> row[1] == s.consumers[0]
    ensures s.params.None? <==> row[2] == ""
  {
    [s.name, Text.Join(s.consumers, ", "), match s.params case None => "" case Some(p) => ToText(p)]
  }

  /** `format_table_output`: the text before the table and the table's rows.
      Without states the text ends with a notice and there is no table. */
  function FormatTable(states: seq<ProviderState>, provider: string, branch: Option<string>,
                       environment: Option<string>): (r: (string, seq<seq<string>>))
    ensures Text.StartsWith(r.0, "Provider States for Provider: " + provider + "\n")
    ensures |states| == 0 ==> r.1 == [] && r.0 == Heading(provider, branch, environment) + NoStatesMessage
    ensures |states| > 0 ==> r.0 == Heading(provider, branch, environment) && |r.1| == |states|
    ensures forall i :: 0 <= i < |r.1| ==> r.1[i] == StateRow(states[i])
  {
    var heading := Heading(provider, branch, environment);
    assert heading == ("Provider States for Provider: " + provider + "\n") + (ScopeLine(branch, environment) + "\n");
    if |states| == 0 then (heading + NoStatesMessage, [])
    else (heading, seq(|states|, i requires 0 <= i < |states| => StateRow(states[i])))
  }

  /** The scope line names exactly one of branch, environment and main branch,
      the branch taking precedence. */
  lemma ScopeLineCases(branch: Option<string>, environment: Option<string>)
    ensures Text.StartsWith(ScopeLine(branch, environment), "Branch: ") <==> branch.Some?
    ensures Text.StartsWith(ScopeLine(branch, environment), "Environment: ") <==> branch.None? && environment.Some?
    ensures ScopeLine(branch, environment) == "Scope: Main branch\n" <==> branch.None? && environment.None?
  {
    var l := ScopeLine(branch, environment);
    if branch.Some? {
      assert l[..8] == "Branch: ";
      assert l[0] == 'B';
    } else if environment.Some? {
      assert l[..13] == "Environment: ";
      assert l[0] == 'E';
    } else {
      assert l[0] == 'S';
    }
  }

  // ---------------------------------------------------------------------------
  // The command

  datatype StatesView = JsonView(json: Json) | TableView(text: string, rows: seq<seq<string>>)

  const ProviderRequired := "Provider name is required"
  const BothScopes := "Cannot specify both branch and environment. Please specify only one."

  /** `list_provider_states`: one GET of the path, then the output chosen by
      format (`json` and `pretty` give JSON, `table` and `text` the table). */
  function ListProviderStates(broker: Broker, provider: string, branch: Option<string>,
                              environment: Option<string>, output: Types.OutputType): (r: Run<StatesView>)
    ensures r.sent == [Request(GET, BuildProviderStatesPath(provider, branch, environment), None)]
    ensures broker(r.sent[0]).Err? ==> r.outcome == Err(broker(r.sent[0]).error)
    ensures broker(r.sent[0]).Ok? && DecodeResponse(broker(r.sent[0]).value).None? ==>
              r.outcome == Err(ContentError("Failed to parse response"))
    ensures r.outcome.Ok? ==>
              broker(r.sent[0]).Ok? && DecodeResponse(broker(r.sent[0]).value).Some? &&
              var states := DecodeResponse(broker(r.sent[0]).value).value;
              (output.Json? || output.Pretty? ==> r.outcome.value == JsonView(ResponseJson(states))) &&
              (output.Table? || output.Text? ==>
                 r.outcome.value == TableView(FormatTable(states, provider, branch, environment).0,
                                              FormatTable(states, provider, branch, environment).1))
  {
    var fetched := Fetch(broker, BuildProviderStatesPath(provider, branch, environment));
    var outcome := match fetched.outcome
      case Err(e) => Err(e)
      case Halted(h) => Halted(h)
      case Ok(j) =>
        match DecodeResponse(j)
        case None => Err(ContentError("Failed to parse response"))
        case Some(states) =>
          if output.Json? || output.Pretty? then Ok(JsonView(ResponseJson(states)))
          else
            var t := FormatTable(states, provider, branch, environment);
            Ok(TableView(t.0, t.1));
    Run(outcome, fetched.sent)
  }

  /** `handle_list_provider_states_command`: a missing provider, or both a
      branch and an environment, is rejected before any request; `--json`
      picks the JSON output, the table otherwise. */
  function HandleListProviderStates(broker: Broker, provider: Option<string>, branch: Option<string>,
                                    environment: Option<string>, json: bool): (r: Run<StatesView>)
    ensures provider.None? ==> r == Run(Err(ValidationError([ProviderRequired])), [])
    ensures provider.Some? && branch.Some? && environment.Some? ==> r == Run(Err(ValidationError([BothScopes])), [])
    ensures r.sent != [] <==> provider.Some? && !(branch.Some? && environment.Some?)
    ensures provider.Some? && !(branch.Some? && environment.Some?) ==>
              r == ListProviderStates(broker, provider.value, branch, environment,
                                      if json then Types.OutputType.Json else Types.OutputType.Table)
    ensures r.outcome.Ok? ==> (r.outcome.value.JsonView? <==> json)
  {
    match provider
    case None => Run(Err(ValidationError([ProviderRequired])), [])
    case Some(p) =>
      if branch.Some? && environment.Some? then Run(Err(ValidationError([BothScopes])), [])
      else ListProviderStates(broker, p, branch, environment,
                              if json then Types.OutputType.Json else Types.OutputType.Table)
  }
}
