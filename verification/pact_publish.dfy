/** Publishing pact files (src/cli/pact_broker/main/pact_publish.rs).

    Files are loaded all-or-nothing, optionally validated, grouped by their
    consumer/provider pair with the interactions of later files appended to
    the first file's, and each group is posted to the broker's
    `pb:publish-contracts` relation. Reading files, parsing pacts, base64 and
    git are foreign: they reach the model as values and function parameters.
 */
module PactPublish {
  import opened Wrappers
  import opened Json
  import opened Errors
  import opened Client
  import Utils
  import Verification

  // ---------------------------------------------------------------------------
  // Loading files

  /** A directory entry: its file name, whether it is a regular file, and its
      content when it could be read and parsed. */
  datatype DirEntry = DirEntry(name: string, isFile: bool, content: Option<Json>)

  /** One result of a glob: a matched path with its content, or an entry the
      glob could not read. */
  datatype GlobEntry = Matched(path: string, content: Option<Json>) | Unreadable

  /** A command-line input: an existing file, an existing directory (whose
      listing fails as a whole), or a glob pattern (which may be invalid). */
  datatype Input =
    | FileInput(path: string, content: Option<Json>)
    | DirInput(path: string, listing: Option<seq<DirEntry>>)
    | PatternInput(pattern: string, matches: Option<seq<GlobEntry>>)

  /** The position of the last `.` in a name. */
  function LastDot(s: string): (r: Option<nat>)
    ensures r.Some? ==> r.value < |s| && s[r.value] == '.' &&
                        forall k :: r.value < k < |s| ==> s[k] != '.'
    ensures r.None? ==> forall k :: 0 <= k < |s| ==> s[k] != '.'
  {
    if |s| == 0 then None
    else if s[|s| - 1] == '.' then Some(|s| - 1)
    else LastDot(s[..|s| - 1])
  }

  /** `Path::extension` of a file name: the text after the last `.`, unless
      there is none or the only dot starts the name (a hidden file), and
      never for `..`. */
  function Extension(name: string): (r: Option<string>)
    ensures r.Some? ==> '.' !in r.value
  {
    match LastDot(name)
    case None => None
    case Some(k) =>
      if k == 0 || name == ".." then None
      else
        var ext := name[k + 1..];
        assert forall c | c in ext :: c != '.' by {
          forall c | c in ext ensures c != '.' {
            var m :| 0 <= m < |ext| && ext[m] == c;
            assert ext[m] == name[k + 1 + m];
          }
        }
        Some(ext)
  }

  /** A directory entry that `load_files_from_dir` loads. */
  predicate Selected(e: DirEntry) {
    e.isFile && Extension(e.name) == Some("json")
  }

  /** A name has the `json` extension exactly when it ends in `.json` after at
      least one other character. */
  lemma JsonExtension(name: string)
    ensures Extension(name) == Some("json") <==> |name| > 5 && name[|name| - 5..] == ".json"
  {
    if Extension(name) == Some("json") {
      var k := LastDot(name).value;
      assert name[k + 1..] == "json";
      assert k == |name| - 5;
      assert name[|name| - 5..] == [name[k]] + name[k + 1..];
    }
    if |name| > 5 && name[|name| - 5..] == ".json" {
      assert name[|name| - 5] == '.';
      var d := LastDot(name);
      assert d.Some?;
      var k := d.value;
      assert k >= |name| - 5;
      assert name[|name| - 4] == 'j' && name[|name| - 3] == 's';
      assert name[|name| - 2] == 'o' && name[|name| - 1] == 'n';
      assert k == |name| - 5;
      assert name[k + 1..] == "json";
    }
  }

  /** Every source with its content, when all loaded; None when any failed. */
  function AllLoaded(items: seq<(string, Option<Json>)>): (r: Option<seq<(string, Json)>>)
    ensures r.Some? <==> forall i :: 0 <= i < |items| ==> items[i].1.Some?
    ensures r.Some? ==> |r.value| == |items| &&
                        forall i :: 0 <= i < |items| ==> r.value[i] == (items[i].0, items[i].1.value)
  {
    if |items| == 0 then Some([])
    else match (items[0].1, AllLoaded(items[1..]))
      case (Some(j), Some(rest)) =>
        var r := [(items[0].0, j)] + rest;
        assert forall i :: 1 <= i < |items| ==> items[i] == items[1..][i - 1];
        Some(r)
      case (None, _) => None
      case (_, None) =>
        assert forall i :: 0 <= i < |items| - 1 ==> items[1..][i] == items[i + 1];
        None
  }

  /** The selected entries of a directory, by file name. */
  function DirSources(entries: seq<DirEntry>): (r: seq<(string, Option<Json>)>)
    ensures |r| <= |entries|
  {
    if |entries| == 0 then []
    else if Selected(entries[0]) then [(entries[0].name, entries[0].content)] + DirSources(entries[1..])
    else DirSources(entries[1..])
  }

  /** The source is the name and content of a selected entry. */
  predicate FromSelected(entries: seq<DirEntry>, x: (string, Option<Json>)) {
    exists j :: 0 <= j < |entries| && Selected(entries[j]) && x == (entries[j].name, entries[j].content)
  }

  /** The sources of a directory are exactly its selected entries. */
  lemma {:induction false} DirSourcesSelected(entries: seq<DirEntry>)
    ensures forall i :: 0 <= i < |DirSources(entries)| ==> FromSelected(entries, DirSources(entries)[i])
    ensures forall j :: 0 <= j < |entries| && Selected(entries[j]) ==> (entries[j].name, entries[j].content) in DirSources(entries)
  {
    if |entries| > 0 {
      var tail := entries[1..];
      var rest := DirSources(tail);
      DirSourcesSelected(tail);
      var r := DirSources(entries);
      assert r == if Selected(entries[0]) then [(entries[0].name, entries[0].content)] + rest else rest;
      forall i | 0 <= i < |r|
        ensures FromSelected(entries, r[i])
      {
        if Selected(entries[0]) && i == 0 {
          assert Selected(entries[0]) && r[0] == (entries[0].name, entries[0].content);
        } else {
          var m := if Selected(entries[0]) then i - 1 else i;
          assert r[i] == rest[m];
          assert FromSelected(tail, rest[m]);
          var j :| 0 <= j < |tail| && Selected(tail[j]) && rest[m] == (tail[j].name, tail[j].content);
          assert tail[j] == entries[j + 1];
          assert Selected(entries[j + 1]) && r[i] == (entries[j + 1].name, entries[j + 1].content);
        }
      }
      forall j | 0 <= j < |entries| && Selected(entries[j])
        ensures (entries[j].name, entries[j].content) in r
      {
        if j > 0 {
          assert entries[j] == tail[j - 1];
          assert (entries[j].name, entries[j].content) in rest;
        } else {
          assert r[0] == (entries[0].name, entries[0].content);
        }
      }
    }
  }

  /** The file is the name and content of a selected entry. */
  predicate LoadedFromSelected(entries: seq<DirEntry>, f: (string, Json)) {
    exists j :: 0 <= j < |entries| && Selected(entries[j]) && entries[j].name == f.0 && entries[j].content == Some(f.1)
  }

  /** `load_files_from_dir`: the selected files, all or nothing. */
  function LoadDir(listing: Option<seq<DirEntry>>): (r: Option<seq<(string, Json)>>)
    ensures r.Some? <==> listing.Some? &&
                         forall j :: 0 <= j < |listing.value| && Selected(listing.value[j]) ==> listing.value[j].content.Some?
    ensures r.Some? ==> forall i :: 0 <= i < |r.value| ==> LoadedFromSelected(listing.value, r.value[i])
    ensures r.Some? ==> forall j :: 0 <= j < |listing.value| && Selected(listing.value[j]) ==>
                          (listing.value[j].name, listing.value[j].content.value) in r.value
  {
    match listing
    case None => None
    case Some(entries) =>
      DirLoaded(entries);
      DirFilesSelected(entries);
      AllLoaded(DirSources(entries))
  }

  /** When the directory loads, its files are exactly its selected entries. */
  lemma DirFilesSelected(entries: seq<DirEntry>)
    ensures var r := AllLoaded(DirSources(entries));
            r.Some? ==> forall j :: 0 <= j < |entries| && Selected(entries[j]) ==> entries[j].content.Some?
    ensures var r := AllLoaded(DirSources(entries));
            r.Some? ==> (forall i :: 0 <= i < |r.value| ==> LoadedFromSelected(entries, r.value[i])) &&
                        forall j :: 0 <= j < |entries| && Selected(entries[j]) ==>
                          (entries[j].name, entries[j].content.value) in r.value
  {
    var src := DirSources(entries);
    var r := AllLoaded(src);
    if r.Some? {
      DirLoaded(entries);
      DirSourcesSelected(entries);
      forall i | 0 <= i < |r.value| ensures LoadedFromSelected(entries, r.value[i]) {
        assert r.value[i] == (src[i].0, src[i].1.value);
        assert FromSelected(entries, src[i]);
      }
      forall j | 0 <= j < |entries| && Selected(entries[j])
        ensures (entries[j].name, entries[j].content.value) in r.value
      {
        var i :| 0 <= i < |src| && src[i] == (entries[j].name, entries[j].content);
        assert r.value[i] == (entries[j].name, entries[j].content.value);
      }
    }
  }

  function GlobSources(pattern: string, matches: seq<GlobEntry>): (r: seq<(string, Option<Json>)>)
    ensures |r| == |matches|
    ensures forall i :: 0 <= i < |matches| && matches[i].Unreadable? ==> r[i] == (pattern, None)
    ensures forall i :: 0 <= i < |matches| && matches[i].Matched? ==> r[i] == (matches[i].path, matches[i].content)
  {
    if |matches| == 0 then []
    else
      var head := match matches[0]
                  case Matched(p, c) => (p, c)
                  case Unreadable => (pattern, None);
      [head] + GlobSources(pattern, matches[1..])
  }

  /** What one input adds to the collected sources. */
  function Contribution(input: Input): seq<(string, Option<Json>)> {
    match input
    case FileInput(path, content) => [(path, content)]
    case DirInput(path, listing) =>
      (match LoadDir(listing)
       case Some(files) => seq(|files|, i requires 0 <= i < |files| => (files[i].0, Some(files[i].1)))
       case None => [(path, None)])
    case PatternInput(pattern, matches) =>
      (match matches
       case Some(ms) => GlobSources(pattern, ms)
       case None => [(pattern, None)])
  }

  function Collected(inputs: seq<Input>): seq<(string, Option<Json>)> {
    if |inputs| == 0 then [] else Contribution(inputs[0]) + Collected(inputs[1..])
  }

  /** `load_files`: every source of every input, in the order of the inputs,
      or None when any input fails. */
  function LoadFiles(inputs: seq<Input>): (r: Option<seq<(string, Json)>>)
    ensures r.Some? <==> forall k :: 0 <= k < |inputs| ==> !Fails(inputs[k])
    ensures r.Some? ==> (forall i :: 0 <= i < |Collected(inputs)| ==> Collected(inputs)[i].1.Some?) &&
                        |r.value| == |Collected(inputs)| &&
                        forall i :: 0 <= i < |r.value| ==> r.value[i] == (Collected(inputs)[i].0, Collected(inputs)[i].1.value)
    ensures r.Some? ==> forall k :: 0 <= k < |inputs| && inputs[k].FileInput? ==>
                          (inputs[k].path, inputs[k].content.value) in r.value
  {
    CollectedLoaded(inputs);
    FileInputsCollected(inputs);
    AllLoaded(Collected(inputs))
  }

  /** Every file named on the command line is among the collected sources. */
  lemma {:induction false} FileInputsCollected(inputs: seq<Input>)
    ensures forall k :: 0 <= k < |inputs| && inputs[k].FileInput? ==>
              (inputs[k].path, inputs[k].content) in Collected(inputs)
  {
    if |inputs| > 0 {
      FileInputsCollected(inputs[1..]);
      var c := Collected(inputs);
      assert c == Contribution(inputs[0]) + Collected(inputs[1..]);
      forall k | 0 <= k < |inputs| && inputs[k].FileInput?
        ensures (inputs[k].path, inputs[k].content) in c
      {
        if k == 0 {
          assert Contribution(inputs[0]) == [(inputs[0].path, inputs[0].content)];
          assert c[0] == (inputs[0].path, inputs[0].content);
        } else {
          assert inputs[k] == inputs[1..][k - 1];
        }
      }
    }
  }

  /** An input that makes loading fail, stated without the collection. */
  predicate Fails(input: Input) {
    match input
    case FileInput(_, content) => content.None?
    case DirInput(_, listing) =>
      listing.None? ||
      exists j :: 0 <= j < |listing.value| && Selected(listing.value[j]) && listing.value[j].content.None?
    case PatternInput(_, matches) =>
      matches.None? ||
      exists j :: 0 <= j < |matches.value| && !Readable(matches.value[j])
  }

  lemma DirLoaded(entries: seq<DirEntry>)
    ensures AllLoaded(DirSources(entries)).Some? <==>
            forall j :: 0 <= j < |entries| && Selected(entries[j]) ==> entries[j].content.Some?
  {
    var src := DirSources(entries);
    DirSourcesSelected(entries);
    if exists j :: 0 <= j < |entries| && Selected(entries[j]) && entries[j].content.None? {
      var j :| 0 <= j < |entries| && Selected(entries[j]) && entries[j].content.None?;
      var i :| 0 <= i < |src| && src[i] == (entries[j].name, entries[j].content);
      assert !src[i].1.Some?;
    } else {
      forall i | 0 <= i < |src| ensures src[i].1.Some? {
        assert FromSelected(entries, src[i]);
        var j :| 0 <= j < |entries| && Selected(entries[j]) && src[i] == (entries[j].name, entries[j].content);
      }
    }
  }

  /** A glob match that was read. */
  predicate Readable(g: GlobEntry) {
    g.Matched? && g.content.Some?
  }

  /** Every collected source has content. */
  predicate AllPresent(src: seq<(string, Option<Json>)>) {
    forall i :: 0 <= i < |src| ==> src[i].1.Some?
  }

  lemma GlobLoaded(pattern: string, ms: seq<GlobEntry>)
    ensures AllPresent(GlobSources(pattern, ms)) <==> forall j :: 0 <= j < |ms| ==> Readable(ms[j])
  {
    var c := GlobSources(pattern, ms);
    if forall j :: 0 <= j < |ms| ==> Readable(ms[j]) {
      forall i | 0 <= i < |c| ensures c[i].1.Some? {
        assert Readable(ms[i]);
        assert c[i] == (ms[i].path, ms[i].content);
      }
    } else {
      var j :| 0 <= j < |ms| && !Readable(ms[j]);
      if ms[j].Unreadable? {
        assert c[j] == (pattern, None);
      } else {
        assert c[j] == (ms[j].path, ms[j].content);
      }
      assert !c[j].1.Some?;
      assert !AllPresent(c);
    }
  }

  lemma DirInputLoaded(path: string, listing: Option<seq<DirEntry>>)
    ensures var c := Contribution(DirInput(path, listing));
            (forall i :: 0 <= i < |c| ==> c[i].1.Some?) <==> !Fails(DirInput(path, listing))
  {
    var c := Contribution(DirInput(path, listing));
    if listing.Some? {
      var entries := listing.value;
      DirLoaded(entries);
      if LoadDir(listing).None? {
        assert c == [(path, None)] && !c[0].1.Some?;
        var j :| 0 <= j < |entries| && Selected(entries[j]) && !entries[j].content.Some?;
        assert Fails(DirInput(path, listing));
      } else {
        var files := LoadDir(listing).value;
        assert c == seq(|files|, i requires 0 <= i < |files| => (files[i].0, Some(files[i].1)));
        assert !Fails(DirInput(path, listing));
      }
    } else {
      assert c == [(path, None)] && !c[0].1.Some?;
    }
  }

  lemma ContributionLoaded(input: Input)
    ensures AllPresent(Contribution(input)) <==> !Fails(input)
  {
    match input
    case FileInput(path, content) =>
      assert Contribution(input) == [(path, content)];
      assert AllPresent(Contribution(input)) <==> Contribution(input)[0].1.Some?;
    case DirInput(path, listing) =>
      DirInputLoaded(path, listing);
    case PatternInput(pattern, matches) =>
      if matches.Some? {
        GlobLoaded(pattern, matches.value);
        assert Contribution(input) == GlobSources(pattern, matches.value);
      } else {
        assert Contribution(input) == [(pattern, None)] && !Contribution(input)[0].1.Some?;
      }
  }

  lemma {:induction false} CollectedLoaded(inputs: seq<Input>)
    ensures (forall i :: 0 <= i < |Collected(inputs)| ==> Collected(inputs)[i].1.Some?) <==>
            forall k :: 0 <= k < |inputs| ==> !Fails(inputs[k])
  {
    if |inputs| > 0 {
      var head := Contribution(inputs[0]);
      var rest := Collected(inputs[1..]);
      CollectedLoaded(inputs[1..]);
      ContributionLoaded(inputs[0]);
      assert Collected(inputs) == head + rest;
      assert forall i :: 0 <= i < |head| ==> (head + rest)[i] == head[i];
      assert forall i :: 0 <= i < |rest| ==> (head + rest)[|head| + i] == rest[i];
      assert forall k :: 1 <= k < |inputs| ==> inputs[k] == inputs[1..][k - 1];
      if forall k :: 0 <= k < |inputs| ==> !Fails(inputs[k]) {
        assert forall k :: 0 <= k < |inputs[1..]| ==> !Fails(inputs[1..][k]);
      }
      if forall i :: 0 <= i < |head + rest| ==> (head + rest)[i].1.Some? {
        forall k | 0 <= k < |inputs| ensures !Fails(inputs[k]) {
          if k > 0 {
            assert inputs[k] == inputs[1..][k - 1];
          }
        }
      }
    }
  }

  // ---------------------------------------------------------------------------
  // Validation

  /** The report of each loaded file, checked against the specification its
      metadata names. */
  function Reports(files: seq<(string, Json)>, strict: bool, resolve: Json -> Verification.Spec,
                   verify: (Verification.Verifier, Json, bool, Verification.Spec) -> seq<Verification.FileResult>,
                   typeName: Json -> string): (r: seq<Verification.Report>)
    ensures |r| == |files|
    ensures forall i :: 0 <= i < |files| ==>
              r[i] == Verification.Report(files[i].0,
                        Verification.VerifyJson(files[i].1, resolve(files[i].1), strict, resolve, verify, typeName))
  {
    seq(|files|, i requires 0 <= i < |files| =>
      Verification.Report(files[i].0, Verification.VerifyJson(files[i].1, resolve(files[i].1), strict, resolve, verify, typeName)))
  }

  /** `handle_matches`: the exit code of `--validate`. Without the flag
      nothing is checked; 1 when loading fails or finds nothing, 3 when the
      JSON report cannot be written (`displayFails`), 2 when any file has an
      error, and otherwise the reports. */
  function HandleMatches(validate: bool, strict: bool, inputs: seq<Input>, resolve: Json -> Verification.Spec,
                         verify: (Verification.Verifier, Json, bool, Verification.Spec) -> seq<Verification.FileResult>,
                         typeName: Json -> string, displayFails: bool): (r: Outcome<seq<Verification.Report>, int>)
    ensures !validate ==> r == Ok([])
    ensures validate && LoadFiles(inputs).None? ==> r == Err(1)
    ensures validate && LoadFiles(inputs) == Some([]) ==> r == Err(1)
    ensures validate && LoadFiles(inputs).Some? && |LoadFiles(inputs).value| > 0 ==>
              var reports := Reports(LoadFiles(inputs).value, strict, resolve, verify, typeName);
              (displayFails ==> r == Err(3)) &&
              (!displayFails ==> (r == Err(2) <==> exists i :: 0 <= i < |reports| && Verification.HasErrors(reports[i]))) &&
              (r.Ok? ==> r.value == reports)
    ensures !r.Halted? && (r.Err? ==> r.error in {1, 2, 3})
  {
    if !validate then Ok([])
    else match LoadFiles(inputs)
      case None => Err(1)
      case Some(files) =>
        var reports := Reports(files, strict, resolve, verify, typeName);
        if |reports| == 0 then Err(1)
        else if displayFails then Err(3)
        else if exists i :: 0 <= i < |reports| && Verification.HasErrors(reports[i]) then Err(2)
        else Ok(reports)
  }

  /** A loaded file that is not a JSON object and not a V4 pact fails
      validation with exit code 2. */
  lemma NonObjectFailsValidation(strict: bool, inputs: seq<Input>, resolve: Json -> Verification.Spec,
                                 verify: (Verification.Verifier, Json, bool, Verification.Spec) -> seq<Verification.FileResult>,
                                 typeName: Json -> string, i: nat)
    requires LoadFiles(inputs).Some? && i < |LoadFiles(inputs).value|
    requires var pact := LoadFiles(inputs).value[i].1;
             !pact.Obj? && resolve(pact) != Verification.V4
    ensures HandleMatches(true, strict, inputs, resolve, verify, typeName, false) == Err(2)
  {
    var files := LoadFiles(inputs).value;
    var reports := Reports(files, strict, resolve, verify, typeName);
    assert Verification.HasErrors(reports[i]);
  }

  // ---------------------------------------------------------------------------
  // Grouping by consumer and provider

  /** A consumer/provider pair. */
  type Key = (string, string)

  /** The index of the group with the key. */
  function FindKey(groups: seq<(Key, Json)>, k: Key): (r: Option<nat>)
    ensures r.Some? ==> r.value < |groups| && groups[r.value].0 == k
    ensures r.None? ==> forall j :: 0 <= j < |groups| ==> groups[j].0 != k
  {
    if |groups| == 0 then None
    else if groups[0].0 == k then Some(0)
    else match FindKey(groups[1..], k)
      case None =>
        assert forall j :: 1 <= j < |groups| ==> groups[j] == groups[1..][j - 1];
        None
      case Some(i) => Some(i + 1)
  }

  /** The `interactions` array of a pact. */
  function Interactions(j: Json): Option<seq<Json>> {
    match Get(j, "interactions")
    case Some(Arr(items)) => Some(items)
    case _ => None
  }

  /** The fields with the first entry for `key` given the value `v`. */
  function SetField(fields: seq<(string, Json)>, key: string, v: Json): (r: seq<(string, Json)>)
    ensures Lookup(fields, key).Some? ==> Lookup(r, key) == Some(v)
    ensures forall k :: k != key ==> Lookup(r, k) == Lookup(fields, k)
  {
    if |fields| == 0 then []
    else if fields[0].0 == key then [(key, v)] + fields[1..]
    else [fields[0]] + SetField(fields[1..], key, v)
  }

  /** Merging one more file of a pair into the kept pact: when both have an
      `interactions` array, the new file's interactions are appended;
      otherwise the kept pact is unchanged. */
  function AppendInteractions(kept: Json, pact: Json): (r: Json)
    ensures Interactions(kept).Some? && Interactions(pact).Some? ==>
              Interactions(r) == Some(Interactions(kept).value + Interactions(pact).value)
    ensures Interactions(kept).None? || Interactions(pact).None? ==> r == kept
    ensures forall k :: k != "interactions" ==> Get(r, k) == Get(kept, k)
  {
    match (kept, Interactions(kept), Interactions(pact))
    case (Obj(fields), Some(a), Some(b)) => Obj(SetField(fields, "interactions", Arr(a + b)))
    case _ => kept
  }

  /** One file added to the groups: merged into the group of its pair, or
      kept as a new group after the others. */
  function MergeInto(groups: seq<(Key, Json)>, k: Key, pact: Json): (r: seq<(Key, Json)>)
    ensures FindKey(groups, k).None? ==> r == groups + [(k, pact)]
    ensures FindKey(groups, k).Some? ==>
              var i := FindKey(groups, k).value;
              r == groups[i := (k, AppendInteractions(groups[i].1, pact))]
  {
    match FindKey(groups, k)
    case None => groups + [(k, pact)]
    case Some(i) => groups[i := (k, AppendInteractions(groups[i].1, pact))]
  }

  /** The merge loop of `publish_pacts`: the groups in the order their pairs
      first appear, or None when `load` cannot read a file as a pact.
      `load` stands for `load_pact_from_json`, giving the pact's consumer and
      provider names. */
  function Merge(files: seq<(string, Json)>, load: (string, Json) -> Option<Key>): (r: Option<seq<(Key, Json)>>)
    ensures r.Some? <==> forall i :: 0 <= i < |files| ==> load(files[i].0, files[i].1).Some?
    decreases |files|
  {
    if |files| == 0 then Some([])
    else
      var n := |files| - 1;
      assert forall i :: 0 <= i < n ==> files[..n][i] == files[i];
      match (Merge(files[..n], load), load(files[n].0, files[n].1))
      case (Some(groups), Some(k)) => Some(MergeInto(groups, k, files[n].1))
      case _ => None
  }

  /** Every file of the sequence reads as a pact. */
  predicate AllLoad(files: seq<(string, Json)>, load: (string, Json) -> Option<Key>) {
    forall i :: 0 <= i < |files| ==> load(files[i].0, files[i].1).Some?
  }

  /** No element occurs twice. */
  predicate Distinct<T(==)>(s: seq<T>) {
    forall a, b :: 0 <= a < b < |s| ==> s[a] != s[b]
  }

  /** The pairs of the files, each once, in order of first appearance. */
  function FirstKeys(files: seq<(string, Json)>, load: (string, Json) -> Option<Key>): (r: seq<Key>)
    requires AllLoad(files, load)
    decreases |files|
  {
    if |files| == 0 then []
    else
      var n := |files| - 1;
      assert forall i :: 0 <= i < n ==> files[..n][i] == files[i];
      var prev := FirstKeys(files[..n], load);
      var k := load(files[n].0, files[n].1).value;
      if k in prev then prev else prev + [k]
  }

  /** The files of one pair, in order. */
  function PactsOf(files: seq<(string, Json)>, load: (string, Json) -> Option<Key>, k: Key): (r: seq<Json>)
    decreases |files|
  {
    if |files| == 0 then []
    else
      var n := |files| - 1;
      PactsOf(files[..n], load, k) + (if load(files[n].0, files[n].1) == Some(k) then [files[n].1] else [])
  }

  /** The pairs are distinct and are exactly the pairs of the files. */
  lemma {:induction false} FirstKeysSpec(files: seq<(string, Json)>, load: (string, Json) -> Option<Key>)
    requires AllLoad(files, load)
    ensures Distinct(FirstKeys(files, load))
    ensures forall k :: k in FirstKeys(files, load) <==>
              exists i :: 0 <= i < |files| && load(files[i].0, files[i].1) == Some(k)
    decreases |files|
  {
    if |files| > 0 {
      var n := |files| - 1;
      var p := files[..n];
      assert forall i :: 0 <= i < n ==> p[i] == files[i];
      FirstKeysSpec(p, load);
      var k := load(files[n].0, files[n].1).value;
      var prev := FirstKeys(p, load);
      assert FirstKeys(files, load) == if k in prev then prev else prev + [k];
      if k !in prev {
        var r := prev + [k];
        forall a, b | 0 <= a < b < |r| ensures r[a] != r[b] {
          assert r[a] == prev[a];
          if b == |prev| {
            assert prev[a] in prev && r[b] == k;
          } else {
            assert r[b] == prev[b];
          }
        }
      }
      forall x | x in FirstKeys(files, load)
        ensures exists i :: 0 <= i < |files| && load(files[i].0, files[i].1) == Some(x)
      {
        if x in FirstKeys(p, load) {
          var i :| 0 <= i < n && load(p[i].0, p[i].1) == Some(x);
          assert files[i] == p[i];
        } else {
          assert load(files[n].0, files[n].1) == Some(x);
        }
      }
      forall x | exists i :: 0 <= i < |files| && load(files[i].0, files[i].1) == Some(x)
        ensures x in FirstKeys(files, load)
      {
        var i :| 0 <= i < |files| && load(files[i].0, files[i].1) == Some(x);
        if i < n {
          assert load(p[i].0, p[i].1) == Some(x);
        }
      }
    }
  }

  /** A pair has no files exactly when no file reads as that pair. */
  lemma {:induction false} PactsOfEmpty(files: seq<(string, Json)>, load: (string, Json) -> Option<Key>, k: Key)
    ensures |PactsOf(files, load, k)| == 0 <==> forall i :: 0 <= i < |files| ==> load(files[i].0, files[i].1) != Some(k)
    decreases |files|
  {
    if |files| > 0 {
      var n := |files| - 1;
      var p := files[..n];
      assert forall i :: 0 <= i < n ==> p[i] == files[i];
      PactsOfEmpty(p, load, k);
    }
  }

  /** The files of one pair merged in order, the reference for a group. */
  function MergeAll(pacts: seq<Json>): Json
    requires |pacts| > 0
  {
    if |pacts| == 1 then pacts[0]
    else AppendInteractions(MergeAll(pacts[..|pacts| - 1]), pacts[|pacts| - 1])
  }

  lemma MergeAllSnoc(ps: seq<Json>, f: Json)
    requires |ps| > 0
    ensures MergeAll(ps + [f]) == AppendInteractions(MergeAll(ps), f)
  {
    assert (ps + [f])[..|ps|] == ps;
  }

  /** The groups hold, in order, one merged pact per pair of the files. */
  predicate GroupedAs(groups: seq<(Key, Json)>, files: seq<(string, Json)>, load: (string, Json) -> Option<Key>)
    requires AllLoad(files, load)
  {
    var keys := FirstKeys(files, load);
    |groups| == |keys| &&
    forall i :: 0 <= i < |keys| ==>
      groups[i].0 == keys[i] && |PactsOf(files, load, keys[i])| > 0 &&
      groups[i].1 == MergeAll(PactsOf(files, load, keys[i]))
  }

  lemma SnocLoads(p: seq<(string, Json)>, last: (string, Json), load: (string, Json) -> Option<Key>)
    requires AllLoad(p, load) && load(last.0, last.1).Some?
    ensures AllLoad(p + [last], load)
    ensures (p + [last])[..|p|] == p && (p + [last])[|p|] == last
    ensures var k := load(last.0, last.1).value;
            FirstKeys(p + [last], load) == if k in FirstKeys(p, load) then FirstKeys(p, load) else FirstKeys(p, load) + [k]
  {
    var files := p + [last];
    assert files[..|p|] == p;
    assert forall i :: 0 <= i < |p| ==> files[i] == p[i];
  }

  lemma PactsOfSnoc(p: seq<(string, Json)>, last: (string, Json), load: (string, Json) -> Option<Key>, x: Key)
    ensures load(last.0, last.1) == Some(x) ==> PactsOf(p + [last], load, x) == PactsOf(p, load, x) + [last.1]
    ensures load(last.0, last.1) != Some(x) ==> PactsOf(p + [last], load, x) == PactsOf(p, load, x)
  {
    assert (p + [last])[..|p|] == p;
    assert PactsOf(p, load, x) + [] == PactsOf(p, load, x);
  }

  lemma MergeExisting(p: seq<(string, Json)>, last: (string, Json), load: (string, Json) -> Option<Key>,
                      g: seq<(Key, Json)>, i: nat)
    requires AllLoad(p, load) && load(last.0, last.1).Some? && GroupedAs(g, p, load)
    requires FindKey(g, load(last.0, last.1).value) == Some(i)
    ensures AllLoad(p + [last], load)
    ensures GroupedAs(MergeInto(g, load(last.0, last.1).value, last.1), p + [last], load)
  {
    var k := load(last.0, last.1).value;
    var keys := FirstKeys(p, load);
    SnocLoads(p, last, load);
    FirstKeysSpec(p, load);
    var g2 := MergeInto(g, k, last.1);
    assert keys[i] == k;
    assert FirstKeys(p + [last], load) == keys;
    forall j | 0 <= j < |keys|
      ensures g2[j].0 == keys[j] && |PactsOf(p + [last], load, keys[j])| > 0 &&
              g2[j].1 == MergeAll(PactsOf(p + [last], load, keys[j]))
    {
      PactsOfSnoc(p, last, load, keys[j]);
      if j == i {
        MergeAllSnoc(PactsOf(p, load, k), last.1);
      } else {
        assert keys[j] != k;
      }
    }
  }

  lemma MergeNew(p: seq<(string, Json)>, last: (string, Json), load: (string, Json) -> Option<Key>, g: seq<(Key, Json)>)
    requires AllLoad(p, load) && load(last.0, last.1).Some? && GroupedAs(g, p, load)
    requires FindKey(g, load(last.0, last.1).value).None?
    ensures AllLoad(p + [last], load)
    ensures GroupedAs(MergeInto(g, load(last.0, last.1).value, last.1), p + [last], load)
  {
    var k := load(last.0, last.1).value;
    var keys := FirstKeys(p, load);
    SnocLoads(p, last, load);
    FirstKeysSpec(p, load);
    PactsOfEmpty(p, load, k);
    var g2 := MergeInto(g, k, last.1);
    assert g2 == g + [(k, last.1)];
    assert k !in keys;
    assert PactsOf(p, load, k) == [];
    var keys2 := keys + [k];
    assert FirstKeys(p + [last], load) == keys2;
    forall j | 0 <= j < |keys2|
      ensures g2[j].0 == keys2[j] && |PactsOf(p + [last], load, keys2[j])| > 0 &&
              g2[j].1 == MergeAll(PactsOf(p + [last], load, keys2[j]))
    {
      PactsOfSnoc(p, last, load, keys2[j]);
      if j == |keys| {
        assert [] + [last.1] == [last.1];
        assert g2[j] == (k, last.1);
      } else {
        assert keys2[j] == keys[j] != k;
        assert g2[j] == g[j];
      }
    }
  }

  /** The merge loop yields one group per pair, in order of first
      appearance, holding that pair's files merged in order. */
  lemma {:induction false} MergeGroups(files: seq<(string, Json)>, load: (string, Json) -> Option<Key>)
    requires AllLoad(files, load)
    ensures Merge(files, load).Some?
    ensures GroupedAs(Merge(files, load).value, files, load)
    decreases |files|
  {
    if |files| > 0 {
      var n := |files| - 1;
      var p := files[..n];
      assert forall i :: 0 <= i < n ==> p[i] == files[i];
      assert files == p + [files[n]];
      MergeGroups(p, load);
      var g := Merge(p, load).value;
      var k := load(files[n].0, files[n].1).value;
      assert Merge(files, load) == Some(MergeInto(g, k, files[n].1));
      match FindKey(g, k)
      case Some(i) => MergeExisting(p, files[n], load, g, i);
      case None => MergeNew(p, files[n], load, g);
    }
  }

  /** A merged group keeps its first file's fields and, when that file has an
      `interactions` array, holds the interactions of all its files in order
      (a file without the array adds none). */
  lemma {:induction false} MergeAllInteractions(pacts: seq<Json>)
    requires |pacts| > 0
    ensures forall k :: k != "interactions" ==> Get(MergeAll(pacts), k) == Get(pacts[0], k)
    ensures Interactions(pacts[0]).None? ==> MergeAll(pacts) == pacts[0]
    ensures Interactions(pacts[0]).Some? ==> Interactions(MergeAll(pacts)) == Some(AllInteractions(pacts))
  {
    if |pacts| == 1 {
      assert pacts[..0] == [];
      assert AllInteractions(pacts) == [] + Interactions(pacts[0]).GetOr([]);
      assert [] + Interactions(pacts[0]).GetOr([]) == Interactions(pacts[0]).GetOr([]);
    } else {
      var n := |pacts| - 1;
      MergeAllInteractions(pacts[..n]);
      assert pacts[..n][0] == pacts[0];
      var kept := MergeAll(pacts[..n]);
      assert MergeAll(pacts) == AppendInteractions(kept, pacts[n]);
      assert AllInteractions(pacts) == AllInteractions(pacts[..n]) + Interactions(pacts[n]).GetOr([]);
      if Interactions(pacts[0]).Some? && Interactions(pacts[n]).None? {
        assert AllInteractions(pacts) == AllInteractions(pacts[..n]) + [];
        assert AllInteractions(pacts[..n]) + [] == AllInteractions(pacts[..n]);
      }
    }
  }

  /** Every file's interactions, concatenated in order. */
  function AllInteractions(pacts: seq<Json>): seq<Json> {
    if |pacts| == 0 then []
    else AllInteractions(pacts[..|pacts| - 1]) + Interactions(pacts[|pacts| - 1]).GetOr([])
  }

  // ---------------------------------------------------------------------------
  // The publish payload

  /** The version and branch flags and what `publish_pacts` reads besides the files. */
  datatype PublishArgs = PublishArgs(
    version: Option<string>, branch: Option<string>, autoDetect: bool, tagWithGitBranch: bool,
    buildUrl: Option<string>, tags: Option<seq<string>>, merge: bool)

  /** What git reports: the current commit and branch, when it can. */
  datatype Git = Git(commit: Option<string>, branch: Option<string>)

  /** The foreign pact library: `load_pact_from_json` (consumer and provider
      names), the pact written back as JSON text, and base64 encoding. */
  datatype PactLibrary = PactLibrary(load: (string, Json) -> Option<Key>, render: Json -> string, base64: string -> string)

  /** `onConflict`. */
  function OnConflict(merge: bool): (r: string)
    ensures r == "merge" <==> merge
    ensures r == "overwrite" <==> !merge
  {
    if merge then "merge" else "overwrite"
  }

  /** The version and branch after auto-detection: with the flag, a missing
      version is taken from the git commit and a missing branch from the git
      branch, and printing a value git could not provide panics. */
  function VersionProperties(args: PublishArgs, git: Git): (r: Outcome<(Option<string>, Option<string>), int>)
    ensures !r.Err?
    ensures !args.autoDetect ==> r == Ok((args.version, args.branch))
    ensures args.autoDetect ==>
              (r.Halted? <==> (args.version.None? && git.commit.None?) || (args.branch.None? && git.branch.None?))
    ensures r.Ok? ==> (args.version.Some? ==> r.value.0 == args.version) &&
                      (args.branch.Some? ==> r.value.1 == args.branch)
    ensures r.Ok? && args.autoDetect ==>
              r.value.0.Some? && r.value.1.Some? &&
              (args.version.None? ==> r.value.0 == git.commit) &&
              (args.branch.None? ==> r.value.1 == git.branch)
  {
    if !args.autoDetect then Ok((args.version, args.branch))
    else
      var version := if args.version.Some? then args.version else git.commit;
      var branch := if args.branch.Some? then args.branch else git.branch;
      if version.None? then Halted(Panic("publish_pacts: no git commit to detect"))
      else if branch.None? then Halted(Panic("publish_pacts: no git branch to detect"))
      else Ok((version, branch))
  }

  /** The `tags` of the payload: the `--tag` values in order, then, with
      `--tag-with-git-branch`, the git commit (empty when git has none). */
  function Tags(explicit: Option<seq<string>>, tagWithGitBranch: bool, commit: Option<string>): (r: Option<seq<string>>)
    ensures r.None? <==> explicit.None? && !tagWithGitBranch
    ensures r.Some? ==> |r.value| == |explicit.GetOr([])| + (if tagWithGitBranch then 1 else 0)
    ensures r.Some? && explicit.Some? ==> r.value[..|explicit.value|] == explicit.value
    ensures r.Some? && tagWithGitBranch ==> r.value[|r.value| - 1] == commit.GetOr("")
  {
    if explicit.None? && !tagWithGitBranch then None
    else Some(explicit.GetOr([]) + (if tagWithGitBranch then [commit.GetOr("")] else []))
  }

  function TagsField(tags: Option<seq<string>>): seq<(string, Json)> {
    if tags.Some? then [("tags", Arr(StringsJson(tags.value)))] else []
  }

  /** The single entry of `contracts`. */
  function Contract(consumer: string, provider: string, content: string, onConflict: string): Json {
    Obj([("consumerName", Str(consumer)), ("providerName", Str(provider)), ("specification", Str("pact")),
         ("contentType", Str("application/json")), ("content", Str(content)), ("onConflict", Str(onConflict))])
  }

  lemma ContractLookup(consumer: string, provider: string, content: string, onConflict: string, key: string)
    ensures Get(Contract(consumer, provider, content, onConflict), key) ==
            if key == "consumerName" then Some(Str(consumer))
            else if key == "providerName" then Some(Str(provider))
            else if key == "specification" then Some(Str("pact"))
            else if key == "contentType" then Some(Str("application/json"))
            else if key == "content" then Some(Str(content))
            else if key == "onConflict" then Some(Str(onConflict))
            else None
  {
    var f := [("onConflict", Str(onConflict))];
    var e := [("content", Str(content))] + f;
    var d := [("contentType", Str("application/json"))] + e;
    var c := [("specification", Str("pact"))] + d;
    var b := [("providerName", Str(provider))] + c;
    assert Contract(consumer, provider, content, onConflict).fields == [("consumerName", Str(consumer))] + b;
    LookupCons("consumerName", Str(consumer), b, key);
    LookupCons("providerName", Str(provider), c, key);
    LookupCons("specification", Str("pact"), d, key);
    LookupCons("contentType", Str("application/json"), e, key);
    LookupCons("content", Str(content), f, key);
    LookupCons("onConflict", Str(onConflict), [], key);
  }

  /** The contract names the pair and carries the encoded pact and the
      conflict mode. */
  lemma ContractFields(consumer: string, provider: string, content: string, onConflict: string)
    ensures var c := Contract(consumer, provider, content, onConflict);
            Get(c, "consumerName") == Some(Str(consumer)) && Get(c, "providerName") == Some(Str(provider)) &&
            Get(c, "specification") == Some(Str("pact")) && Get(c, "contentType") == Some(Str("application/json")) &&
            Get(c, "content") == Some(Str(content)) && Get(c, "onConflict") == Some(Str(onConflict))
  {
    ContractLookup(consumer, provider, content, onConflict, "consumerName");
    ContractLookup(consumer, provider, content, onConflict, "providerName");
    ContractLookup(consumer, provider, content, onConflict, "specification");
    ContractLookup(consumer, provider, content, onConflict, "contentType");
    ContractLookup(consumer, provider, content, onConflict, "content");
    ContractLookup(consumer, provider, content, onConflict, "onConflict");
  }

  function Payload(consumer: string, version: string, branch: Option<string>, buildUrl: Option<string>,
                   tags: Option<seq<string>>, contract: Json): Json {
    Obj([("pacticipantName", Str(consumer))] +
        ([("pacticipantVersionNumber", Str(version))] +
         (OptField("branch", branch) +
          (OptField("buildUrl", buildUrl) +
           (TagsField(tags) + [("contracts", Arr([contract]))])))))
  }

  lemma PayloadLookup(consumer: string, version: string, branch: Option<string>, buildUrl: Option<string>,
                      tags: Option<seq<string>>, contract: Json, key: string)
    ensures Get(Payload(consumer, version, branch, buildUrl, tags, contract), key) ==
            if key == "pacticipantName" then Some(Str(consumer))
            else if key == "pacticipantVersionNumber" then Some(Str(version))
            else if key == "branch" && branch.Some? then Some(Str(branch.value))
            else if key == "buildUrl" && buildUrl.Some? then Some(Str(buildUrl.value))
            else if key == "tags" && tags.Some? then Some(Arr(StringsJson(tags.value)))
            else if key == "contracts" then Some(Arr([contract]))
            else None
  {
    var e := TagsField(tags) + [("contracts", Arr([contract]))];
    var d := OptField("buildUrl", buildUrl) + e;
    var c := OptField("branch", branch) + d;
    var b := [("pacticipantVersionNumber", Str(version))] + c;
    LookupConcat([("pacticipantName", Str(consumer))], b, key);
    LookupConcat([("pacticipantVersionNumber", Str(version))], c, key);
    LookupConcat(OptField("branch", branch), d, key);
    LookupConcat(OptField("buildUrl", buildUrl), e, key);
    LookupConcat(TagsField(tags), [("contracts", Arr([contract]))], key);
  }

  /** The payload carries each given value under its own key, and the
      optional keys only when given. */
  lemma PayloadFields(consumer: string, version: string, branch: Option<string>, buildUrl: Option<string>,
                      tags: Option<seq<string>>, contract: Json)
    ensures var p := Payload(consumer, version, branch, buildUrl, tags, contract);
            Get(p, "pacticipantName") == Some(Str(consumer)) &&
            Get(p, "pacticipantVersionNumber") == Some(Str(version)) &&
            (Get(p, "branch").Some? <==> branch.Some?) &&
            (branch.Some? ==> Get(p, "branch") == Some(Str(branch.value))) &&
            (Get(p, "buildUrl").Some? <==> buildUrl.Some?) &&
            (buildUrl.Some? ==> Get(p, "buildUrl") == Some(Str(buildUrl.value))) &&
            (Get(p, "tags").Some? <==> tags.Some?) &&
            (tags.Some? ==> Get(p, "tags") == Some(Arr(StringsJson(tags.value)))) &&
            Get(p, "contracts") == Some(Arr([contract]))
  {
    PayloadLookup(consumer, version, branch, buildUrl, tags, contract, "pacticipantName");
    PayloadLookup(consumer, version, branch, buildUrl, tags, contract, "pacticipantVersionNumber");
    PayloadLookup(consumer, version, branch, buildUrl, tags, contract, "branch");
    PayloadLookup(consumer, version, branch, buildUrl, tags, contract, "buildUrl");
    PayloadLookup(consumer, version, branch, buildUrl, tags, contract, "tags");
    PayloadLookup(consumer, version, branch, buildUrl, tags, contract, "contracts");
  }

  // ---------------------------------------------------------------------------
  // Publishing

  /** A publish run: the exit code (`Err`) or `{}`, and every request sent. */
  datatype Published = Published(outcome: Outcome<Json, int>, sent: seq<Request>)

  /** The payload posted for one group, once its pact has been read back. */
  function GroupPayload(names: Key, pact: Json, version: string, branch: Option<string>, args: PublishArgs,
                        commit: Option<string>, lib: PactLibrary, onConflict: string): Json {
    Payload(names.0, version, branch, args.buildUrl, Tags(args.tags, args.tagWithGitBranch, commit),
            Contract(names.0, names.1, lib.base64(lib.render(pact)), onConflict))
  }

  /** The first contract of a payload. */
  function FirstContract(body: Json): Option<Json> {
    match Get(body, "contracts")
    case Some(Arr(cs)) => if |cs| > 0 then Some(cs[0]) else None
    case _ => None
  }

  /** A request that publishes one group under the version and conflict mode. */
  predicate PublishRequest(req: Request, href: string, version: string, onConflict: string) {
    req.verb == POST && req.path == href && req.body.Some? &&
    Get(req.body.value, "pacticipantVersionNumber") == Some(Str(version)) &&
    FirstContract(req.body.value).Some? &&
    Get(FirstContract(req.body.value).value, "onConflict") == Some(Str(onConflict))
  }

  lemma GroupPayloadPublishes(href: string, names: Key, pact: Json, version: string, branch: Option<string>,
                              args: PublishArgs, commit: Option<string>, lib: PactLibrary, onConflict: string)
    ensures PublishRequest(Request(POST, href, Some(GroupPayload(names, pact, version, branch, args, commit, lib, onConflict))),
                           href, version, onConflict)
  {
    var tags := Tags(args.tags, args.tagWithGitBranch, commit);
    var c := Contract(names.0, names.1, lib.base64(lib.render(pact)), onConflict);
    var body := GroupPayload(names, pact, version, branch, args, commit, lib, onConflict);
    PayloadLookup(names.0, version, branch, args.buildUrl, tags, c, "pacticipantVersionNumber");
    PayloadLookup(names.0, version, branch, args.buildUrl, tags, c, "contracts");
    assert FirstContract(body) == Some(c);
    ContractLookup(names.0, names.1, lib.base64(lib.render(pact)), onConflict, "onConflict");
  }

  /** What every post of one run shares: the publish href, the effective
      version and branch, the flags, the git commit, the pact library and
      the conflict mode. */
  datatype Publisher = Publisher(href: string, version: Option<string>, branch: Option<string>, args: PublishArgs,
                                 commit: Option<string>, lib: PactLibrary, onConflict: string)

  /** The request that publishes a group, or None when the group cannot be
      read back as a pact or there is no version. */
  function GroupRequest(pub: Publisher, group: (Key, Json)): (r: Option<Request>)
    ensures r.Some? <==> pub.version.Some? && pub.lib.load(group.0.0 + "-" + group.0.1, group.1).Some?
    ensures r.Some? ==> r.value.verb == POST && r.value.path == pub.href
  {
    match (pub.lib.load(group.0.0 + "-" + group.0.1, group.1), pub.version)
    case (Some(names), Some(v)) =>
      Some(Request(POST, pub.href, Some(GroupPayload(names, group.1, v, pub.branch, pub.args, pub.commit, pub.lib, pub.onConflict))))
    case _ => None
  }

  /** A group's request carries the run's version and conflict mode. */
  lemma GroupRequestPublishes(pub: Publisher, group: (Key, Json))
    requires GroupRequest(pub, group).Some?
    ensures PublishRequest(GroupRequest(pub, group).value, pub.href, pub.version.value, pub.onConflict)
  {
    var names := pub.lib.load(group.0.0 + "-" + group.0.1, group.1).value;
    GroupPayloadPublishes(pub.href, names, group.1, pub.version.value, pub.branch, pub.args, pub.commit, pub.lib, pub.onConflict);
  }

  /** The publish loop: each group is read back as a pact and posted; a group
      that cannot be read back, or a missing version, is exit code 1 before
      its post, and the first failed post is exit code 1. */
  function PublishGroups(broker: Broker, pub: Publisher, groups: seq<(Key, Json)>): (r: Published)
    ensures |r.sent| <= |groups|
    ensures r.outcome.Err? ==> r.outcome.error == 1
    ensures r.outcome.Ok? ==> r.outcome.value == Obj([]) && |r.sent| == |groups|
    decreases |groups|
  {
    if |groups| == 0 then Published(Ok(Obj([])), [])
    else
      match GroupRequest(pub, groups[0])
      case None => Published(Err(1), [])
      case Some(req) =>
        match broker(req)
        case Err(_) => Published(Err(1), [req])
        case Halted(h) => Published(Halted(h), [req])
        case Ok(_) =>
          var rest := PublishGroups(broker, pub, groups[1..]);
          Published(rest.outcome, [req] + rest.sent)
  }

  /** Every request was accepted by the broker. */
  predicate Accepted(broker: Broker, sent: seq<Request>) {
    forall i :: 0 <= i < |sent| ==> broker(sent[i]).Ok?
  }

  lemma AcceptedCons(broker: Broker, req: Request, rest: seq<Request>)
    ensures Accepted(broker, [req] + rest) <==> broker(req).Ok? && Accepted(broker, rest)
  {
    var s := [req] + rest;
    assert s[0] == req;
    assert forall i :: 0 <= i < |rest| ==> s[i + 1] == rest[i];
  }

  /** The requests are the posts of the leading groups, in order. */
  predicate PostsOf(pub: Publisher, groups: seq<(Key, Json)>, sent: seq<Request>) {
    |sent| <= |groups| && forall i :: 0 <= i < |sent| ==> GroupRequest(pub, groups[i]) == Some(sent[i])
  }

  lemma PostsOfCons(pub: Publisher, groups: seq<(Key, Json)>, req: Request, rest: seq<Request>)
    requires |groups| > 0 && GroupRequest(pub, groups[0]) == Some(req) && PostsOf(pub, groups[1..], rest)
    ensures PostsOf(pub, groups, [req] + rest)
  {
    var s := [req] + rest;
    forall i | 1 <= i < |s| ensures GroupRequest(pub, groups[i]) == Some(s[i]) {
      assert s[i] == rest[i - 1];
      assert groups[i] == groups[1..][i - 1];
    }
  }

  /** Every post of a publisher carries its version and conflict mode. */
  lemma PostsPublish(pub: Publisher, groups: seq<(Key, Json)>, sent: seq<Request>)
    requires PostsOf(pub, groups, sent)
    ensures |sent| > 0 ==> pub.version.Some?
    ensures pub.version.Some? ==>
              forall i :: 0 <= i < |sent| ==> PublishRequest(sent[i], pub.href, pub.version.value, pub.onConflict)
  {
    if |sent| > 0 {
      assert GroupRequest(pub, groups[0]) == Some(sent[0]);
    }
    forall i | 0 <= i < |sent| && pub.version.Some?
      ensures PublishRequest(sent[i], pub.href, pub.version.value, pub.onConflict)
    {
      assert GroupRequest(pub, groups[i]) == Some(sent[i]);
      GroupRequestPublishes(pub, groups[i]);
    }
  }

  /** Each post is the request of the group at the same position. */
  lemma {:induction false} PublishedPosts(broker: Broker, pub: Publisher, groups: seq<(Key, Json)>)
    ensures PostsOf(pub, groups, PublishGroups(broker, pub, groups).sent)
    decreases |groups|
  {
    if |groups| > 0 {
      var r := PublishGroups(broker, pub, groups);
      match GroupRequest(pub, groups[0])
      case None =>
        assert r.sent == [];
      case Some(req) =>
        if broker(req).Ok? {
          var rest := PublishGroups(broker, pub, groups[1..]);
          PublishedPosts(broker, pub, groups[1..]);
          assert r.sent == [req] + rest.sent;
          PostsOfCons(pub, groups, req, rest.sent);
        } else {
          assert r.sent == [req];
        }
    }
  }

  /** Every request but the last was accepted. */
  predicate AcceptedBeforeLast(broker: Broker, sent: seq<Request>) {
    forall i :: 0 <= i < |sent| - 1 ==> broker(sent[i]).Ok?
  }

  /** Every post but the last was accepted. */
  lemma {:induction false} PublishedAcceptedBeforeLast(broker: Broker, pub: Publisher, groups: seq<(Key, Json)>)
    ensures AcceptedBeforeLast(broker, PublishGroups(broker, pub, groups).sent)
    decreases |groups|
  {
    if |groups| > 0 {
      var r := PublishGroups(broker, pub, groups);
      match GroupRequest(pub, groups[0])
      case None =>
        assert r.sent == [];
      case Some(req) =>
        if broker(req).Ok? {
          var rest := PublishGroups(broker, pub, groups[1..]);
          PublishedAcceptedBeforeLast(broker, pub, groups[1..]);
          assert r.sent == [req] + rest.sent;
          forall i | 1 <= i < |r.sent| - 1 ensures broker(r.sent[i]).Ok? {
            assert r.sent[i] == rest.sent[i - 1];
            assert broker(rest.sent[i - 1]).Ok?;
          }
        } else {
          assert r.sent == [req];
        }
    }
  }

  /** The loop succeeds exactly when every group was posted and every post
      accepted. */
  lemma {:induction false} PublishedAll(broker: Broker, pub: Publisher, groups: seq<(Key, Json)>)
    ensures var r := PublishGroups(broker, pub, groups);
            r.outcome.Ok? <==> |r.sent| == |groups| && Accepted(broker, r.sent)
    decreases |groups|
  {
    if |groups| > 0 {
      var r := PublishGroups(broker, pub, groups);
      match GroupRequest(pub, groups[0])
      case None =>
        assert r == Published(Err(1), []);
      case Some(req) =>
        AcceptedCons(broker, req, []);
        if broker(req).Ok? {
          var rest := PublishGroups(broker, pub, groups[1..]);
          PublishedAll(broker, pub, groups[1..]);
          assert r.outcome == rest.outcome && r.sent == [req] + rest.sent;
          AcceptedCons(broker, req, rest.sent);
        } else {
          assert r.sent == [req] + [];
        }
    }
  }

  /** `publish_pacts`. */
  function PublishPacts(broker: Broker, inputs: seq<Input>, args: PublishArgs, git: Git, lib: PactLibrary): (r: Published)
    ensures LoadFiles(inputs).None? ==> r == Published(Err(1), [])
    ensures LoadFiles(inputs).Some? ==> |r.sent| >= 1 && r.sent[0] == Request(GET, "/", None)
    ensures r.outcome.Err? ==> r.outcome.error == 1
    ensures r.outcome.Ok? ==> r.outcome.value == Obj([])
  {
    match LoadFiles(inputs)
    case None => Published(Err(1), [])
    case Some(files) =>
      var rel := Utils.GetBrokerRelation(broker, "pb:publish-contracts");
      match rel.outcome
      case Err(_) => Published(Err(1), rel.sent)
      case Halted(h) => Published(Halted(h), rel.sent)
      case Ok(href) =>
        match VersionProperties(args, git)
        case Halted(h) => Published(Halted(h), rel.sent)
        case Err(_) => Published(Err(1), rel.sent)
        case Ok(props) =>
          match Merge(files, lib.load)
          case None => Published(Err(1), rel.sent)
          case Some(groups) =>
            var p := PublishGroups(broker, Publisher(href, props.0, props.1, args, git.commit, lib, OnConflict(args.merge)), groups);
            Published(p.outcome, rel.sent + p.sent)
  }

  /** Once the files load and merge, the relation is found and a version
      is known, the run is the index fetch followed by the publish loop;
      otherwise it sends at most the index fetch. */
  lemma PublishPactsShape(broker: Broker, inputs: seq<Input>, args: PublishArgs, git: Git, lib: PactLibrary)
    ensures var r := PublishPacts(broker, inputs, args, git, lib);
            var rel := Utils.GetBrokerRelation(broker, "pb:publish-contracts");
            var vp := VersionProperties(args, git);
            if LoadFiles(inputs).Some? && rel.outcome.Ok? && vp.Ok? && Merge(LoadFiles(inputs).value, lib.load).Some? then
              r == (var p := PublishGroups(broker, Publisher(rel.outcome.value, vp.value.0, vp.value.1, args, git.commit, lib, OnConflict(args.merge)),
                                           Merge(LoadFiles(inputs).value, lib.load).value);
                    Published(p.outcome, rel.sent + p.sent))
            else |r.sent| <= 1
  {
  }

  lemma PostsAfterFetch(fetch: seq<Request>, posts: seq<Request>, href: string, version: string, onConflict: string)
    requires |fetch| == 1
    requires forall i :: 0 <= i < |posts| ==> PublishRequest(posts[i], href, version, onConflict)
    ensures forall i :: 1 <= i < |fetch + posts| ==> PublishRequest((fetch + posts)[i], href, version, onConflict)
  {
    assert forall i :: 1 <= i < |fetch + posts| ==> (fetch + posts)[i] == posts[i - 1];
  }

  /** After the index fetch, every request posts one merged group, under the
      effective version, with the chosen conflict mode. */
  lemma PublishPactsPosts(broker: Broker, inputs: seq<Input>, args: PublishArgs, git: Git, lib: PactLibrary)
    ensures var r := PublishPacts(broker, inputs, args, git, lib);
            |r.sent| > 1 ==>
              LoadFiles(inputs).Some? && Merge(LoadFiles(inputs).value, lib.load).Some? &&
              VersionProperties(args, git).Ok? && VersionProperties(args, git).value.0.Some? &&
              Utils.GetBrokerRelation(broker, "pb:publish-contracts").outcome.Ok? &&
              forall i :: 1 <= i < |r.sent| ==>
                PublishRequest(r.sent[i], Utils.GetBrokerRelation(broker, "pb:publish-contracts").outcome.value,
                               VersionProperties(args, git).value.0.value, OnConflict(args.merge))
  {
    var r := PublishPacts(broker, inputs, args, git, lib);
    PublishPactsShape(broker, inputs, args, git, lib);
    var rel := Utils.GetBrokerRelation(broker, "pb:publish-contracts");
    var vp := VersionProperties(args, git);
    if LoadFiles(inputs).Some? && rel.outcome.Ok? && vp.Ok? && Merge(LoadFiles(inputs).value, lib.load).Some? {
      var m := Merge(LoadFiles(inputs).value, lib.load).value;
      var pub := Publisher(rel.outcome.value, vp.value.0, vp.value.1, args, git.commit, lib, OnConflict(args.merge));
      var p := PublishGroups(broker, pub, m);
      PublishedPosts(broker, pub, m);
      PostsPublish(pub, m, p.sent);
      if |p.sent| > 0 {
        assert r.sent == rel.sent + p.sent;
        PostsAfterFetch(rel.sent, p.sent, pub.href, pub.version.value, pub.onConflict);
      }
    }
  }

  /** A successful run posted every merged group once. */
  lemma PublishPactsComplete(broker: Broker, inputs: seq<Input>, args: PublishArgs, git: Git, lib: PactLibrary)
    ensures var r := PublishPacts(broker, inputs, args, git, lib);
            r.outcome.Ok? ==>
              LoadFiles(inputs).Some? && Merge(LoadFiles(inputs).value, lib.load).Some? &&
              |r.sent| == 1 + |Merge(LoadFiles(inputs).value, lib.load).value|
  {
  }

  /** Nothing is posted when any file fails to load or to read as a pact:
      the run stops with exit code 1 after at most the index fetch. */
  lemma NoPostOnBadFile(broker: Broker, inputs: seq<Input>, args: PublishArgs, git: Git, lib: PactLibrary)
    requires (exists k :: 0 <= k < |inputs| && Fails(inputs[k])) ||
             (LoadFiles(inputs).Some? &&
              exists i :: 0 <= i < |LoadFiles(inputs).value| &&
                lib.load(LoadFiles(inputs).value[i].0, LoadFiles(inputs).value[i].1).None?)
    ensures ReadOnly(PublishPacts(broker, inputs, args, git, lib).sent)
    ensures PublishPacts(broker, inputs, args, git, lib).outcome != Ok(Obj([]))
  {
  }

  /** Without a version, given or detected, nothing is posted. */
  lemma NoPostWithoutVersion(broker: Broker, inputs: seq<Input>, args: PublishArgs, git: Git, lib: PactLibrary)
    requires args.version.None? && (!args.autoDetect || git.commit.None?)
    ensures ReadOnly(PublishPacts(broker, inputs, args, git, lib).sent)
  {
  }
}
