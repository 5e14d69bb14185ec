/** The `can-i-deploy` and `can-i-merge` commands
    (src/cli/pact_broker/main/can_i_deploy.rs): selectors read from the raw
    command line, the matrix query built from them, polling while the answer
    is unknown, and the verdict. */
module CanIDeploy {
  import opened Wrappers
  import opened Json
  import opened Errors
  import opened Client
  import Text
  import Percent

  // ---------------------------------------------------------------------------
  // Selectors

  /** `PacticipantArgs`: one application version the question is about. */
  datatype Selector = Selector(pacticipant: string, version: Option<string>, tags: seq<string>, latest: bool, mainBranch: bool)

  function NewSelector(name: string): (s: Selector)
    ensures s.pacticipant == name && s.version.None? && s.tags == [] && !s.latest && !s.mainBranch
  {
    Selector(name, None, [], false, false)
  }

  predicate IsPacticipantFlag(t: string) {
    t == "--pacticipant" || t == "-a"
  }

  /** What a token means when it is read in option position. */
  datatype Token = VersionFlag | TagFlag | LatestFlag | MainBranchFlag | PacticipantFlag | Other

  function Classify(t: string): (k: Token)
    ensures k == PacticipantFlag <==> IsPacticipantFlag(t)
  {
    if t == "--version" || t == "-e" then VersionFlag
    else if t == "--tag" then TagFlag
    else if t == "--latest" || t == "-l" then LatestFlag
    else if t == "--main-branch" then MainBranchFlag
    else if IsPacticipantFlag(t) then PacticipantFlag
    else Other
  }

  /** The options after a selector's name, read up to the next pacticipant
      flag. A value-taking option consumes the next token whatever it is; a
      trailing `--version` clears the version. Returns the selector and the
      tokens left unread. */
  function ReadOptions(sel: Selector, rest: seq<string>): (r: (Selector, seq<string>))
    ensures |r.1| <= |rest|
    decreases |rest|
  {
    if |rest| == 0 then (sel, rest)
    else match Classify(rest[0])
      case VersionFlag =>
        if |rest| == 1 then (sel.(version := None), [])
        else ReadOptions(sel.(version := Some(rest[1])), rest[2..])
      case TagFlag =>
        if |rest| == 1 then (sel, [])
        else ReadOptions(sel.(tags := sel.tags + [rest[1]]), rest[2..])
      case LatestFlag => ReadOptions(sel.(latest := true), rest[1..])
      case MainBranchFlag => ReadOptions(sel.(mainBranch := true), rest[1..])
      case PacticipantFlag => (sel, rest)
      case Other => ReadOptions(sel, rest[1..])
  }

  /** `left` is what reading leaves of `tokens`: a suffix of them, empty or
      starting with a pacticipant flag. */
  predicate UnreadSuffix(tokens: seq<string>, left: seq<string>) {
    |left| <= |tokens| && left == tokens[|tokens| - |left|..] && (|left| == 0 || IsPacticipantFlag(left[0]))
  }

  /** `b` is `a` with options added: the same name, `a`'s tags followed by
      more, and the flags `a` sets still set. */
  predicate Extends(a: Selector, b: Selector) {
    b.pacticipant == a.pacticipant && |a.tags| <= |b.tags| && b.tags[..|a.tags|] == a.tags &&
    (a.latest ==> b.latest) && (a.mainBranch ==> b.mainBranch)
  }

  lemma ExtendsTrans(a: Selector, b: Selector, c: Selector)
    requires Extends(a, b) && Extends(b, c)
    ensures Extends(a, c)
  {
    Text.PrefixOfPrefix(c.tags, |a.tags|, |b.tags|);
  }

  /** Reading stops at a pacticipant flag or at the end and leaves a suffix
      of the tokens unread. */
  lemma {:induction false} ReadOptionsRest(sel: Selector, rest: seq<string>)
    ensures UnreadSuffix(rest, ReadOptions(sel, rest).1)
    decreases |rest|
  {
    if |rest| > 0 {
      match Classify(rest[0])
      case VersionFlag =>
        if |rest| > 1 {
          ReadOptionsRest(sel.(version := Some(rest[1])), rest[2..]);
          Text.SuffixOfSuffix(rest, 2, |ReadOptions(sel, rest).1|);
        }
      case TagFlag =>
        if |rest| > 1 {
          ReadOptionsRest(sel.(tags := sel.tags + [rest[1]]), rest[2..]);
          Text.SuffixOfSuffix(rest, 2, |ReadOptions(sel, rest).1|);
        }
      case LatestFlag =>
        ReadOptionsRest(sel.(latest := true), rest[1..]);
        Text.SuffixOfSuffix(rest, 1, |ReadOptions(sel, rest).1|);
      case MainBranchFlag =>
        ReadOptionsRest(sel.(mainBranch := true), rest[1..]);
        Text.SuffixOfSuffix(rest, 1, |ReadOptions(sel, rest).1|);
      case PacticipantFlag =>
      case Other =>
        ReadOptionsRest(sel, rest[1..]);
        Text.SuffixOfSuffix(rest, 1, |ReadOptions(sel, rest).1|);
    }
  }

  /** Reading keeps the name and only adds tags and flags. */
  lemma {:induction false} ReadOptionsExtends(sel: Selector, rest: seq<string>)
    ensures Extends(sel, ReadOptions(sel, rest).0)
    decreases |rest|
  {
    if |rest| > 0 {
      match Classify(rest[0])
      case VersionFlag =>
        if |rest| > 1 {
          var next := sel.(version := Some(rest[1]));
          ReadOptionsExtends(next, rest[2..]);
          ExtendsTrans(sel, next, ReadOptions(next, rest[2..]).0);
        }
      case TagFlag =>
        if |rest| > 1 {
          var next := sel.(tags := sel.tags + [rest[1]]);
          Text.PrefixAppend(sel.tags, [rest[1]]);
          ReadOptionsExtends(next, rest[2..]);
          ExtendsTrans(sel, next, ReadOptions(next, rest[2..]).0);
        }
      case LatestFlag =>
        var next := sel.(latest := true);
        ReadOptionsExtends(next, rest[1..]);
        ExtendsTrans(sel, next, ReadOptions(next, rest[1..]).0);
      case MainBranchFlag =>
        var next := sel.(mainBranch := true);
        ReadOptionsExtends(next, rest[1..]);
        ExtendsTrans(sel, next, ReadOptions(next, rest[1..]).0);
      case PacticipantFlag =>
      case Other =>
        ReadOptionsExtends(sel, rest[1..]);
    }
  }

  /** `parse_args_from_matches`: one selector per pacticipant flag read in
      flag position, named by the token after it. A flag with nothing after it
      panics. */
  function ParseSelectors(raw: seq<string>): (r: Outcome<seq<Selector>, BrokerError>)
    ensures !r.Err?
    decreases |raw|
  {
    if |raw| == 0 then Ok([])
    else if !IsPacticipantFlag(raw[0]) then ParseSelectors(raw[1..])
    else if |raw| == 1 then Halted(Panic("Expected value after --pacticipant"))
    else
      var (sel, rest) := ReadOptions(NewSelector(raw[1]), raw[2..]);
      match ParseSelectors(rest)
      case Ok(more) => Ok([sel] + more)
      case Halted(h) => Halted(h)
  }

  /** Every selector is named by a token of the command line, and each took
      at least the flag and the name. */
  lemma {:induction false} ParsedNames(raw: seq<string>)
    ensures var r := ParseSelectors(raw);
            r.Ok? ==> 2 * |r.value| <= |raw| && forall i :: 0 <= i < |r.value| ==> r.value[i].pacticipant in raw
    decreases |raw|
  {
    if |raw| > 0 {
      if !IsPacticipantFlag(raw[0]) {
        ParsedNames(raw[1..]);
        Text.SuffixOfSuffix(raw, 1, |raw| - 1);
        Text.SuffixMembers(raw, raw[1..]);
      } else if |raw| > 1 {
        ReadOptionsRest(NewSelector(raw[1]), raw[2..]);
        ReadOptionsExtends(NewSelector(raw[1]), raw[2..]);
        var (sel, rest) := ReadOptions(NewSelector(raw[1]), raw[2..]);
        Text.SuffixOfSuffix(raw, 2, |rest|);
        Text.SuffixMembers(raw, rest);
        ParsedNames(rest);
        var r := ParseSelectors(raw);
        if r.Ok? {
          var more := ParseSelectors(rest).value;
          assert r.value == [sel] + more;
          forall i | 0 <= i < |r.value| ensures r.value[i].pacticipant in raw {
            if i > 0 {
              assert r.value[i] == more[i - 1];
            }
          }
        }
      }
    }
  }

  /** Tokens before the first pacticipant flag are ignored. */
  lemma {:induction false} LeadingTokensIgnored(prefix: seq<string>, raw: seq<string>)
    requires forall i :: 0 <= i < |prefix| ==> !IsPacticipantFlag(prefix[i])
    ensures ParseSelectors(prefix + raw) == ParseSelectors(raw)
  {
    if |prefix| > 0 {
      LeadingTokensIgnored(prefix[1..], raw);
      assert (prefix + raw)[1..] == prefix[1..] + raw;
    } else {
      assert prefix + raw == raw;
    }
  }

  /** A later `--version` replaces an earlier one. */
  lemma LaterVersionWins(sel: Selector, a: string, b: string, rest: seq<string>)
    ensures ReadOptions(sel, ["--version", a, "--version", b] + rest) == ReadOptions(sel.(version := Some(b)), rest)
  {
    var t := ["--version", a, "--version", b] + rest;
    assert Classify("--version") == VersionFlag;
    assert t[2..] == ["--version", b] + rest;
    assert t[2..][2..] == rest;
  }

  /** The command line that states a selector in full. */
  function TagTokens(tags: seq<string>): seq<string> {
    if |tags| == 0 then [] else ["--tag", tags[0]] + TagTokens(tags[1..])
  }

  /** The options of a selector, followed by the given tokens. */
  function OptionTokens(s: Selector, rest: seq<string>): seq<string> {
    (if s.version.Some? then ["--version", s.version.value] else []) +
    ((if s.latest then ["--latest"] else []) +
     (TagTokens(s.tags) +
      ((if s.mainBranch then ["--main-branch"] else []) + rest)))
  }

  function Render(sels: seq<Selector>): (r: seq<string>)
    ensures |r| == 0 || IsPacticipantFlag(r[0])
  {
    if |sels| == 0 then [] else ["--pacticipant", sels[0].pacticipant] + OptionTokens(sels[0], Render(sels[1..]))
  }

  lemma ReadTag(sel: Selector, tag: string, rest: seq<string>)
    ensures ReadOptions(sel, ["--tag", tag] + rest) == ReadOptions(sel.(tags := sel.tags + [tag]), rest)
  {
    assert Classify("--tag") == TagFlag;
    assert (["--tag", tag] + rest)[2..] == rest;
  }

  lemma TagTokensCons(tags: seq<string>, rest: seq<string>)
    requires |tags| > 0
    ensures TagTokens(tags) + rest == ["--tag", tags[0]] + (TagTokens(tags[1..]) + rest)
  {
    var head: seq<string> := ["--tag", tags[0]];
    var more := TagTokens(tags[1..]);
    assert TagTokens(tags) == head + more;
    Text.AppendAssoc(head, more, rest);
  }

  lemma {:induction false} ReadTags(sel: Selector, tags: seq<string>, rest: seq<string>)
    ensures ReadOptions(sel, TagTokens(tags) + rest) == ReadOptions(sel.(tags := sel.tags + tags), rest)
    decreases |tags|
  {
    if |tags| == 0 {
      assert sel.tags + tags == sel.tags;
      assert sel.(tags := sel.tags + tags) == sel;
      assert TagTokens(tags) + rest == rest;
    } else {
      var after := TagTokens(tags[1..]) + rest;
      var next := sel.(tags := sel.tags + [tags[0]]);
      assert ReadOptions(sel, TagTokens(tags) + rest) == ReadOptions(next, after) by {
        TagTokensCons(tags, rest);
        ReadTag(sel, tags[0], after);
      }
      assert ReadOptions(next, after) == ReadOptions(sel.(tags := sel.tags + tags), rest) by {
        ReadTags(next, tags[1..], rest);
        Text.AppendAssoc(sel.tags, [tags[0]], tags[1..]);
        Text.HeadTail(tags);
      }
    }
  }

  lemma ReadStop(sel: Selector, rest: seq<string>)
    requires |rest| == 0 || IsPacticipantFlag(rest[0])
    ensures ReadOptions(sel, rest) == (sel, rest)
  {
  }

  lemma ReadVersion(sel: Selector, v: string, rest: seq<string>)
    ensures ReadOptions(sel, ["--version", v] + rest) == ReadOptions(sel.(version := Some(v)), rest)
  {
    assert Classify("--version") == VersionFlag;
    assert (["--version", v] + rest)[2..] == rest;
  }

  lemma ReadLatest(sel: Selector, rest: seq<string>)
    ensures ReadOptions(sel, ["--latest"] + rest) == ReadOptions(sel.(latest := true), rest)
  {
    assert Classify("--latest") == LatestFlag;
    assert (["--latest"] + rest)[1..] == rest;
  }

  lemma ReadMainBranch(sel: Selector, rest: seq<string>)
    ensures ReadOptions(sel, ["--main-branch"] + rest) == ReadOptions(sel.(mainBranch := true), rest)
  {
    assert Classify("--main-branch") == MainBranchFlag;
    assert (["--main-branch"] + rest)[1..] == rest;
  }

  lemma ReadBranch(s: Selector, rest: seq<string>)
    requires |rest| == 0 || IsPacticipantFlag(rest[0])
    ensures ReadOptions(s.(mainBranch := false), (if s.mainBranch then ["--main-branch"] else []) + rest) == (s, rest)
  {
    var tokens: seq<string> := if s.mainBranch then ["--main-branch"] else [];
    if s.mainBranch {
      var s3 := s.(mainBranch := false);
      calc {
        ReadOptions(s3, tokens + rest);
        { ReadMainBranch(s3, rest); }
        ReadOptions(s3.(mainBranch := true), rest);
        { assert s3.(mainBranch := true) == s; }
        ReadOptions(s, rest);
        { ReadStop(s, rest); }
        (s, rest);
      }
    } else {
      assert tokens + rest == rest;
      assert s.(mainBranch := false) == s;
      ReadStop(s, rest);
    }
  }

  lemma ReadTagsAndBranch(s: Selector, rest: seq<string>)
    requires |rest| == 0 || IsPacticipantFlag(rest[0])
    ensures ReadOptions(s.(tags := [], mainBranch := false),
                        TagTokens(s.tags) + ((if s.mainBranch then ["--main-branch"] else []) + rest)) == (s, rest)
  {
    var s2 := s.(tags := [], mainBranch := false);
    var s3 := s.(mainBranch := false);
    var afterTags := (if s.mainBranch then ["--main-branch"] else []) + rest;
    assert ReadOptions(s3, afterTags) == (s, rest) by {
      ReadBranch(s, rest);
    }
    assert ReadOptions(s2, TagTokens(s.tags) + afterTags) == ReadOptions(s3, afterTags) by {
      ReadTags(s2, s.tags, afterTags);
      assert s2.(tags := s2.tags + s.tags) == s3;
    }
  }

  lemma ReadOptionTokens(s: Selector, rest: seq<string>)
    requires |rest| == 0 || IsPacticipantFlag(rest[0])
    ensures ReadOptions(NewSelector(s.pacticipant), OptionTokens(s, rest)) == (s, rest)
  {
    var s0 := NewSelector(s.pacticipant);
    var s1 := s0.(version := s.version);
    var s2 := s.(tags := [], mainBranch := false);
    var afterLatest := TagTokens(s.tags) + ((if s.mainBranch then ["--main-branch"] else []) + rest);
    var afterVersion := (if s.latest then ["--latest"] else []) + afterLatest;
    assert ReadOptions(s2, afterLatest) == (s, rest) by {
      ReadTagsAndBranch(s, rest);
    }
    assert ReadOptions(s1, afterVersion) == ReadOptions(s2, afterLatest) by {
      if s.latest {
        ReadLatest(s1, afterLatest);
        assert s1.(latest := true) == s2;
      } else {
        assert afterVersion == afterLatest && s1 == s2;
      }
    }
    assert ReadOptions(s0, OptionTokens(s, rest)) == ReadOptions(s1, afterVersion) by {
      if s.version.Some? {
        ReadVersion(s0, s.version.value, afterVersion);
        assert s0.(version := Some(s.version.value)) == s1;
      } else {
        assert OptionTokens(s, rest) == afterVersion && s0 == s1;
      }
    }
  }

  /** Reading back a command line that states the selectors gives the selectors. */
  lemma {:induction false} ParseRender(sels: seq<Selector>)
    ensures ParseSelectors(Render(sels)) == Ok(sels)
  {
    if |sels| > 0 {
      var rest := Render(sels[1..]);
      var raw := Render(sels);
      assert IsPacticipantFlag(raw[0]) && |raw| > 1 && raw[1] == sels[0].pacticipant;
      assert ReadOptions(NewSelector(raw[1]), raw[2..]) == (sels[0], rest) by {
        Text.DropPrefix(["--pacticipant", sels[0].pacticipant], OptionTokens(sels[0], rest));
        ReadOptionTokens(sels[0], rest);
      }
      assert ParseSelectors(rest) == Ok(sels[1..]) by {
        ParseRender(sels[1..]);
      }
      Text.HeadTail(sels);
    }
  }

  // ---------------------------------------------------------------------------
  // Matrix query

  /** The query written as in the command: every selector term and the `to`
      tag end in `&`; `latestby` follows, and the remaining terms start with `&`. */
  function TagQuery(tags: seq<string>): string {
    if |tags| == 0 then "" else "q[][tag]=" + Percent.Encode(tags[0]) + "&" + TagQuery(tags[1..])
  }

  function SelectorQuery(s: Selector): string {
    ("q[][pacticipant]=" + Percent.Encode(s.pacticipant) + "&") +
    ((if s.version.Some? then "q[][version]=" + Percent.Encode(s.version.value) + "&" else "") +
     ((if s.latest then "q[][latest]=true&" else "") +
      (TagQuery(s.tags) +
       (if s.mainBranch then "q[][mainBranch]=true&" else ""))))
  }

  function SelectorsQuery(sels: seq<Selector>): string {
    if |sels| == 0 then "" else SelectorQuery(sels[0]) + SelectorsQuery(sels[1..])
  }

  const MatrixPrefix := "/matrix?"

  function MatrixQuery(sels: seq<Selector>, to: Option<string>, toEnvironment: Option<string>, canIMerge: bool): string {
    MatrixPrefix +
    (SelectorsQuery(sels) +
     ((if to.Some? then "tag=" + Percent.Encode(to.value) + "&" else "") +
      ((if |sels| == 1 then "latestby=cvp" else "latestby=cvpv") +
       ((if toEnvironment.Some? then "&environment=" + Percent.Encode(toEnvironment.value) else "") +
        ((if toEnvironment.None? && |sels| == 1 then "&latest=true" else "") +
         (if canIMerge then "&mainBranch=true" else ""))))))
  }

  /** The same query as a list of terms, each a key and its value before encoding. */
  datatype Term = Term(key: string, value: string)

  function TermText(t: Term): string {
    t.key + "=" + Percent.Encode(t.value)
  }

  function TermTexts(ts: seq<Term>): (r: seq<string>)
    ensures |r| == |ts| && forall i :: 0 <= i < |ts| ==> r[i] == TermText(ts[i])
  {
    seq(|ts|, i requires 0 <= i < |ts| => TermText(ts[i]))
  }

  function TagTerms(tags: seq<string>): (r: seq<Term>)
    ensures |r| == |tags| && forall i :: 0 <= i < |tags| ==> r[i] == Term("q[][tag]", tags[i])
    ensures forall i :: 0 <= i < |r| ==> SelectorKey(r[i].key)
  {
    if |tags| == 0 then [] else [Term("q[][tag]", tags[0])] + TagTerms(tags[1..])
  }

  function SelectorTerms(s: Selector): (r: seq<Term>)
    ensures |r| >= 1 && r[0] == Term("q[][pacticipant]", s.pacticipant)
    ensures forall i :: 0 <= i < |r| ==> SelectorKey(r[i].key)
  {
    [Term("q[][pacticipant]", s.pacticipant)] +
    ((if s.version.Some? then [Term("q[][version]", s.version.value)] else []) +
     ((if s.latest then [Term("q[][latest]", "true")] else []) +
      (TagTerms(s.tags) +
       (if s.mainBranch then [Term("q[][mainBranch]", "true")] else []))))
  }

  function AllSelectorTerms(sels: seq<Selector>): (r: seq<Term>)
    ensures forall i :: 0 <= i < |r| ==> SelectorKey(r[i].key)
    ensures forall i :: 0 <= i < |sels| ==> Term("q[][pacticipant]", sels[i].pacticipant) in r
  {
    if |sels| == 0 then [] else SelectorTerms(sels[0]) + AllSelectorTerms(sels[1..])
  }

  /** The keys of the terms that describe one selector. */
  predicate SelectorKey(k: string) {
    k in {"q[][pacticipant]", "q[][version]", "q[][latest]", "q[][tag]", "q[][mainBranch]"}
  }

  /** The keys a matrix query uses. */
  predicate QueryKey(k: string) {
    SelectorKey(k) || TrailingKey(k)
  }

  /** The keys of the terms after the selectors'. */
  predicate TrailingKey(k: string) {
    k in {"tag", "latestby", "environment", "latest", "mainBranch"}
  }

  predicate QueryKeys(ts: seq<Term>) {
    forall i :: 0 <= i < |ts| ==> QueryKey(ts[i].key)
  }

  lemma QueryKeysConcat(a: seq<Term>, b: seq<Term>)
    requires QueryKeys(a) && QueryKeys(b)
    ensures QueryKeys(a + b)
  {
    assert forall i :: |a| <= i < |a + b| ==> (a + b)[i] == b[i - |a|];
  }

  /** The terms of the matrix query: the selectors' terms in order, then the
      target tag, `latestby`, the target environment, `latest` and `mainBranch`. */
  function MatrixTerms(sels: seq<Selector>, to: Option<string>, toEnvironment: Option<string>, canIMerge: bool): (r: seq<Term>)
    ensures |AllSelectorTerms(sels)| < |r| && r[..|AllSelectorTerms(sels)|] == AllSelectorTerms(sels)
  {
    AllSelectorTerms(sels) +
    ((if to.Some? then [Term("tag", to.value)] else []) +
     ([Term("latestby", if |sels| == 1 then "cvp" else "cvpv")] +
      ((if toEnvironment.Some? then [Term("environment", toEnvironment.value)] else []) +
       ((if toEnvironment.None? && |sels| == 1 then [Term("latest", "true")] else []) +
        (if canIMerge then [Term("mainBranch", "true")] else [])))))
  }

  /** Terms each followed by `&`, and terms each preceded by `&`. */
  function Terminated(ts: seq<Term>): string {
    if |ts| == 0 then "" else TermText(ts[0]) + "&" + Terminated(ts[1..])
  }

  function Prefixed(ts: seq<Term>): string {
    if |ts| == 0 then "" else "&" + TermText(ts[0]) + Prefixed(ts[1..])
  }

  lemma {:induction false} TerminatedConcat(a: seq<Term>, b: seq<Term>)
    ensures Terminated(a + b) == Terminated(a) + Terminated(b)
  {
    if |a| > 0 {
      TerminatedConcat(a[1..], b);
      Text.TailAppend(a, b);
    } else {
      Text.AppendEmpty(b);
    }
  }

  lemma {:induction false} PrefixedConcat(a: seq<Term>, b: seq<Term>)
    ensures Prefixed(a + b) == Prefixed(a) + Prefixed(b)
  {
    if |a| > 0 {
      PrefixedConcat(a[1..], b);
      Text.TailAppend(a, b);
    } else {
      Text.AppendEmpty(b);
    }
  }

  lemma {:induction false} JoinPrefixed(x: Term, b: seq<Term>)
    ensures Text.Join(TermTexts([x] + b), "&") == TermText(x) + Prefixed(b)
    decreases |b|
  {
    if |b| > 0 {
      var t := TermTexts([x] + b);
      var tail := TermText(b[0]) + Prefixed(b[1..]);
      assert Text.Join(TermTexts(b), "&") == tail by {
        JoinPrefixed(b[0], b[1..]);
        Text.HeadTail(b);
      }
      TermTextsCons(x, b);
      assert Text.Join(t, "&") == TermText(x) + "&" + tail;
      assert Prefixed(b) == "&" + TermText(b[0]) + Prefixed(b[1..]);
      Text.AppendAssoc(TermText(x), "&", tail);
      Text.AppendAssoc("&", TermText(b[0]), Prefixed(b[1..]));
    } else {
      Text.AppendEmpty([x]);
    }
  }

  lemma TermTextsCons(x: Term, b: seq<Term>)
    ensures TermTexts([x] + b)[0] == TermText(x) && TermTexts([x] + b)[1..] == TermTexts(b)
  {
    var t := TermTexts([x] + b);
    assert forall i :: 0 <= i < |b| ==> t[1..][i] == TermText(b[i]);
  }

  lemma {:induction false} JoinTerminated(a: seq<Term>, l: seq<Term>)
    requires |l| >= 1
    ensures Terminated(a) + Text.Join(TermTexts(l), "&") == Text.Join(TermTexts(a + l), "&")
  {
    if |a| > 0 {
      JoinTerminated(a[1..], l);
      Text.TailAppend(a, l);
      assert TermTexts(a + l)[1..] == TermTexts(a[1..] + l);
    } else {
      Text.AppendEmpty(l);
    }
  }

  lemma Unreserved4(s: string)
    requires |s| <= 4
    requires forall i :: 0 <= i < |s| ==> 'a' <= s[i] <= 'z'
    ensures Percent.Encode(s) == s
  {
    Percent.EncodeUnreservedIdentity(s);
  }

  lemma {:induction false} TagQueryTerms(tags: seq<string>)
    ensures TagQuery(tags) == Terminated(TagTerms(tags))
  {
    if |tags| > 0 {
      TagQueryTerms(tags[1..]);
    }
  }

  lemma Terminated1(k: string, v: string)
    ensures Terminated([Term(k, v)]) == k + "=" + Percent.Encode(v) + "&"
  {
  }

  lemma Prefixed1(k: string, v: string)
    ensures Prefixed([Term(k, v)]) == "&" + k + "=" + Percent.Encode(v)
  {
  }

  lemma OptionalPiece(present: bool, k: string, v: string, piece: string)
    requires present ==> piece == k + "=" + Percent.Encode(v) + "&"
    requires !present ==> piece == ""
    ensures piece == Terminated(if present then [Term(k, v)] else [])
  {
    if present {
      Terminated1(k, v);
    }
  }

  lemma Assemble(pq: string, vq: string, lq: string, tq: string, mq: string,
                 p: seq<Term>, v: seq<Term>, l: seq<Term>, t: seq<Term>, m: seq<Term>)
    requires pq == Terminated(p) && vq == Terminated(v) && lq == Terminated(l)
    requires tq == Terminated(t) && mq == Terminated(m)
    ensures pq + (vq + (lq + (tq + mq))) == Terminated(p + (v + (l + (t + m))))
  {
    TerminatedConcat(t, m);
    TerminatedConcat(l, t + m);
    TerminatedConcat(v, l + (t + m));
    TerminatedConcat(p, v + (l + (t + m)));
  }

  lemma TruePiece(k: string)
    ensures k + "=true&" == Terminated([Term(k, "true")])
  {
    Unreserved4("true");
    Terminated1(k, "true");
    assert k + "=true&" == k + "=" + "true" + "&";
  }

  lemma ValuePiece(k: string, v: string)
    ensures k + "=" + Percent.Encode(v) + "&" == Terminated([Term(k, v)])
  {
    Terminated1(k, v);
  }

  lemma SelectorQueryTerms(s: Selector)
    ensures SelectorQuery(s) == Terminated(SelectorTerms(s))
  {
    var p := [Term("q[][pacticipant]", s.pacticipant)];
    var v := if s.version.Some? then [Term("q[][version]", s.version.value)] else [];
    var l := if s.latest then [Term("q[][latest]", "true")] else [];
    var t := TagTerms(s.tags);
    var m := if s.mainBranch then [Term("q[][mainBranch]", "true")] else [];
    var pq := "q[][pacticipant]=" + Percent.Encode(s.pacticipant) + "&";
    var vq := if s.version.Some? then "q[][version]=" + Percent.Encode(s.version.value) + "&" else "";
    var lq := if s.latest then "q[][latest]=true&" else "";
    var mq := if s.mainBranch then "q[][mainBranch]=true&" else "";
    assert pq == Terminated(p) by {
      assert "q[][pacticipant]=" == "q[][pacticipant]" + "=";
      ValuePiece("q[][pacticipant]", s.pacticipant);
    }
    assert vq == Terminated(v) by {
      if s.version.Some? {
        assert "q[][version]=" == "q[][version]" + "=";
        ValuePiece("q[][version]", s.version.value);
      }
    }
    assert lq == Terminated(l) by {
      if s.latest {
        assert "q[][latest]=true&" == "q[][latest]" + "=true&";
        TruePiece("q[][latest]");
      }
    }
    assert mq == Terminated(m) by {
      if s.mainBranch {
        assert "q[][mainBranch]=true&" == "q[][mainBranch]" + "=true&";
        TruePiece("q[][mainBranch]");
      }
    }
    TagQueryTerms(s.tags);
    Assemble(pq, vq, lq, TagQuery(s.tags), mq, p, v, l, t, m);
  }

  lemma {:induction false} SelectorsQueryTerms(sels: seq<Selector>)
    ensures SelectorsQuery(sels) == Terminated(AllSelectorTerms(sels))
  {
    if |sels| > 0 {
      SelectorsQueryTerms(sels[1..]);
      SelectorQueryTerms(sels[0]);
      TerminatedConcat(SelectorTerms(sels[0]), AllSelectorTerms(sels[1..]));
    }
  }

  lemma AssembleQuery(aq: string, tq: string, xq: string, eq: string, lq: string, mq: string,
                      a: seq<Term>, t: seq<Term>, x: Term, e: seq<Term>, l: seq<Term>, m: seq<Term>)
    requires aq == Terminated(a) && tq == Terminated(t) && xq == TermText(x)
    requires eq == Prefixed(e) && lq == Prefixed(l) && mq == Prefixed(m)
    ensures aq + (tq + (xq + (eq + (lq + mq)))) == Text.Join(TermTexts(a + (t + ([x] + (e + (l + m))))), "&")
  {
    PrefixedConcat(l, m);
    PrefixedConcat(e, l + m);
    JoinPrefixed(x, e + (l + m));
    JoinTerminated(t, [x] + (e + (l + m)));
    JoinTerminated(a, t + ([x] + (e + (l + m))));
  }

  /** How the fixed pieces of the query split into key and value. */
  lemma QueryLiterals()
    ensures "latestby=cvp" == "latestby" + "=" + "cvp" && "latestby=cvpv" == "latestby" + "=" + "cvpv"
    ensures "&environment=" == "&" + "environment" + "="
    ensures "&latest=true" == "&" + "latest" + "=true"
    ensures "&mainBranch=true" == "&" + "mainBranch" + "=true"
  {
  }

  lemma TrueTerm(k: string)
    ensures "&" + k + "=true" == Prefixed([Term(k, "true")])
  {
    Unreserved4("true");
    Prefixed1(k, "true");
  }

  lemma TagPiece(to: Option<string>)
    ensures (if to.Some? then "tag=" + Percent.Encode(to.value) + "&" else "")
         == Terminated(if to.Some? then [Term("tag", to.value)] else [])
  {
    if to.Some? {
      assert "tag=" == "tag" + "=";
      ValuePiece("tag", to.value);
    }
  }

  lemma LatestByPiece(single: bool)
    ensures (if single then "latestby=cvp" else "latestby=cvpv") == TermText(Term("latestby", if single then "cvp" else "cvpv"))
  {
    Unreserved4("cvp");
    Unreserved4("cvpv");
    QueryLiterals();
  }

  lemma EnvironmentPiece(toEnvironment: Option<string>)
    ensures (if toEnvironment.Some? then "&environment=" + Percent.Encode(toEnvironment.value) else "")
         == Prefixed(if toEnvironment.Some? then [Term("environment", toEnvironment.value)] else [])
  {
    if toEnvironment.Some? {
      QueryLiterals();
      Prefixed1("environment", toEnvironment.value);
    }
  }

  lemma FlagPiece(on: bool, k: string, text: string)
    requires text == "&" + k + "=true"
    ensures (if on then text else "") == Prefixed(if on then [Term(k, "true")] else [])
  {
    if on {
      TrueTerm(k);
    }
  }

  /** The query the command writes is its terms joined by `&`. */
  lemma MatrixQueryJoin(sels: seq<Selector>, to: Option<string>, toEnvironment: Option<string>, canIMerge: bool)
    ensures MatrixQuery(sels, to, toEnvironment, canIMerge)
         == MatrixPrefix + Text.Join(TermTexts(MatrixTerms(sels, to, toEnvironment, canIMerge)), "&")
  {
    var a := AllSelectorTerms(sels);
    var t := if to.Some? then [Term("tag", to.value)] else [];
    var x := Term("latestby", if |sels| == 1 then "cvp" else "cvpv");
    var e := if toEnvironment.Some? then [Term("environment", toEnvironment.value)] else [];
    var l := if toEnvironment.None? && |sels| == 1 then [Term("latest", "true")] else [];
    var m := if canIMerge then [Term("mainBranch", "true")] else [];
    SelectorsQueryTerms(sels);
    TagPiece(to);
    LatestByPiece(|sels| == 1);
    EnvironmentPiece(toEnvironment);
    QueryLiterals();
    FlagPiece(toEnvironment.None? && |sels| == 1, "latest", "&latest=true");
    FlagPiece(canIMerge, "mainBranch", "&mainBranch=true");
    AssembleQuery(SelectorsQuery(sels),
                  if to.Some? then "tag=" + Percent.Encode(to.value) + "&" else "",
                  if |sels| == 1 then "latestby=cvp" else "latestby=cvpv",
                  if toEnvironment.Some? then "&environment=" + Percent.Encode(toEnvironment.value) else "",
                  if toEnvironment.None? && |sels| == 1 then "&latest=true" else "",
                  if canIMerge then "&mainBranch=true" else "",
                  a, t, x, e, l, m);
  }

  /** The terms after the selectors'. */
  function OptionTerms(sels: seq<Selector>, to: Option<string>, toEnvironment: Option<string>, canIMerge: bool): (r: seq<Term>)
    ensures MatrixTerms(sels, to, toEnvironment, canIMerge) == AllSelectorTerms(sels) + r
  {
    (if to.Some? then [Term("tag", to.value)] else []) +
    ([Term("latestby", if |sels| == 1 then "cvp" else "cvpv")] +
     ((if toEnvironment.Some? then [Term("environment", toEnvironment.value)] else []) +
      ((if toEnvironment.None? && |sels| == 1 then [Term("latest", "true")] else []) +
       (if canIMerge then [Term("mainBranch", "true")] else []))))
  }

  lemma KeysDiffer()
    ensures !SelectorKey("tag") && !SelectorKey("latestby") && !SelectorKey("environment")
    ensures !SelectorKey("latest") && !SelectorKey("mainBranch")
    ensures "tag" != "latestby" && "tag" != "environment" && "tag" != "latest" && "tag" != "mainBranch"
    ensures "latestby" != "environment" && "latestby" != "latest" && "latestby" != "mainBranch"
    ensures "environment" != "latest" && "environment" != "mainBranch" && "latest" != "mainBranch"
  {
  }

  /** A trailing term is in the query exactly when it is among the trailing terms. */
  lemma TrailingMember(sels: seq<Selector>, to: Option<string>, toEnvironment: Option<string>, canIMerge: bool, t: Term)
    requires !SelectorKey(t.key)
    ensures t in MatrixTerms(sels, to, toEnvironment, canIMerge) <==> t in OptionTerms(sels, to, toEnvironment, canIMerge)
  {
    assert t !in AllSelectorTerms(sels);
  }

  lemma OptionTermsLatestBy(sels: seq<Selector>, to: Option<string>, toEnvironment: Option<string>, canIMerge: bool)
    ensures Term("latestby", "cvp") in OptionTerms(sels, to, toEnvironment, canIMerge) <==> |sels| == 1
    ensures Term("latestby", "cvpv") in OptionTerms(sels, to, toEnvironment, canIMerge) <==> |sels| != 1
  {
    var t := if to.Some? then [Term("tag", to.value)] else [];
    var x := Term("latestby", if |sels| == 1 then "cvp" else "cvpv");
    var e := if toEnvironment.Some? then [Term("environment", toEnvironment.value)] else [];
    var l := if toEnvironment.None? && |sels| == 1 then [Term("latest", "true")] else [];
    var m := if canIMerge then [Term("mainBranch", "true")] else [];
    KeysDiffer();
    assert "cvp" != "cvpv";
    var w1 := Term("latestby", "cvp");
    var w2 := Term("latestby", "cvpv");
    assert w1 !in t && w1 !in e && w1 !in l && w1 !in m;
    assert w2 !in t && w2 !in e && w2 !in l && w2 !in m;
    assert w1 in t + ([x] + (e + (l + m))) <==> w1 == x;
    assert w2 in t + ([x] + (e + (l + m))) <==> w2 == x;
  }

  lemma OptionTermsFlags(sels: seq<Selector>, to: Option<string>, toEnvironment: Option<string>, canIMerge: bool)
    ensures Term("latest", "true") in OptionTerms(sels, to, toEnvironment, canIMerge) <==> toEnvironment.None? && |sels| == 1
    ensures Term("mainBranch", "true") in OptionTerms(sels, to, toEnvironment, canIMerge) <==> canIMerge
  {
    var t := if to.Some? then [Term("tag", to.value)] else [];
    var x := Term("latestby", if |sels| == 1 then "cvp" else "cvpv");
    var e := if toEnvironment.Some? then [Term("environment", toEnvironment.value)] else [];
    var l := if toEnvironment.None? && |sels| == 1 then [Term("latest", "true")] else [];
    var m := if canIMerge then [Term("mainBranch", "true")] else [];
    KeysDiffer();
    var wl := Term("latest", "true");
    var wm := Term("mainBranch", "true");
    assert wl !in t && wl != x && wl !in e && wl !in m;
    assert wm !in t && wm != x && wm !in e && wm !in l;
    assert wl in t + ([x] + (e + (l + m))) <==> wl in l;
    assert wm in t + ([x] + (e + (l + m))) <==> wm in m;
  }

  lemma OptionTermsEnvironment(sels: seq<Selector>, to: Option<string>, toEnvironment: Option<string>, canIMerge: bool, v: string)
    ensures Term("environment", v) in OptionTerms(sels, to, toEnvironment, canIMerge) <==> toEnvironment == Some(v)
  {
    var t := if to.Some? then [Term("tag", to.value)] else [];
    var x := Term("latestby", if |sels| == 1 then "cvp" else "cvpv");
    var e := if toEnvironment.Some? then [Term("environment", toEnvironment.value)] else [];
    var l := if toEnvironment.None? && |sels| == 1 then [Term("latest", "true")] else [];
    var m := if canIMerge then [Term("mainBranch", "true")] else [];
    KeysDiffer();
    var w := Term("environment", v);
    assert w !in t && w != x && w !in l && w !in m;
    assert w in t + ([x] + (e + (l + m))) <==> w in e;
  }

  lemma OptionTermsTag(sels: seq<Selector>, to: Option<string>, toEnvironment: Option<string>, canIMerge: bool, v: string)
    ensures Term("tag", v) in OptionTerms(sels, to, toEnvironment, canIMerge) <==> to == Some(v)
  {
    var t := if to.Some? then [Term("tag", to.value)] else [];
    var x := Term("latestby", if |sels| == 1 then "cvp" else "cvpv");
    var e := if toEnvironment.Some? then [Term("environment", toEnvironment.value)] else [];
    var l := if toEnvironment.None? && |sels| == 1 then [Term("latest", "true")] else [];
    var m := if canIMerge then [Term("mainBranch", "true")] else [];
    KeysDiffer();
    var w := Term("tag", v);
    assert w != x && w !in e && w !in l && w !in m;
    assert w in t + ([x] + (e + (l + m))) <==> w in t;
  }

  /** Which of the trailing terms a query carries: `latestby=cvp` for a single
      selector and `cvpv` otherwise, `latest=true` for a single selector with
      no target environment, `mainBranch=true` for can-i-merge, and the target
      environment and tag exactly when given. */
  lemma MatrixTermsOptions(sels: seq<Selector>, to: Option<string>, toEnvironment: Option<string>, canIMerge: bool, v: string)
    ensures var r := MatrixTerms(sels, to, toEnvironment, canIMerge);
      (Term("latestby", "cvp") in r <==> |sels| == 1) &&
      (Term("latestby", "cvpv") in r <==> |sels| != 1) &&
      (Term("latest", "true") in r <==> toEnvironment.None? && |sels| == 1) &&
      (Term("mainBranch", "true") in r <==> canIMerge) &&
      (Term("environment", v) in r <==> toEnvironment == Some(v)) &&
      (Term("tag", v) in r <==> to == Some(v))
  {
    KeysDiffer();
    TrailingMember(sels, to, toEnvironment, canIMerge, Term("latestby", "cvp"));
    TrailingMember(sels, to, toEnvironment, canIMerge, Term("latestby", "cvpv"));
    TrailingMember(sels, to, toEnvironment, canIMerge, Term("latest", "true"));
    TrailingMember(sels, to, toEnvironment, canIMerge, Term("mainBranch", "true"));
    TrailingMember(sels, to, toEnvironment, canIMerge, Term("environment", v));
    TrailingMember(sels, to, toEnvironment, canIMerge, Term("tag", v));
    OptionTermsLatestBy(sels, to, toEnvironment, canIMerge);
    OptionTermsFlags(sels, to, toEnvironment, canIMerge);
    OptionTermsEnvironment(sels, to, toEnvironment, canIMerge, v);
    OptionTermsTag(sels, to, toEnvironment, canIMerge, v);
  }

  /** Every key of a query is one the matrix understands. */
  lemma MatrixTermsKeys(sels: seq<Selector>, to: Option<string>, toEnvironment: Option<string>, canIMerge: bool)
    ensures QueryKeys(MatrixTerms(sels, to, toEnvironment, canIMerge))
  {
    var t: seq<Term> := if to.Some? then [Term("tag", to.value)] else [];
    var x := [Term("latestby", if |sels| == 1 then "cvp" else "cvpv")];
    var e: seq<Term> := if toEnvironment.Some? then [Term("environment", toEnvironment.value)] else [];
    var l: seq<Term> := if toEnvironment.None? && |sels| == 1 then [Term("latest", "true")] else [];
    var m: seq<Term> := if canIMerge then [Term("mainBranch", "true")] else [];
    assert QueryKeys(t) && QueryKeys(x) && QueryKeys(e) && QueryKeys(l) && QueryKeys(m);
    QueryKeysConcat(l, m);
    QueryKeysConcat(e, l + m);
    QueryKeysConcat(x, e + (l + m));
    QueryKeysConcat(t, x + (e + (l + m)));
    QueryKeysConcat(AllSelectorTerms(sels), t + (x + (e + (l + m))));
    assert MatrixTerms(sels, to, toEnvironment, canIMerge) == AllSelectorTerms(sels) + (t + (x + (e + (l + m))));
  }

  /** Reading a query back: the pieces after `/matrix?` between the `&`s, each
      split at its first `=` into a key and a percent-decoded value. */
  function ParseTerm(piece: string): (string, Option<seq<Percent.Byte>>) {
    match Text.SplitOnce(piece, '=')
    case None => (piece, None)
    case Some((k, v)) => (k, Percent.DecodeBytes(v))
  }

  function ParseQuery(q: string): (r: seq<(string, Option<seq<Percent.Byte>>)>)
    ensures Text.StartsWith(q, MatrixPrefix) ==> |r| >= 1
  {
    if Text.StartsWith(q, MatrixPrefix) then
      var pieces := Text.Split(q[|MatrixPrefix|..], '&');
      seq(|pieces|, i requires 0 <= i < |pieces| => ParseTerm(pieces[i]))
    else []
  }

  lemma KeyLiterals(k: string)
    requires QueryKey(k)
    ensures '&' !in k && '=' !in k
  {
  }

  lemma ParseTermText(t: Term)
    requires QueryKey(t.key)
    ensures '&' !in TermText(t)
    ensures ParseTerm(TermText(t)) == (t.key, Some(Percent.Utf8Text(t.value)))
  {
    KeyLiterals(t.key);
    Percent.EncodedHasNoDelimiters(t.value);
    Text.SplitOnceAt(t.key, Percent.Encode(t.value), '=');
    assert TermText(t) == t.key + ['='] + Percent.Encode(t.value);
    Percent.DecodeEncode(Percent.Utf8Text(t.value));
  }

  /** The query reads back as its terms: every key, and the UTF-8 bytes of
      every value. */
  lemma MatrixQueryDecodes(sels: seq<Selector>, to: Option<string>, toEnvironment: Option<string>, canIMerge: bool)
    ensures var terms := MatrixTerms(sels, to, toEnvironment, canIMerge);
      ParseQuery(MatrixQuery(sels, to, toEnvironment, canIMerge))
        == seq(|terms|, i requires 0 <= i < |terms| => (terms[i].key, Some(Percent.Utf8Text(terms[i].value))))
  {
    var terms := MatrixTerms(sels, to, toEnvironment, canIMerge);
    var texts := TermTexts(terms);
    var q := MatrixQuery(sels, to, toEnvironment, canIMerge);
    MatrixQueryJoin(sels, to, toEnvironment, canIMerge);
    MatrixTermsKeys(sels, to, toEnvironment, canIMerge);
    forall i | 0 <= i < |terms|
      ensures '&' !in texts[i]
      ensures ParseTerm(texts[i]) == (terms[i].key, Some(Percent.Utf8Text(terms[i].value)))
    {
      ParseTermText(terms[i]);
    }
    assert q[|MatrixPrefix|..] == Text.Join(texts, "&");
    assert "&" == ['&'];
    Text.SplitJoin(texts, '&');
  }

  // ---------------------------------------------------------------------------
  // The matrix response

  /** The parts of a matrix response the command reads (`Data` and the records
      in it). An optional field is `None` when it is missing or null. */
  datatype Party = Party(name: string, version: Option<string>)
  datatype MatrixRow = MatrixRow(consumer: Party, provider: Party, verification: Option<Option<bool>>)
  datatype Notice = Notice(kind: string, text: string)
  datatype Matrix = Matrix(deployable: Option<Option<bool>>, notices: Option<seq<Notice>>, rows: seq<MatrixRow>)

  /** An optional field: missing and null both read as absent. */
  function Optional(j: Json, key: string): (r: Option<Json>)
    ensures r.Some? ==> Get(j, key) == r && !r.value.Null?
  {
    match Get(j, key)
    case Some(Null) => None
    case other => other
  }

  function DecodeString(j: Option<Json>): Option<string> {
    if j.Some? && j.value.Str? then Some(j.value.s) else None
  }

  /** A `{number}` record, as an optional field. */
  function DecodeVersion(j: Option<Json>): Option<Option<string>> {
    match j
    case None => Some(None)
    case Some(v) =>
      if v.Obj? && DecodeString(Get(v, "number")).Some? then Some(Some(DecodeString(Get(v, "number")).value)) else None
  }

  function DecodeParty(j: Json): Option<Party> {
    if !j.Obj? then None
    else match (DecodeString(Get(j, "name")), DecodeVersion(Optional(j, "version")))
      case (Some(name), Some(version)) => Some(Party(name, version))
      case _ => None
  }

  function DecodeBool(j: Option<Json>): Option<Option<bool>> {
    match j
    case None => Some(None)
    case Some(Bool(b)) => Some(Some(b))
    case Some(_) => None
  }

  function DecodeVerification(j: Option<Json>): Option<Option<Option<bool>>> {
    match j
    case None => Some(None)
    case Some(v) =>
      if v.Obj? && DecodeBool(Optional(v, "success")).Some? then Some(Some(DecodeBool(Optional(v, "success")).value)) else None
  }

  function DecodeRow(j: Json): Option<MatrixRow> {
    if !j.Obj? then None
    else match (Get(j, "consumer"), Get(j, "provider"), DecodeVerification(Optional(j, "verificationResult")))
      case (Some(c), Some(p), Some(v)) =>
        (match (DecodeParty(c), DecodeParty(p))
         case (Some(consumer), Some(provider)) => Some(MatrixRow(consumer, provider, v))
         case _ => None)
      case _ => None
  }

  function DecodeRows(items: seq<Json>): (r: Option<seq<MatrixRow>>)
    ensures r.Some? ==> |r.value| == |items|
    ensures r.Some? <==> forall i :: 0 <= i < |items| ==> DecodeRow(items[i]).Some?
  {
    if |items| == 0 then Some([])
    else match (DecodeRow(items[0]), DecodeRows(items[1..]))
      case (Some(row), Some(rows)) => Some([row] + rows)
      case _ => None
  }

  function DecodeNotice(j: Json): Option<Notice> {
    if j.Obj? && DecodeString(Get(j, "type")).Some? && DecodeString(Get(j, "text")).Some?
    then Some(Notice(DecodeString(Get(j, "type")).value, DecodeString(Get(j, "text")).value))
    else None
  }

  function DecodeNotices(items: seq<Json>): (r: Option<seq<Notice>>)
    ensures r.Some? ==> |r.value| == |items|
  {
    if |items| == 0 then Some([])
    else match (DecodeNotice(items[0]), DecodeNotices(items[1..]))
      case (Some(n), Some(ns)) => Some([n] + ns)
      case _ => None
  }

  function DecodeSummary(j: Option<Json>): Option<Option<Option<bool>>> {
    match j
    case None => Some(None)
    case Some(v) =>
      if v.Obj? && DecodeBool(Optional(v, "deployable")).Some? then Some(Some(DecodeBool(Optional(v, "deployable")).value)) else None
  }

  function DecodeNoticeList(j: Option<Json>): Option<Option<seq<Notice>>> {
    match j
    case None => Some(None)
    case Some(Arr(items)) => if DecodeNotices(items).Some? then Some(DecodeNotices(items)) else None
    case Some(_) => None
  }

  /** Reading a response as `Data`: an object whose `matrix` is an array of
      rows, with an optional summary and optional notices; any other shape is
      a decoding error. */
  function DecodeMatrix(j: Json): (r: Option<Matrix>)
    ensures r.Some? ==> j.Obj? && Get(j, "matrix").Some? && Get(j, "matrix").value.Arr?
    ensures r.Some? ==> |r.value.rows| == |Get(j, "matrix").value.items|
  {
    if !j.Obj? then None
    else match (DecodeSummary(Optional(j, "summary")), DecodeNoticeList(Optional(j, "notices")), Get(j, "matrix"))
      case (Some(summary), Some(notices), Some(Arr(items))) =>
        (match DecodeRows(items)
         case Some(rows) => Some(Matrix(summary, notices, rows))
         case None => None)
      case _ => None
  }

  /** Writing a matrix response, absent fields as null: the reference the
      decoding is checked against. */
  function OptBoolJson(b: Option<bool>): Json {
    match b
    case None => Null
    case Some(x) => Bool(x)
  }

  function PartyJson(p: Party): Json {
    Obj([("name", Str(p.name)),
         ("version", match p.version case None => Null case Some(v) => Obj([("number", Str(v))]))])
  }

  function RowJson(r: MatrixRow): Json {
    Obj([("consumer", PartyJson(r.consumer)),
         ("provider", PartyJson(r.provider)),
         ("verificationResult", VerificationJson(r.verification))])
  }

  function VerificationJson(v: Option<Option<bool>>): Json {
    match v case None => Null case Some(b) => Obj([("success", OptBoolJson(b))])
  }

  function NoticeJson(n: Notice): Json {
    Obj([("type", Str(n.kind)), ("text", Str(n.text))])
  }

  function RowsJson(rows: seq<MatrixRow>): (r: seq<Json>)
    ensures |r| == |rows|
  {
    if |rows| == 0 then [] else [RowJson(rows[0])] + RowsJson(rows[1..])
  }

  function NoticesJson(ns: seq<Notice>): (r: seq<Json>)
    ensures |r| == |ns|
  {
    if |ns| == 0 then [] else [NoticeJson(ns[0])] + NoticesJson(ns[1..])
  }

  function MatrixJson(m: Matrix): Json {
    Obj([("summary", SummaryJson(m.deployable)),
         ("notices", NoticeListJson(m.notices)),
         ("matrix", Arr(RowsJson(m.rows)))])
  }

  lemma DecodeOptBool(b: Option<bool>)
    ensures DecodeBool(Optional(Obj([("success", OptBoolJson(b))]), "success")) == Some(b)
    ensures DecodeBool(Optional(Obj([("deployable", OptBoolJson(b))]), "deployable")) == Some(b)
  {
  }

  lemma DecodePartyJson(p: Party)
    ensures DecodeParty(PartyJson(p)) == Some(p)
  {
    var version := match p.version case None => Null case Some(v) => Obj([("number", Str(v))]);
    Lookup2("name", Str(p.name), "version", version);
  }

  lemma DecodeRowJson(r: MatrixRow)
    ensures DecodeRow(RowJson(r)) == Some(r)
  {
    var j := RowJson(r);
    Lookup3("consumer", PartyJson(r.consumer), "provider", PartyJson(r.provider),
            "verificationResult", VerificationJson(r.verification));
    DecodeVerificationJson(j, r.verification);
    DecodePartyJson(r.consumer);
    DecodePartyJson(r.provider);
    DecodeRowParts(j, r);
  }

  lemma DecodeVerificationJson(j: Json, v: Option<Option<bool>>)
    requires Get(j, "verificationResult") == Some(VerificationJson(v))
    ensures DecodeVerification(Optional(j, "verificationResult")) == Some(v)
  {
    if v.Some? {
      DecodeOptBool(v.value);
    }
  }

  lemma DecodeRowParts(j: Json, r: MatrixRow)
    requires j.Obj?
    requires Get(j, "consumer") == Some(PartyJson(r.consumer)) && DecodeParty(PartyJson(r.consumer)) == Some(r.consumer)
    requires Get(j, "provider") == Some(PartyJson(r.provider)) && DecodeParty(PartyJson(r.provider)) == Some(r.provider)
    requires DecodeVerification(Optional(j, "verificationResult")) == Some(r.verification)
    ensures DecodeRow(j) == Some(r)
  {
  }

  lemma {:induction false} DecodeRowsJson(rows: seq<MatrixRow>)
    ensures DecodeRows(RowsJson(rows)) == Some(rows)
  {
    var items := RowsJson(rows);
    if |rows| > 0 {
      DecodeRowJson(rows[0]);
      DecodeRowsJson(rows[1..]);
      Text.DropPrefix([RowJson(rows[0])], RowsJson(rows[1..]));
      Text.HeadTail(rows);
    }
  }

  lemma {:induction false} DecodeNoticesJson(ns: seq<Notice>)
    ensures DecodeNotices(NoticesJson(ns)) == Some(ns)
  {
    var items := NoticesJson(ns);
    if |ns| > 0 {
      Lookup2("type", Str(ns[0].kind), "text", Str(ns[0].text));
      assert DecodeNotice(items[0]) == Some(ns[0]);
      DecodeNoticesJson(ns[1..]);
      Text.DropPrefix([NoticeJson(ns[0])], NoticesJson(ns[1..]));
      Text.HeadTail(ns);
    }
  }

  function SummaryJson(d: Option<Option<bool>>): Json {
    match d case None => Null case Some(b) => Obj([("deployable", OptBoolJson(b))])
  }

  function NoticeListJson(ns: Option<seq<Notice>>): Json {
    match ns case None => Null case Some(l) => Arr(NoticesJson(l))
  }

  lemma MatrixJsonFields(m: Matrix)
    ensures MatrixJson(m).Obj?
    ensures Get(MatrixJson(m), "summary") == Some(SummaryJson(m.deployable))
    ensures Get(MatrixJson(m), "notices") == Some(NoticeListJson(m.notices))
    ensures Get(MatrixJson(m), "matrix") == Some(Arr(RowsJson(m.rows)))
  {
    Lookup3("summary", SummaryJson(m.deployable), "notices", NoticeListJson(m.notices), "matrix", Arr(RowsJson(m.rows)));
  }

  lemma DecodeSummaryJson(j: Json, d: Option<Option<bool>>)
    requires Get(j, "summary") == Some(SummaryJson(d))
    ensures DecodeSummary(Optional(j, "summary")) == Some(d)
  {
    if d.Some? {
      DecodeOptBool(d.value);
    }
  }

  lemma DecodeNoticeListJson(j: Json, ns: Option<seq<Notice>>)
    requires Get(j, "notices") == Some(NoticeListJson(ns))
    ensures DecodeNoticeList(Optional(j, "notices")) == Some(ns)
  {
    if ns.Some? {
      DecodeNoticesJson(ns.value);
    }
  }

  /** Decoding reads back every matrix response written as above. */
  lemma DecodeMatrixJson(m: Matrix)
    ensures DecodeMatrix(MatrixJson(m)) == Some(m)
  {
    var j := MatrixJson(m);
    MatrixJsonFields(m);
    DecodeSummaryJson(j, m.deployable);
    DecodeNoticeListJson(j, m.notices);
    DecodeRowsJson(m.rows);
    DecodeMatrixParts(j, m, RowsJson(m.rows));
  }

  lemma DecodeMatrixParts(j: Json, m: Matrix, items: seq<Json>)
    requires j.Obj?
    requires DecodeSummary(Optional(j, "summary")) == Some(m.deployable)
    requires DecodeNoticeList(Optional(j, "notices")) == Some(m.notices)
    requires Get(j, "matrix") == Some(Arr(items)) && DecodeRows(items) == Some(m.rows)
    ensures DecodeMatrix(j) == Some(m)
  {
  }

  // ---------------------------------------------------------------------------
  // Polling

  /** The broker has answered the question: the response decodes and its
      summary carries `deployable`, yes or no. */
  predicate Decided(reply: Reply) {
    reply.Ok? && DecodeMatrix(reply.value).Some? &&
    DecodeMatrix(reply.value).value.deployable.Some? &&
    DecodeMatrix(reply.value).value.deployable.value.Some?
  }

  /** `retry-while-unknown` read as a `u32`; absent or unparseable means 0. */
  function MaxAttempts(arg: Option<string>): (n: nat)
    ensures n < 0x1_0000_0000
    ensures arg.None? ==> n == 0
    ensures arg.Some? && Text.ParseUnsigned(arg.value, 0x1_0000_0000).Some? ==> n == Text.ParseUnsigned(arg.value, 0x1_0000_0000).value
    ensures arg.Some? && Text.ParseUnsigned(arg.value, 0x1_0000_0000).None? ==> n == 0
    ensures arg.Some? && (exists i :: 0 <= i < |arg.value| && !Text.IsDigit(arg.value[i]) && !(i == 0 && arg.value[i] == '+')) ==>
              n == 0
  {
    match arg
    case None => 0
    case Some(s) => Text.ParseUnsigned(s, 0x1_0000_0000).GetOr(0)
  }

  /** `retry-interval` read as a `u64` number of seconds; absent or unparseable means 5. */
  function RetryInterval(arg: Option<string>): (n: nat)
    ensures n < 0x1_0000_0000_0000_0000
    ensures arg.None? ==> n == 5
    ensures arg.Some? && Text.ParseUnsigned(arg.value, 0x1_0000_0000_0000_0000).Some? ==> n == Text.ParseUnsigned(arg.value, 0x1_0000_0000_0000_0000).value
    ensures arg.Some? && Text.ParseUnsigned(arg.value, 0x1_0000_0000_0000_0000).None? ==> n == 5
    ensures arg.Some? && (exists i :: 0 <= i < |arg.value| && !Text.IsDigit(arg.value[i]) && !(i == 0 && arg.value[i] == '+')) ==>
              n == 5
  {
    match arg
    case None => 5
    case Some(s) => Text.ParseUnsigned(s, 0x1_0000_0000_0000_0000).GetOr(5)
  }

  /** A retry count or interval written in decimal is read back as written;
      one out of range falls back to the default. */
  lemma PollingArguments(n: nat)
    ensures n < 0x1_0000_0000 ==> MaxAttempts(Some(Text.NatText(n))) == n
    ensures n >= 0x1_0000_0000 ==> MaxAttempts(Some(Text.NatText(n))) == 0
    ensures n < 0x1_0000_0000_0000_0000 ==> RetryInterval(Some(Text.NatText(n))) == n
    ensures n >= 0x1_0000_0000_0000_0000 ==> RetryInterval(Some(Text.NatText(n))) == 5
  {
    Text.ParseNatText(n, 0x1_0000_0000);
    Text.ParseNatText(n, 0x1_0000_0000_0000_0000);
  }

  /** `fetches` answers of `replies` are what the polling loop reads: at
      least one and at most one more than the retry count, exactly one when
      retrying is off, every answer before the last undecided, and the last
      decided when the loop stopped before running out of retries. */
  predicate PolledAs<R>(maxAttempts: nat, replies: nat -> R, decided: R -> bool, fetches: nat) {
    1 <= fetches <= maxAttempts + 1 &&
    (maxAttempts == 0 ==> fetches == 1) &&
    (forall k :: 0 <= k < fetches - 1 ==> !decided(replies(k))) &&
    (maxAttempts > 0 && fetches <= maxAttempts ==> decided(replies(fetches - 1)))
  }

  /** The polling loop. `replies(k)` is the broker's answer to the k-th fetch
      (from 0) and `decided` tells a final answer (the command passes
      `Decided`). A fetch is repeated, after a pause, while the answer is
      undecided and fewer than `maxAttempts` retries have been made; with
      `maxAttempts` 0 there is exactly one fetch. Returns the last answer, the
      number of fetches and the number of pauses. */
  method Poll<R>(maxAttempts: nat, replies: nat -> R, decided: R -> bool) returns (res: R, fetches: nat, waits: nat)
    ensures PolledAs(maxAttempts, replies, decided, fetches)
    ensures res == replies(fetches - 1)
    ensures waits == fetches - 1
  {
    res := replies(0);
    fetches, waits := 1, 0;
    // After the f-th fetch the source breaks when polling is off, when the
    // answer is decided, or when the attempt count f exceeds the maximum.
    while maxAttempts > 0 && !decided(res) && fetches <= maxAttempts
      invariant 1 <= fetches <= maxAttempts + 1
      invariant res == replies(fetches - 1)
      invariant forall k :: 0 <= k < fetches - 1 ==> !decided(replies(k))
      invariant waits == fetches - 1
      decreases maxAttempts + 1 - fetches
    {
      waits := waits + 1;
      res := replies(fetches);
      fetches := fetches + 1;
    }
  }

  // ---------------------------------------------------------------------------
  // Verdict and output

  const YesMessage := "\U{2705} Computer says yes \\o/"
  const DryRunMessage := "\U{1F4CC} Dry run enabled, suppressing failing exit code"
  const NoMessage := "No deployable version found"

  /** The data an undecodable response is read as: not deployable, no notices, no rows. */
  function Fallback(): (m: Matrix)
    ensures m.deployable == Some(Some(false)) && m.rows == []
  {
    Matrix(Some(Some(false)), Some([]), [])
  }

  /** The matrix the verdict is drawn from. */
  function VerdictData(j: Json): (m: Matrix)
    ensures DecodeMatrix(j).Some? ==> m == DecodeMatrix(j).value
    ensures DecodeMatrix(j).None? ==> m == Fallback()
  {
    DecodeMatrix(j).GetOr(Fallback())
  }

  /** Yes when `summary.deployable` is true; otherwise Ok under dry run and
      NotFound without it. */
  function Verdict(j: Json, dryRun: bool): (r: Outcome<string, BrokerError>)
    ensures !r.Halted?
    ensures r == Ok(YesMessage) <==> VerdictData(j).deployable == Some(Some(true))
    ensures r.Err? <==> !dryRun && VerdictData(j).deployable != Some(Some(true))
    ensures r.Err? ==> r.error == NotFound(NoMessage)
    ensures dryRun && VerdictData(j).deployable != Some(Some(true)) ==> r == Ok(DryRunMessage)
  {
    var deployable := match VerdictData(j).deployable
      case Some(Some(d)) => d
      case _ => false;
    if deployable then Ok(YesMessage)
    else if dryRun then Ok(DryRunMessage)
    else Err(NotFound(NoMessage))
  }

  /** For a response written from a matrix, the verdict is yes exactly when
      the matrix says deployable, and an error exactly when it does not and
      dry run is off. */
  lemma VerdictOfMatrix(m: Matrix, dryRun: bool)
    ensures Verdict(MatrixJson(m), dryRun) == Ok(YesMessage) <==> m.deployable == Some(Some(true))
    ensures Verdict(MatrixJson(m), dryRun).Err? <==> !dryRun && m.deployable != Some(Some(true))
  {
    DecodeMatrixJson(m);
  }

  /** A response that does not decode gets the verdict of an explicit "not deployable". */
  lemma UndecodableIsNo(j: Json, dryRun: bool)
    requires DecodeMatrix(j).None?
    ensures Verdict(j, dryRun) == Verdict(MatrixJson(Fallback()), dryRun)
    ensures Verdict(j, dryRun) == if dryRun then Ok(DryRunMessage) else Err(NotFound(NoMessage))
  {
    DecodeMatrixJson(Fallback());
  }

  /** What `try_get_one` says about an argument: not defined for the command,
      defined but not given, or given. */
  datatype ArgLookup = Undefined(reason: string) | Absent | Given(value: string)

  /** The command's result for the final answer. A broker error exits with
      status 1; otherwise the output argument decides: `json` or absent gives
      the response text, any other value gives the verdict, and an undefined
      argument is a validation error. */
  function Report(res: Reply, output: ArgLookup, dryRun: bool): (r: Outcome<string, BrokerError>)
    ensures res.Err? ==> r == Halted(Exit(1))
    ensures res.Ok? && (output.Absent? || output == Given("json")) ==> r == Ok(ToText(res.value))
    ensures res.Ok? && output.Given? && output.value != "json" ==> r == Verdict(res.value, dryRun)
    ensures res.Ok? && output.Undefined? ==>
              r == Err(ValidationError(["\U{274C} No output match provided for " + output.reason]))
  {
    match res
    case Err(e) => Halted(Exit(1))
    case Halted(h) => Halted(h)
    case Ok(j) =>
      match output
      case Given(o) => if o == "json" then Ok(ToText(j)) else Verdict(j, dryRun)
      case Undefined(reason) => Err(ValidationError(["\U{274C} No output match provided for " + reason]))
      case Absent => Ok(ToText(j))
  }

  /** The cell for an optional version: its number, or `unknown`. */
  function VersionCell(v: Option<string>): string {
    match v
    case None => "unknown"
    case Some(n) => n
  }

  /** The cell for a verification: its success as `true`/`false`, false when unknown. */
  function SuccessCell(v: Option<Option<bool>>): (c: string)
    ensures c == "true" <==> v == Some(Some(true))
    ensures c == "true" || c == "false"
  {
    match v
    case Some(Some(true)) => "true"
    case _ => "false"
  }

  /** The rows of the printed matrix table: consumer, its version, provider,
      its version, and the success cell twice. */
  function MatrixTable(rows: seq<MatrixRow>): (t: seq<seq<string>>)
    ensures |t| == |rows|
    ensures forall i :: 0 <= i < |t| ==>
              |t[i]| == 6 && t[i][0] == rows[i].consumer.name && t[i][2] == rows[i].provider.name &&
              t[i][4] == t[i][5] && (t[i][4] == "true" <==> rows[i].verification == Some(Some(true))) &&
              (rows[i].consumer.version.Some? ==> t[i][1] == rows[i].consumer.version.value) &&
              (rows[i].provider.version.Some? ==> t[i][3] == rows[i].provider.version.value)
  {
    seq(|rows|, i requires 0 <= i < |rows| =>
      [rows[i].consumer.name, VersionCell(rows[i].consumer.version),
       rows[i].provider.name, VersionCell(rows[i].provider.version),
       SuccessCell(rows[i].verification), SuccessCell(rows[i].verification)])
  }

  // ---------------------------------------------------------------------------
  // The command

  /** `can_i_deploy` (and `can_i_merge` when `canIMerge`). The selectors come
      from the raw command line; every fetch is a GET of the trimmed broker URL
      followed by the matrix query; `replies(k)` is the broker's answer to the
      k-th fetch. Returns the result, the requests sent and the pauses slept, in
      seconds. */
  method Command(raw: seq<string>, to: Option<string>, toEnvironment: Option<string>,
                 retryWhileUnknown: Option<string>, retryInterval: Option<string>,
                 dryRun: bool, output: ArgLookup, canIMerge: bool, brokerUrl: string,
                 replies: nat -> Reply)
    returns (outcome: Outcome<string, BrokerError>, sent: seq<Request>, pauses: seq<nat>)
    ensures ParseSelectors(raw).Halted? ==> outcome == Halted(ParseSelectors(raw).halt) && sent == [] && pauses == []
    ensures ParseSelectors(raw).Ok? ==>
              Fetched(Text.TrimEnd(brokerUrl, '/') + MatrixQuery(ParseSelectors(raw).value, to, toEnvironment, canIMerge),
                      MaxAttempts(retryWhileUnknown), RetryInterval(retryInterval), replies, Decided, sent, pauses) &&
              outcome == Report(replies(|sent| - 1), output, dryRun)
  {
    match ParseSelectors(raw)
    case Halted(h) =>
      return Halted(h), [], [];
    case Err(e) =>
      return Err(e), [], [];
    case Ok(sels) =>
      var target := Text.TrimEnd(brokerUrl, '/') + MatrixQuery(sels, to, toEnvironment, canIMerge);
      var res;
      res, sent, pauses := Ask(target, MaxAttempts(retryWhileUnknown), RetryInterval(retryInterval), replies, Decided);
      outcome := Report(res, output, dryRun);
  }

  /** The requests and pauses of one question: every request is a GET of
      `target`, as many as the polling loop reads, with a pause of `interval`
      seconds between two fetches. */
  predicate Fetched<R>(target: string, maxAttempts: nat, interval: nat, replies: nat -> R, decided: R -> bool,
                       sent: seq<Request>, pauses: seq<nat>) {
    PolledAs(maxAttempts, replies, decided, |sent|) &&
    (forall i :: 0 <= i < |sent| ==> sent[i] == Request(GET, target, None)) &&
    |pauses| == |sent| - 1 && forall i :: 0 <= i < |pauses| ==> pauses[i] == interval
  }

  /** The fetches of one question, returning the last answer. */
  method Ask<R>(target: string, maxAttempts: nat, interval: nat, replies: nat -> R, decided: R -> bool)
    returns (res: R, sent: seq<Request>, pauses: seq<nat>)
    ensures Fetched(target, maxAttempts, interval, replies, decided, sent, pauses)
    ensures res == replies(|sent| - 1)
  {
    var fetches, waits;
    res, fetches, waits := Poll(maxAttempts, replies, decided);
    sent := seq(fetches, _ => Request(GET, target, None));
    pauses := seq(waits, _ => interval);
  }

}
