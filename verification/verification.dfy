/** Checking pact files (src/cli/pact_broker/main/verification/mod.rs): the
    choice of verifier, the overall result level and the error and warning
    counts of the report. The verifiers themselves belong to the pact model
    library and are parameters here. */
module Verification {
  import opened Wrappers
  import opened Json
  import Text

  // ---------------------------------------------------------------------------
  // Results

  /** `ResultLevel`, in increasing severity. */
  datatype Level = NOTICE | WARNING | ERROR

  /** `PactFileVerificationResult`: where in the file, how severe, and why. */
  datatype FileResult = FileResult(path: string, level: Level, message: string)

  /** `VerificationResult`: one file's source and its findings. */
  datatype Report = Report(source: string, results: seq<FileResult>)

  function Rank(l: Level): nat {
    match l
    case NOTICE => 0
    case WARNING => 1
    case ERROR => 2
  }

  /** One step of the overall fold: the table of the source, pair by pair. */
  function Combine(acc: Level, l: Level): Level {
    match (acc, l)
    case (NOTICE, NOTICE) => NOTICE
    case (NOTICE, WARNING) => WARNING
    case (NOTICE, ERROR) => ERROR
    case (WARNING, NOTICE) => WARNING
    case (WARNING, WARNING) => WARNING
    case (WARNING, ERROR) => ERROR
    case (ERROR, _) => ERROR
  }

  /** The table is the more severe of the two levels: commutative,
      associative, with NOTICE as unit and ERROR absorbing. */
  lemma CombineIsMax(a: Level, b: Level, c: Level)
    ensures Rank(Combine(a, b)) == if Rank(a) >= Rank(b) then Rank(a) else Rank(b)
    ensures Combine(a, b) == Combine(b, a)
    ensures Combine(Combine(a, b), c) == Combine(a, Combine(b, c))
    ensures Combine(NOTICE, a) == a && Combine(ERROR, a) == ERROR
  {
  }

  /** The levels of a file's findings, in order. */
  function LevelsOf(rs: seq<FileResult>): (ls: seq<Level>)
    ensures |ls| == |rs|
    ensures forall i :: 0 <= i < |rs| ==> ls[i] == rs[i].level
  {
    seq(|rs|, i requires 0 <= i < |rs| => rs[i].level)
  }

  /** The levels of every finding of every file, file by file. */
  function AllLevels(reports: seq<Report>): seq<Level> {
    if |reports| == 0 then [] else LevelsOf(reports[0].results) + AllLevels(reports[1..])
  }

  function Count(ls: seq<Level>, l: Level): (n: nat)
    ensures n <= |ls|
  {
    if |ls| == 0 then 0 else (if ls[0] == l then 1 else 0) + Count(ls[1..], l)
  }

  lemma {:induction false} CountConcat(a: seq<Level>, b: seq<Level>, l: Level)
    ensures Count(a + b, l) == Count(a, l) + Count(b, l)
  {
    if |a| > 0 {
      CountConcat(a[1..], b, l);
      assert (a + b)[1..] == a[1..] + b;
    } else {
      assert a + b == b;
    }
  }

  lemma {:induction false} CountZero(ls: seq<Level>, l: Level)
    ensures Count(ls, l) == 0 <==> forall i :: 0 <= i < |ls| ==> ls[i] != l
  {
    if |ls| > 0 {
      CountZero(ls[1..], l);
      assert forall i :: 1 <= i < |ls| ==> ls[i] == ls[1..][i - 1];
    }
  }

  /** The most severe level present, NOTICE for none: the reference the fold is
      checked against. */
  function Worst(ls: seq<Level>): Level {
    if Count(ls, ERROR) > 0 then ERROR else if Count(ls, WARNING) > 0 then WARNING else NOTICE
  }

  lemma WorstConcat(a: seq<Level>, b: seq<Level>)
    ensures Worst(a + b) == Combine(Worst(a), Worst(b))
  {
    CountConcat(a, b, ERROR);
    CountConcat(a, b, WARNING);
  }

  /** `has_errors`. */
  predicate HasErrors(r: Report) {
    exists i :: 0 <= i < |r.results| && r.results[i].level == ERROR
  }

  /** A file has errors exactly when its error count is positive. */
  lemma HasErrorsCount(r: Report)
    ensures HasErrors(r) <==> Count(LevelsOf(r.results), ERROR) > 0
  {
    CountZero(LevelsOf(r.results), ERROR);
  }

  // ---------------------------------------------------------------------------
  // The overall level

  /** The inner fold over one file's findings. */
  function FoldLevels(acc: Level, rs: seq<FileResult>): Level
    decreases |rs|
  {
    if |rs| == 0 then acc else FoldLevels(Combine(acc, rs[0].level), rs[1..])
  }

  /** The outer fold over the files, from NOTICE. */
  function FoldReports(acc: Level, reports: seq<Report>): Level
    decreases |reports|
  {
    if |reports| == 0 then acc else FoldReports(FoldLevels(acc, reports[0].results), reports[1..])
  }

  function Overall(reports: seq<Report>): Level {
    FoldReports(NOTICE, reports)
  }

  lemma {:induction false} FoldLevelsWorst(acc: Level, rs: seq<FileResult>)
    ensures FoldLevels(acc, rs) == Combine(acc, Worst(LevelsOf(rs)))
    decreases |rs|
  {
    if |rs| > 0 {
      FoldLevelsWorst(Combine(acc, rs[0].level), rs[1..]);
      assert LevelsOf(rs) == [rs[0].level] + LevelsOf(rs[1..]);
      WorstConcat([rs[0].level], LevelsOf(rs[1..]));
      CombineIsMax(acc, rs[0].level, Worst(LevelsOf(rs[1..])));
    }
  }

  lemma {:induction false} FoldReportsWorst(acc: Level, reports: seq<Report>)
    ensures FoldReports(acc, reports) == Combine(acc, Worst(AllLevels(reports)))
    decreases |reports|
  {
    if |reports| > 0 {
      var head := LevelsOf(reports[0].results);
      FoldLevelsWorst(acc, reports[0].results);
      FoldReportsWorst(FoldLevels(acc, reports[0].results), reports[1..]);
      WorstConcat(head, AllLevels(reports[1..]));
      CombineIsMax(acc, Worst(head), Worst(AllLevels(reports[1..])));
    }
  }

  /** The overall level is the most severe finding of all files: ERROR as soon
      as one error is found, else WARNING as soon as one warning is, else NOTICE. */
  lemma OverallIsWorst(reports: seq<Report>)
    ensures Overall(reports) == Worst(AllLevels(reports))
    ensures Overall(reports) == ERROR <==> Count(AllLevels(reports), ERROR) > 0
    ensures Overall(reports) == NOTICE <==>
              Count(AllLevels(reports), ERROR) == 0 && Count(AllLevels(reports), WARNING) == 0
  {
    FoldReportsWorst(NOTICE, reports);
    CombineIsMax(NOTICE, Worst(AllLevels(reports)), NOTICE);
  }

  /** The word the report's first line shows for the overall level. */
  function LevelWord(l: Level): string {
    match l
    case ERROR => "ERROR"
    case WARNING => "WARNING"
    case NOTICE => "OK"
  }

  // ---------------------------------------------------------------------------
  // Counting

  lemma {:induction false} AllLevelsSnoc(reports: seq<Report>, i: nat)
    requires i < |reports|
    ensures AllLevels(reports[..i + 1]) == AllLevels(reports[..i]) + LevelsOf(reports[i].results)
    decreases i
  {
    if i == 0 {
      assert reports[..1] == [reports[0]];
      assert AllLevels(reports[..1]) == LevelsOf(reports[0].results) + AllLevels([]);
    } else {
      AllLevelsSnoc(reports[1..], i - 1);
      assert reports[1..][..i] == reports[..i + 1][1..];
      assert reports[1..][..i - 1] == reports[..i][1..];
      assert AllLevels(reports[..i + 1]) == LevelsOf(reports[0].results) + AllLevels(reports[1..][..i]);
      assert AllLevels(reports[..i]) == LevelsOf(reports[0].results) + AllLevels(reports[1..][..i - 1]);
    }
  }

  /** The counting loop of `display_output`: every ERROR finding adds an error,
      every WARNING finding a warning, and a NOTICE neither. */
  method Tally(reports: seq<Report>) returns (errors: nat, warnings: nat)
    ensures errors == Count(AllLevels(reports), ERROR)
    ensures warnings == Count(AllLevels(reports), WARNING)
  {
    errors, warnings := 0, 0;
    var index := 0;
    while index < |reports|
      invariant 0 <= index <= |reports|
      invariant errors == Count(AllLevels(reports[..index]), ERROR)
      invariant warnings == Count(AllLevels(reports[..index]), WARNING)
    {
      var rs := reports[index].results;
      var done := AllLevels(reports[..index]);
      var j := 0;
      while j < |rs|
        invariant 0 <= j <= |rs|
        invariant errors == Count(done, ERROR) + Count(LevelsOf(rs[..j]), ERROR)
        invariant warnings == Count(done, WARNING) + Count(LevelsOf(rs[..j]), WARNING)
      {
        assert LevelsOf(rs[..j + 1]) == LevelsOf(rs[..j]) + [rs[j].level];
        CountConcat(LevelsOf(rs[..j]), [rs[j].level], ERROR);
        CountConcat(LevelsOf(rs[..j]), [rs[j].level], WARNING);
        match rs[j].level {
          case ERROR => errors := errors + 1;
          case WARNING => warnings := warnings + 1;
          case NOTICE =>
        }
        j := j + 1;
      }
      assert rs[..j] == rs;
      AllLevelsSnoc(reports, index);
      CountConcat(done, LevelsOf(rs), ERROR);
      CountConcat(done, LevelsOf(rs), WARNING);
      index := index + 1;
    }
    assert reports[..index] == reports;
  }

  /** The report's closing line. */
  function SummaryLine(errors: nat, warnings: nat, files: nat): string {
    "There were " + Text.NatText(errors) + " error(s) and " + Text.NatText(warnings) +
    " warning(s) in " + Text.NatText(files) + " file(s)"
  }

  // ---------------------------------------------------------------------------
  // Choosing the verifier

  /** `PactSpecification`. */
  datatype Spec = Unknown | V1 | V1_1 | V2 | V3 | V4

  /** The verifier a pact is checked with. */
  datatype Verifier = V4Verifier | MessageVerifier | RequestResponseVerifier

  /** The specification the pact is checked against: the given one, or, when
      unknown, the one `resolve` determines from the pact's metadata. */
  function EffectiveSpec(spec: Spec, pact: Json, resolve: Json -> Spec): (s: Spec)
    ensures spec != Unknown ==> s == spec
    ensures spec == Unknown ==> s == resolve(pact)
  {
    if spec.Unknown? then resolve(pact) else spec
  }

  /** `verify_json`. A V4 pact goes to the V4 verifier; outside V4 a non-object
      is one ERROR at `/`, an object with `messages` goes to the message
      verifier and any other object to the request/response verifier.
      `resolve` determines the version from the metadata, `verify` runs a
      verifier and `typeName` names a JSON value's type. */
  function VerifyJson(pact: Json, spec: Spec, strict: bool, resolve: Json -> Spec,
                      verify: (Verifier, Json, bool, Spec) -> seq<FileResult>,
                      typeName: Json -> string): (r: seq<FileResult>)
    ensures EffectiveSpec(spec, pact, resolve) == V4 ==> r == verify(V4Verifier, pact, strict, V4)
    ensures EffectiveSpec(spec, pact, resolve) != V4 && !pact.Obj? ==>
              r == [FileResult("/", ERROR, "Must be an Object, got " + typeName(pact))] &&
              HasErrors(Report("", r))
    ensures EffectiveSpec(spec, pact, resolve) != V4 && pact.Obj? ==>
              r == verify(if Has(pact, "messages") then MessageVerifier else RequestResponseVerifier,
                          pact, strict, EffectiveSpec(spec, pact, resolve))
  {
    var s := EffectiveSpec(spec, pact, resolve);
    if s == V4 then verify(V4Verifier, pact, strict, s)
    else match pact
      case Obj(_) =>
        if Has(pact, "messages") then verify(MessageVerifier, pact, strict, s)
        else verify(RequestResponseVerifier, pact, strict, s)
      case _ =>
        var r := [FileResult("/", ERROR, "Must be an Object, got " + typeName(pact))];
        assert r[0].level == ERROR;
        r
  }

  // ---------------------------------------------------------------------------
  // Display

  /** What `display_results` shows: the JSON form, or the text report's
      overall level and counts. */
  datatype Display = JsonDisplay(reports: seq<Report>) | TextDisplay(overall: Level, errors: nat, warnings: nat, files: nat)

  method DisplayResults(reports: seq<Report>, outputType: string) returns (d: Display)
    ensures outputType == "json" ==> d == JsonDisplay(reports)
    ensures outputType != "json" ==>
              d.TextDisplay? && d.overall == Worst(AllLevels(reports)) && d.files == |reports| &&
              d.errors == Count(AllLevels(reports), ERROR) && d.warnings == Count(AllLevels(reports), WARNING)
  {
    if outputType == "json" {
      return JsonDisplay(reports);
    }
    var errors, warnings := Tally(reports);
    OverallIsWorst(reports);
    d := TextDisplay(Overall(reports), errors, warnings, |reports|);
  }
}
