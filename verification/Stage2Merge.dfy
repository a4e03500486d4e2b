// Stage 2 results (src/services/ci-eval-stage2-mapper.ts): one result per suite,
// mapped from that suite's own Buildkite build, then merged into one.
module Stage2Merge {
  import opened Prelude
  import Text

  datatype Status = StageSuccess | StagePartial | StageSkipped | StageFailed | StageError

  datatype SuiteRow = SuiteRow(suite: string, pass: bool, score: real, error: Option<string>)

  datatype Stage2Result = Stage2Result(
    runId: string, modelId: string, status: Status,
    scores: Option<map<string, real>>, suiteResults: Option<seq<SuiteRow>>,
    reason: Option<string>, startedAt: string, completedAt: string)

  // ---------------------------------------------------------------------
  // From a build to a result
  // ---------------------------------------------------------------------

  datatype BuildStatus = BuildPassed | BuildFailed | BuildRunning

  /** `state` is Buildkite's own word for how the build ended; absent while it runs. */
  datatype Build = Build(number: nat, status: BuildStatus, state: Option<string>)

  datatype TestCase = TestCase(name: string, status: string, error: Option<string>)

  datatype Summary = Summary(total: Option<real>, passed: Option<real>, passRate: Option<real>,
                             cases: Option<seq<TestCase>>)

  /** The wording of the messages, given the build number: not part of the model. */
  datatype Wording = Wording(suiteError: nat -> string, reason: nat -> string, timedOut: string)

  function PassRate(build: Build, summary: Option<Summary>): real {
    if summary.Some? && summary.value.passRate.Some? then summary.value.passRate.value
    else if summary.Some? && summary.value.total.Some? && summary.value.total.value > 0.0 then
      summary.value.passed.GetOr(0.0) / summary.value.total.value
    else if build.status == BuildPassed then 1.0 else 0.0
  }

  predicate CasePassed(c: TestCase) {
    c.status == "passed" || c.status == "pass"
  }

  predicate HasCases(summary: Option<Summary>) {
    summary.Some? && summary.value.cases.Some? && summary.value.cases.value != []
  }

  /** One row per case, in order, each passing or failing as its case did. */
  predicate RowsOfCases(rows: seq<SuiteRow>, cases: seq<TestCase>) {
    && |rows| == |cases|
    && forall i :: 0 <= i < |cases| ==>
         && rows[i].suite == cases[i].name && rows[i].error == cases[i].error
         && (rows[i].pass <==> CasePassed(cases[i]))
         && rows[i].score == if rows[i].pass then 1.0 else 0.0
  }

  /** The one row of a build without cases: it passes iff the build did, and has an error iff the build failed. */
  predicate RowOfBuild(row: SuiteRow, suite: string, build: Build, summary: Option<Summary>) {
    && row.suite == suite && row.score == PassRate(build, summary)
    && (row.pass <==> build.status == BuildPassed)
    && (row.error.Some? <==> build.status == BuildFailed)
  }

  /** What a result says of the one suite it is about. */
  predicate Reports(r: Stage2Result, suite: string, build: Build, summary: Option<Summary>) {
    && (r.status == StageSuccess || r.status == StageFailed)
    && (r.status == StageSuccess <==> build.status == BuildPassed)
    && (r.reason.None? <==> build.status == BuildPassed)
    && r.scores == Some(map[suite := PassRate(build, summary)])
    && r.suiteResults.Some?
    && (HasCases(summary) ==> RowsOfCases(r.suiteResults.value, summary.value.cases.value))
    && (!HasCases(summary) ==>
          |r.suiteResults.value| == 1 && RowOfBuild(r.suiteResults.value[0], suite, build, summary))
  }

  method MapBuildkiteResultToStage2(runId: string, modelId: string, suites: seq<string>, build: Build,
                                    summary: Option<Summary>, startedAt: string, now: string, words: Wording)
    returns (r: Stage2Result)
    ensures r.runId == runId && r.modelId == modelId && r.startedAt == startedAt && r.completedAt == now
    // The score goes to the first suite named, the status follows the build, the rows follow the cases.
    ensures Reports(r, if suites == [] then "kibana-ci-eval" else suites[0], build, summary)
    // A timeout and a failure are told apart, and a failure names its build.
    ensures HasCases(summary) ==>
              |r.suiteResults.value| == |summary.value.cases.value| &&
              forall i :: 0 <= i < |summary.value.cases.value| ==>
                (r.suiteResults.value[i].pass <==> summary.value.cases.value[i].status in {"passed", "pass"})
    // The rate is the one reported, else what passed of the total, else all or nothing.
    ensures r.scores.Some? && forall suite :: suite in r.scores.value ==>
              var rate := r.scores.value[suite];
              if summary.Some? && summary.value.passRate.Some? then rate == summary.value.passRate.value
              else if summary.Some? && summary.value.total.Some? && summary.value.total.value > 0.0
              then rate == summary.value.passed.GetOr(0.0) / summary.value.total.value
              else rate == if build.status == BuildPassed then 1.0 else 0.0
    ensures build.status == BuildRunning ==> r.reason == Some(words.timedOut)
    ensures build.status == BuildFailed ==> r.reason == Some(words.reason(build.number))
    ensures build.status == BuildFailed && !HasCases(summary) ==>
              r.suiteResults.value[0].error == Some(words.suiteError(build.number))
  {
    var suite := if |suites| == 0 then "kibana-ci-eval" else suites[0];
    var rate := PassRate(build, summary);
    var rows: seq<SuiteRow> := [];
    if summary.Some? && summary.value.cases.Some? && |summary.value.cases.value| > 0 {
      var cases := summary.value.cases.value;
      for i := 0 to |cases|
        invariant RowsOfCases(rows, cases[..i])
      {
        var passed := cases[i].status == "passed" || cases[i].status == "pass";
        rows := rows + [SuiteRow(cases[i].name, passed, if passed then 1.0 else 0.0, cases[i].error)];
      }
      assert cases[..|cases|] == cases;
    } else {
      rows := [SuiteRow(suite, build.status == BuildPassed, rate,
                        if build.status == BuildFailed then Some(words.suiteError(build.number)) else None)];
    }
    var status := if build.status == BuildPassed then StageSuccess else StageFailed;
    var reason := match build.status
      case BuildRunning => Some(words.timedOut)
      case BuildFailed => Some(words.reason(build.number))
      case BuildPassed => None;
    r := Stage2Result(runId, modelId, status, Some(map[suite := rate]), Some(rows), reason, startedAt, now);
  }

  /** The resume fast path: every suite is reported passed with score 1, whatever its build said. */
  function BuildResume(runId: string, modelId: string, suites: seq<string>, reason: string, startedAt: string,
                       now: string): Stage2Result {
    Stage2Result(runId, modelId, StageSuccess, Some(map s | s in suites :: 1.0),
                 Some(seq(|suites|, i requires 0 <= i < |suites| => SuiteRow(suites[i], true, 1.0, None))),
                 Some(reason), startedAt, now)
  }

  // ---------------------------------------------------------------------
  // Merging
  // ---------------------------------------------------------------------

  function AllScores(rs: seq<Stage2Result>): map<string, real> {
    if rs == [] then map[] else AllScores(rs[..|rs| - 1]) + rs[|rs| - 1].scores.GetOr(map[])
  }

  function AllRows(rs: seq<Stage2Result>): seq<SuiteRow> {
    if rs == [] then [] else AllRows(rs[..|rs| - 1]) + rs[|rs| - 1].suiteResults.GetOr([])
  }

  predicate Failing(r: Stage2Result) {
    r.status != StageSuccess && r.status != StagePartial
  }

  function Said(r: Stage2Result): string {
    r.reason.GetOr(r.modelId + " suite failed")
  }

  /** The non-empty reasons of the failing results, in order. */
  function Reasons(rs: seq<Stage2Result>): seq<string> {
    if rs == [] then [] else
      Reasons(rs[..|rs| - 1]) +
      (if Failing(rs[|rs| - 1]) && Said(rs[|rs| - 1]) != "" then [Said(rs[|rs| - 1])] else [])
  }

  function JoinReasons(reasons: seq<string>): string {
    if reasons == [] then ""
    else if |reasons| == 1 then reasons[0]
    else reasons[0] + "; " + JoinReasons(reasons[1..])
  }

  predicate AnyFailing(rs: seq<Stage2Result>) {
    exists r :: r in rs && Failing(r)
  }

  predicate AnyPartial(rs: seq<Stage2Result>) {
    exists r :: r in rs && r.status == StagePartial
  }

  function MergedStatus(rs: seq<Stage2Result>): Status {
    if AnyFailing(rs) then StageFailed else if AnyPartial(rs) then StagePartial else StageSuccess
  }

  function Merged(rs: seq<Stage2Result>): Stage2Result
    requires rs != []
  {
    if |rs| == 1 then rs[0]
    else Stage2Result(rs[0].runId, rs[0].modelId, MergedStatus(rs), Some(AllScores(rs)), Some(AllRows(rs)),
                      if AnyFailing(rs) then Some(JoinReasons(Reasons(rs))) else None,
                      rs[0].startedAt, rs[|rs| - 1].completedAt)
  }

  datatype MergeError = NothingToMerge

  method MergeStage2Results(results: seq<Stage2Result>) returns (r: Result<Stage2Result, MergeError>)
    ensures r == if results == [] then Failure(NothingToMerge) else Success(Merged(results))
    ensures |results| == 1 ==> r == Success(results[0])
    // Of several results: the first one's ids and start, the last one's end; failed if one
    // failed, was skipped or ended with an error, else partial if one is partial.
    ensures |results| > 1 ==>
              && r.Success? && r.value.runId == results[0].runId && r.value.modelId == results[0].modelId
              && r.value.startedAt == results[0].startedAt
              && r.value.completedAt == results[|results| - 1].completedAt
              && (r.value.status == StageFailed || r.value.status == StagePartial || r.value.status == StageSuccess)
              && (r.value.status == StageFailed <==>
                    exists i :: 0 <= i < |results| && results[i].status in {StageSkipped, StageFailed, StageError})
              && (r.value.status == StageSuccess <==>
                    forall i :: 0 <= i < |results| ==> results[i].status == StageSuccess)
              && (r.value.reason.Some? <==> r.value.status == StageFailed)
  {
    if |results| == 0 {
      return Failure(NothingToMerge);
    }
    if |results| == 1 {
      return Success(results[0]);
    }
    var scores: map<string, real>, rows: seq<SuiteRow> := map[], [];
    var anyFailed, hasPartial, reasons := false, false, [];
    for i := 0 to |results|
      invariant scores == AllScores(results[..i]) && rows == AllRows(results[..i])
      invariant anyFailed == AnyFailing(results[..i]) && hasPartial == AnyPartial(results[..i])
      invariant reasons == Reasons(results[..i])
    {
      assert results[..i + 1][..i] == results[..i];
      if results[i].scores.Some? {
        scores := scores + results[i].scores.value;
      }
      if results[i].suiteResults.Some? {
        rows := rows + results[i].suiteResults.value;
      }
      if Failing(results[i]) {
        anyFailed := true;
        assert results[i] in results[..i + 1];
        var said := Said(results[i]);
        if said != "" {
          reasons := reasons + [said];
        }
      }
      if results[i].status == StagePartial {
        hasPartial := true;
        assert results[i] in results[..i + 1];
      }
    }
    assert results[..|results|] == results;
    var status := if !anyFailed then (if hasPartial then StagePartial else StageSuccess) else StageFailed;
    var reason := if !anyFailed then None else Some(JoinReasons(reasons));
    r := Success(Stage2Result(results[0].runId, results[0].modelId, status, Some(scores), Some(rows), reason,
                              results[0].startedAt, results[|results| - 1].completedAt));
    StatusOfAll(results);
  }

  lemma {:induction false} StatusOfAll(rs: seq<Stage2Result>)
    ensures AnyFailing(rs) <==> exists i :: 0 <= i < |rs| && rs[i].status in {StageSkipped, StageFailed, StageError}
    ensures !AnyFailing(rs) && !AnyPartial(rs) <==> forall i :: 0 <= i < |rs| ==> rs[i].status == StageSuccess
  {
    forall i | 0 <= i < |rs|
      ensures rs[i].status in {StageSkipped, StageFailed, StageError} ==> AnyFailing(rs)
      ensures rs[i].status == StagePartial ==> AnyPartial(rs)
    {
      assert rs[i] in rs;
    }
  }

  /** A lone failing result says its reason, or by default which model's suite failed; a blank one says nothing. */
  lemma {:induction false} OneReason(r: Stage2Result)
    ensures Reasons([r]) ==
              if r.status == StageSuccess || r.status == StagePartial then []
              else if r.reason.None? then [r.modelId + " suite failed"]
              else if r.reason.value == "" then [] else [r.reason.value]
  {
    assert [r][..0] == [];
    assert (r.modelId + " suite failed")[|r.modelId|] == ' ';
  }

  // ---------------------------------------------------------------------
  // Merging does not depend on batching
  // ---------------------------------------------------------------------

  lemma {:induction false} OverrideAssociates(a: map<string, real>, b: map<string, real>, c: map<string, real>)
    ensures a + (b + c) == a + b + c
  {
  }

  lemma {:induction false} ScoresAppend(a: seq<Stage2Result>, b: seq<Stage2Result>)
    ensures AllScores(a + b) == AllScores(a) + AllScores(b)
    decreases |b|
  {
    if b == [] {
      assert a + b == a;
    } else {
      var front, last := b[..|b| - 1], b[|b| - 1];
      ScoresAppend(a, front);
      assert (a + b)[..|a + b| - 1] == a + front;
      OverrideAssociates(AllScores(a), AllScores(front), last.scores.GetOr(map[]));
    }
  }

  lemma {:induction false} RowsAppend(a: seq<Stage2Result>, b: seq<Stage2Result>)
    ensures AllRows(a + b) == AllRows(a) + AllRows(b)
    decreases |b|
  {
    if b == [] {
      assert a + b == a;
    } else {
      RowsAppend(a, b[..|b| - 1]);
      assert (a + b)[..|a + b| - 1] == a + b[..|b| - 1];
      Text.PlusAssociates(AllRows(a), AllRows(b[..|b| - 1]), b[|b| - 1].suiteResults.GetOr([]));
    }
  }

  lemma {:induction false} ReasonsAppend(a: seq<Stage2Result>, b: seq<Stage2Result>)
    ensures Reasons(a + b) == Reasons(a) + Reasons(b)
    decreases |b|
  {
    if b == [] {
      assert a + b == a;
    } else {
      var front, last := b[..|b| - 1], b[|b| - 1];
      ReasonsAppend(a, front);
      assert (a + b)[..|a + b| - 1] == a + front;
      Text.PlusAssociates(Reasons(a), Reasons(front), if Failing(last) && Said(last) != "" then [Said(last)] else []);
    }
  }

  lemma {:induction false} ReasonsSaySomething(rs: seq<Stage2Result>)
    ensures forall i :: 0 <= i < |Reasons(rs)| ==> Reasons(rs)[i] != ""
    ensures Reasons(rs) != [] ==> AnyFailing(rs)
  {
    if rs != [] {
      ReasonsSaySomething(rs[..|rs| - 1]);
      assert forall r :: r in rs[..|rs| - 1] ==> r in rs;
    }
  }

  lemma {:induction false} JoinAppend(a: seq<string>, b: seq<string>)
    requires a != [] && b != []
    ensures JoinReasons(a + b) == JoinReasons(a) + "; " + JoinReasons(b)
  {
    assert (a + b)[0] == a[0] && (a + b)[1..] == a[1..] + b;
    if |a| > 1 {
      JoinAppend(a[1..], b);
    }
  }

  lemma {:induction false} JoinEmpty(reasons: seq<string>)
    requires forall i :: 0 <= i < |reasons| ==> reasons[i] != ""
    ensures JoinReasons(reasons) == "" <==> reasons == []
  {
  }

  /** What a merged result says for itself when it is merged again. */
  lemma {:induction false} MergedSays(rs: seq<Stage2Result>)
    requires rs != []
    ensures Failing(Merged(rs)) == AnyFailing(rs)
    ensures (Merged(rs).status == StagePartial) == (!AnyFailing(rs) && AnyPartial(rs))
    ensures Merged(rs).scores.GetOr(map[]) == AllScores(rs)
    ensures Merged(rs).suiteResults.GetOr([]) == AllRows(rs)
    ensures AnyFailing(rs) ==> Said(Merged(rs)) == JoinReasons(Reasons(rs))
    ensures Reasons([Merged(rs)]) == if Reasons(rs) == [] then [] else [JoinReasons(Reasons(rs))]
  {
    ReasonsSaySomething(rs);
    JoinEmpty(Reasons(rs));
    if |rs| == 1 {
      assert rs[..0] == [];
      assert rs[0] in rs;
    }
    assert [Merged(rs)][..0] == [];
  }

  lemma {:induction false} PairReasons(a: seq<Stage2Result>, b: seq<Stage2Result>)
    requires a != [] && b != []
    ensures JoinReasons(Reasons([Merged(a), Merged(b)])) == JoinReasons(Reasons(a + b))
  {
    MergedSays(a);
    MergedSays(b);
    ReasonsAppend([Merged(a)], [Merged(b)]);
    assert [Merged(a)] + [Merged(b)] == [Merged(a), Merged(b)];
    ReasonsAppend(a, b);
    if Reasons(a) != [] && Reasons(b) != [] {
      JoinAppend(Reasons(a), Reasons(b));
    } else if Reasons(a) == [] {
      assert Reasons(a) + Reasons(b) == Reasons(b);
    } else {
      assert Reasons(a) + Reasons(b) == Reasons(a);
    }
  }

  lemma {:induction false} PairStatus(a: seq<Stage2Result>, b: seq<Stage2Result>)
    requires a != [] && b != []
    ensures AnyFailing([Merged(a), Merged(b)]) == AnyFailing(a + b)
    ensures MergedStatus([Merged(a), Merged(b)]) == MergedStatus(a + b)
  {
    MergedSays(a);
    MergedSays(b);
    var pair := [Merged(a), Merged(b)];
    assert Merged(a) in pair && Merged(b) in pair;
    assert forall r :: r in a || r in b ==> r in a + b;
  }

  lemma {:induction false} TablesOfTwo(x: Stage2Result, y: Stage2Result)
    ensures AllScores([x, y]) == x.scores.GetOr(map[]) + y.scores.GetOr(map[])
    ensures AllRows([x, y]) == x.suiteResults.GetOr([]) + y.suiteResults.GetOr([])
  {
    assert [x, y][..1] == [x] && [x][..0] == [];
    assert AllScores([x]) == x.scores.GetOr(map[]);
    assert AllRows([x]) == x.suiteResults.GetOr([]);
  }

  lemma {:induction false} PairTables(a: seq<Stage2Result>, b: seq<Stage2Result>)
    requires a != [] && b != []
    ensures AllScores([Merged(a), Merged(b)]) == AllScores(a + b)
    ensures AllRows([Merged(a), Merged(b)]) == AllRows(a + b)
  {
    MergedSays(a);
    MergedSays(b);
    TablesOfTwo(Merged(a), Merged(b));
    ScoresAppend(a, b);
    RowsAppend(a, b);
  }

  /** Merging two batches separately and then together is merging everything at once: in every field. */
  lemma {:induction false} MergeBatches(a: seq<Stage2Result>, b: seq<Stage2Result>)
    requires a != [] && b != []
    ensures Merged([Merged(a), Merged(b)]) == Merged(a + b)
  {
    PairTables(a, b);
    PairStatus(a, b);
    PairReasons(a, b);
    assert (a + b)[0] == a[0] && (a + b)[|a + b| - 1] == b[|b| - 1];
  }

  function Flat(batches: seq<seq<Stage2Result>>): seq<Stage2Result> {
    if batches == [] then [] else batches[0] + Flat(batches[1..])
  }

  function MergedEach(batches: seq<seq<Stage2Result>>): (rs: seq<Stage2Result>)
    requires forall i :: 0 <= i < |batches| ==> batches[i] != []
    ensures |rs| == |batches|
  {
    if batches == [] then [] else [Merged(batches[0])] + MergedEach(batches[1..])
  }

  /** However the results are cut into non-empty batches, merging the merged batches gives the same result. */
  lemma {:induction false} BatchingIrrelevant(batches: seq<seq<Stage2Result>>)
    requires batches != []
    requires forall i :: 0 <= i < |batches| ==> batches[i] != []
    ensures Flat(batches) != [] && Merged(MergedEach(batches)) == Merged(Flat(batches))
  {
    var first, rest := batches[0], batches[1..];
    if rest == [] {
      assert Flat(batches) == first;
      assert MergedEach(batches) == [Merged(first)];
    } else {
      BatchingIrrelevant(rest);
      MergeBatches([Merged(first)], MergedEach(rest));
      MergeBatches(first, Flat(rest));
    }
  }

  // ---------------------------------------------------------------------
  // What the merged result says about each suite
  // ---------------------------------------------------------------------

  /** A suite scores what the last result that scores it gave it. */
  lemma {:induction false} ScoreIsLastGiven(rs: seq<Stage2Result>, suite: string)
    ensures suite in AllScores(rs) <==> exists i :: 0 <= i < |rs| && suite in rs[i].scores.GetOr(map[])
    ensures forall i :: 0 <= i < |rs| && suite in rs[i].scores.GetOr(map[]) &&
                        (forall j :: i < j < |rs| ==> suite !in rs[j].scores.GetOr(map[]))
                        ==> suite in AllScores(rs) && AllScores(rs)[suite] == rs[i].scores.GetOr(map[])[suite]
  {
    if rs != [] {
      var front := rs[..|rs| - 1];
      ScoreIsLastGiven(front, suite);
      assert forall i :: 0 <= i < |front| ==> front[i] == rs[i];
      if i :| 0 <= i < |front| && suite in front[i].scores.GetOr(map[]) {
        assert suite in rs[i].scores.GetOr(map[]);
      }
    }
  }

  ghost predicate Distinct(suites: seq<string>) {
    forall i, j :: 0 <= i < j < |suites| ==> suites[i] != suites[j]
  }

  /** Result `i` scores suite `i` and nothing else, as the mapper leaves it. */
  ghost predicate OnePerSuite(rs: seq<Stage2Result>, suites: seq<string>, rates: seq<real>) {
    && |rs| == |suites| == |rates|
    && forall i :: 0 <= i < |rs| ==> rs[i].scores == Some(map[suites[i] := rates[i]])
  }

  /** For distinct suites every suite keeps its own build's rate, and no other suite is scored. */
  lemma {:induction false} EachSuiteItsOwnScore(rs: seq<Stage2Result>, suites: seq<string>, rates: seq<real>)
    requires OnePerSuite(rs, suites, rates) && Distinct(suites) && rs != []
    ensures Merged(rs).scores.Some?
    ensures forall s :: s in Merged(rs).scores.value <==> s in suites
    ensures forall i :: 0 <= i < |suites| ==>
              suites[i] in Merged(rs).scores.value && Merged(rs).scores.value[suites[i]] == rates[i]
  {
    MergedSays(rs);
    forall s
      ensures s in AllScores(rs) <==> s in suites
    {
      ScoreIsLastGiven(rs, s);
      if s in suites {
        var i :| 0 <= i < |suites| && suites[i] == s;
        assert s in rs[i].scores.GetOr(map[]);
      }
    }
    forall i | 0 <= i < |suites|
      ensures suites[i] in AllScores(rs) && AllScores(rs)[suites[i]] == rates[i]
    {
      ScoreIsLastGiven(rs, suites[i]);
      assert suites[i] in rs[i].scores.GetOr(map[]);
      assert forall j :: i < j < |rs| ==> suites[i] !in rs[j].scores.GetOr(map[]);
    }
  }

  /** With no partial results - the mapper makes none - the merge succeeds iff every suite did. */
  lemma {:induction false} SucceedsIffAllDo(rs: seq<Stage2Result>)
    requires rs != []
    requires forall i :: 0 <= i < |rs| ==> rs[i].status == StageSuccess || rs[i].status == StageFailed
    ensures Merged(rs).status == StageSuccess <==> forall i :: 0 <= i < |rs| ==> rs[i].status == StageSuccess
  {
    if AnyFailing(rs) {
      var r :| r in rs && Failing(r);
      var i :| 0 <= i < |rs| && rs[i] == r;
    } else {
      assert forall i :: 0 <= i < |rs| ==> rs[i] in rs;
    }
  }
}
