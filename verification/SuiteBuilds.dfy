// The per-suite Buildkite builds of one queue entry: runSuiteBuild and
// pollWeeklyMatrix (src/scheduler/scheduler.ts), and what a resumed entry skips
// (src/services/ci-eval-resume.ts).
//
// Buildkite is an oracle that answers each trigger; the rows saved while a suite
// is built are what a later resume reads back.
module SuiteBuilds {
  import opened Prelude
  import opened Stage2Merge

  /** What one trigger-and-wait comes back with: a refusal, or a build. */
  datatype Answer = Rejected | Built(build: Build)

  datatype Settings = Settings(maxSkipRetries: nat, retryOnFailure: bool, onDemand: string, weekly: string)

  /** Buildkite preempted the build before it ran. */
  predicate Preempted(state: Option<string>) {
    state == Some("skipped") || state == Some("not_run")
  }

  predicate PreemptedAnswer(a: Answer) {
    a.Built? && Preempted(a.build.state)
  }

  predicate GenuineFailure(a: Answer) {
    a.Built? && a.build.status == BuildFailed && !Preempted(a.build.state)
  }

  function PreemptedBefore(answers: nat -> Answer, n: nat): nat {
    if n == 0 then 0 else PreemptedBefore(answers, n - 1) + if PreemptedAnswer(answers(n - 1)) then 1 else 0
  }

  predicate FailedBefore(answers: nat -> Answer, n: nat) {
    exists i :: 0 <= i < n && GenuineFailure(answers(i))
  }

  /** Build `i` is followed by another: preempted with budget left, or the one retry of a real failure. */
  predicate Retried(s: Settings, answers: nat -> Answer, i: nat) {
    if PreemptedAnswer(answers(i)) then PreemptedBefore(answers, i) < s.maxSkipRetries
    else GenuineFailure(answers(i)) && s.retryOnFailure && !FailedBefore(answers, i)
  }

  /** The rows saveCIEvalResult appends: one when a build starts, one when the wait for it ends. */
  datatype Row = Row(entry: Option<string>, suites: seq<string>, status: BuildStatus, state: Option<string>,
                     pipeline: string, number: nat)

  /** Whatever pipeline the build ran on, its rows name the weekly one. */
  function RowsOf(s: Settings, entry: string, suite: string, build: Build): seq<Row> {
    [Row(Some(entry), [suite], BuildRunning, None, s.weekly, build.number),
     Row(Some(entry), [suite], build.status, build.state, s.weekly, build.number)]
  }

  function RowsUpTo(s: Settings, entry: string, suite: string, answers: nat -> Answer, n: nat): seq<Row> {
    if n == 0 then [] else
      RowsUpTo(s, entry, suite, answers, n - 1) +
      if answers(n - 1).Built? then RowsOf(s, entry, suite, answers(n - 1).build) else []
  }

  const REJECTED := Build(0, BuildFailed, Some("failed"))

  /** Everything the loop has gone through has been retried, so it is not long. */
  lemma {:induction false} RetriesAreFew(s: Settings, answers: nat -> Answer, n: nat)
    requires forall i :: 0 <= i < n ==> Retried(s, answers, i)
    ensures PreemptedBefore(answers, n) <= s.maxSkipRetries
    ensures n == PreemptedBefore(answers, n) + if FailedBefore(answers, n) then 1 else 0
  {
    if n > 0 {
      RetriesAreFew(s, answers, n - 1);
      assert Retried(s, answers, n - 1);
      if GenuineFailure(answers(n - 1)) {
        assert FailedBefore(answers, n);
      } else if FailedBefore(answers, n) {
        var i :| 0 <= i < n && GenuineFailure(answers(i));
        assert i < n - 1 && FailedBefore(answers, n - 1);
      }
    }
  }

  /**
   * Trigger and wait, again and again: at most maxSkipRetries + 2 times. Every
   * build but the last was retried and the last one was not, which fixes how many
   * there are; a preempted build is the answer only when its budget is spent.
   */
  method RunSuiteBuild(s: Settings, entry: string, suite: string, answers: nat -> Answer)
    returns (result: Build, triggers: nat, rows: seq<Row>)
    ensures 1 <= triggers <= s.maxSkipRetries + 2
    ensures forall i :: 0 <= i < triggers - 1 ==> Retried(s, answers, i)
    ensures !Retried(s, answers, triggers - 1)
    ensures result == match answers(triggers - 1) case Rejected => REJECTED case Built(b) => b
    ensures Preempted(result.state) ==> PreemptedBefore(answers, triggers - 1) == s.maxSkipRetries
    ensures rows == RowsUpTo(s, entry, suite, answers, triggers)
    // Every build before the last was skipped, not run, or failed - that at most once, and if so configured.
    ensures forall i :: 0 <= i < triggers - 1 ==>
              answers(i).Built? && (answers(i).build.state !in {Some("skipped"), Some("not_run")} ==>
                                      answers(i).build.status == BuildFailed && s.retryOnFailure)
    ensures forall i, j :: 0 <= i < j < triggers - 1 && answers(i).Built? && answers(j).Built? ==>
              answers(i).build.state in {Some("skipped"), Some("not_run")} ||
              answers(j).build.state in {Some("skipped"), Some("not_run")}
    // A last one that was skipped or not run used up the budget, and one that failed has had its retry.
    ensures answers(triggers - 1).Built? && result.state in {Some("skipped"), Some("not_run")} ==>
              triggers == s.maxSkipRetries +
                          if exists i :: 0 <= i < triggers - 1 && answers(i).Built? &&
                                         answers(i).build.state !in {Some("skipped"), Some("not_run")} then 2 else 1
    ensures answers(triggers - 1).Built? && result.state !in {Some("skipped"), Some("not_run")} &&
            result.status == BuildFailed && s.retryOnFailure ==>
              exists i :: 0 <= i < triggers - 1 && answers(i).Built? && answers(i).build.status == BuildFailed &&
                          answers(i).build.state !in {Some("skipped"), Some("not_run")}
    // Two rows for each build, in the order they came, all naming the weekly pipeline.
    ensures |rows| == 2 * (if answers(triggers - 1).Built? then triggers else triggers - 1)
    ensures forall i :: 0 <= i < triggers && answers(i).Built? ==>
              && 2 * i + 1 < |rows|
              && rows[2 * i] == Row(Some(entry), [suite], BuildRunning, None, s.weekly, answers(i).build.number)
              && rows[2 * i + 1] == Row(Some(entry), [suite], answers(i).build.status, answers(i).build.state,
                                        s.weekly, answers(i).build.number)
  {
    result, triggers, rows := RetryLoop(s, entry, suite, answers);
    RetriedIs(s, answers, triggers - 1);
    RetriesAreFew(s, answers, triggers - 1);
    if answers(triggers - 1).Built? {
      LastIs(s, answers, result, triggers);
    }
    RowsAre(s, entry, suite, answers, triggers);
  }

  method RetryLoop(s: Settings, entry: string, suite: string, answers: nat -> Answer)
    returns (result: Build, triggers: nat, rows: seq<Row>)
    ensures ConcludesAt(s, answers, result, triggers) && triggers <= s.maxSkipRetries + 2
    ensures rows == RowsUpTo(s, entry, suite, answers, triggers)
  {
    triggers, rows := 0, [];
    var infraRetries, evalRetried := 0, false;
    while true
      invariant forall i :: 0 <= i < triggers ==> Retried(s, answers, i)
      invariant infraRetries == PreemptedBefore(answers, triggers)
      invariant evalRetried == FailedBefore(answers, triggers)
      invariant rows == RowsUpTo(s, entry, suite, answers, triggers)
      decreases s.maxSkipRetries + 2 - triggers
    {
      RetriesAreFew(s, answers, triggers);
      var answer := answers(triggers);
      triggers := triggers + 1;
      if answer.Rejected? {
        return REJECTED, triggers, rows;
      }
      var build := answer.build;
      rows := rows + RowsOf(s, entry, suite, build);
      if Preempted(build.state) && infraRetries < s.maxSkipRetries {
        infraRetries := infraRetries + 1;
        assert Retried(s, answers, triggers - 1);
        continue;
      }
      if build.status == BuildFailed && !Preempted(build.state) && s.retryOnFailure && !evalRetried {
        evalRetried := true;
        assert GenuineFailure(answers(triggers - 1));
        continue;
      }
      return build, triggers, rows;
    }
  }

  /** The builds that were retried, told by their states. */
  lemma {:induction false} RetriedIs(s: Settings, answers: nat -> Answer, n: nat)
    requires forall i :: 0 <= i < n ==> Retried(s, answers, i)
    ensures forall i :: 0 <= i < n ==>
              answers(i).Built? && (answers(i).build.state !in {Some("skipped"), Some("not_run")} ==>
                                      answers(i).build.status == BuildFailed && s.retryOnFailure)
    ensures forall i, j :: 0 <= i < j < n && answers(i).Built? && answers(j).Built? ==>
              answers(i).build.state in {Some("skipped"), Some("not_run")} ||
              answers(j).build.state in {Some("skipped"), Some("not_run")}
  {
    forall i | 0 <= i < n
      ensures answers(i).Built? && (answers(i).build.state !in {Some("skipped"), Some("not_run")} ==>
                                      answers(i).build.status == BuildFailed && s.retryOnFailure)
    {
      assert Retried(s, answers, i);
    }
    forall i, j | 0 <= i < j < n && answers(i).Built? && answers(j).Built?
      ensures answers(i).build.state in {Some("skipped"), Some("not_run")} ||
              answers(j).build.state in {Some("skipped"), Some("not_run")}
    {
      assert Retried(s, answers, i) && Retried(s, answers, j);
    }
  }

  /** The build that was not retried, told by its state. */
  lemma {:induction false} LastIs(s: Settings, answers: nat -> Answer, build: Build, n: nat)
    requires ConcludesAt(s, answers, build, n) && answers(n - 1).Built?
    ensures build.state in {Some("skipped"), Some("not_run")} ==>
              n == s.maxSkipRetries +
                   if exists i :: 0 <= i < n - 1 && answers(i).Built? &&
                                  answers(i).build.state !in {Some("skipped"), Some("not_run")} then 2 else 1
    ensures build.state !in {Some("skipped"), Some("not_run")} && build.status == BuildFailed && s.retryOnFailure ==>
              exists i :: 0 <= i < n - 1 && answers(i).Built? && answers(i).build.status == BuildFailed &&
                          answers(i).build.state !in {Some("skipped"), Some("not_run")}
  {
    RetriedIs(s, answers, n - 1);
    RetriesAreFew(s, answers, n - 1);
    if FailedBefore(answers, n - 1) {
      var i :| 0 <= i < n - 1 && GenuineFailure(answers(i));
      assert answers(i).Built? && answers(i).build.state !in {Some("skipped"), Some("not_run")};
    } else {
      forall i | 0 <= i < n - 1 && answers(i).Built?
        ensures answers(i).build.state in {Some("skipped"), Some("not_run")}
      {
        assert !GenuineFailure(answers(i));
      }
    }
  }

  /** Two rows for each build. */
  lemma {:induction false} RowsAre(s: Settings, entry: string, suite: string, answers: nat -> Answer, n: nat)
    requires n > 0 && forall i :: 0 <= i < n - 1 ==> answers(i).Built?
    ensures var rows := RowsUpTo(s, entry, suite, answers, n);
            && |rows| == 2 * (if answers(n - 1).Built? then n else n - 1)
            && forall i :: 0 <= i < n && answers(i).Built? ==>
                 && 2 * i + 1 < |rows|
                 && rows[2 * i] == Row(Some(entry), [suite], BuildRunning, None, s.weekly, answers(i).build.number)
                 && rows[2 * i + 1] == Row(Some(entry), [suite], answers(i).build.status, answers(i).build.state,
                                           s.weekly, answers(i).build.number)
  {
    if n > 1 {
      RowsAre(s, entry, suite, answers, n - 1);
    }
  }

  /** One real failure, then nothing but preempted builds. */
  function FailThenSkip(n: nat): Answer {
    Built(Build(n, BuildFailed, Some(if n == 0 then "failed" else "skipped")))
  }

  /** The bound is reached, by these answers. */
  lemma {:induction false} BudgetIsReached(s: Settings) returns (answers: nat -> Answer)
    requires s.retryOnFailure
    ensures forall i :: 0 <= i < s.maxSkipRetries + 1 ==> Retried(s, answers, i)
    ensures !Retried(s, answers, s.maxSkipRetries + 1)
  {
    answers := FailThenSkip;
    forall i: nat
      ensures PreemptedBefore(FailThenSkip, i) == if i == 0 then 0 else i - 1
    {
      SkippedSoFar(i);
    }
    assert forall i: nat :: GenuineFailure(answers(i)) <==> i == 0;
    assert forall i: nat :: PreemptedAnswer(answers(i)) <==> i > 0;
  }

  lemma {:induction false} SkippedSoFar(n: nat)
    ensures PreemptedBefore(FailThenSkip, n) == if n == 0 then 0 else n - 1
  {
    if n > 0 {
      SkippedSoFar(n - 1);
    }
  }

  // ---------------------------------------------------------------------
  // What a resumed entry skips
  // ---------------------------------------------------------------------

  /** A row that settles its suites: the wait ended, and the build was not preempted. */
  predicate Settles(row: Row) {
    row.status != BuildRunning && !Preempted(row.state)
  }

  ghost predicate Settled(rows: seq<Row>, suite: string) {
    exists row :: row in rows && Settles(row) && suite in row.suites
  }

  /** What Buildkite says about a build, by pipeline and number. */
  type World = map<(string, nat), string>

  function StateOf(world: World, pipeline: string, number: nat): Option<string> {
    if (pipeline, number) in world then Some(world[(pipeline, number)]) else None
  }

  /** A row whose wait never ended, and whose build - the one the row names - passed. */
  predicate PassedSince(world: World, row: Row) {
    row.status == BuildRunning && StateOf(world, row.pipeline, row.number) == Some("passed")
  }

  ghost predicate Completed(world: World, rows: seq<Row>, suite: string) {
    Settled(rows, suite) || exists row :: row in rows && PassedSince(world, row) && suite in row.suites
  }

  method GetCompletedEvalSuites(rows: seq<Row>, suites: seq<string>) returns (terminal: set<string>)
    ensures forall s :: s in terminal <==> s in suites && Settled(rows, s)
    // A row settles its suites when its build has ended, and was neither skipped nor not run.
    ensures forall s :: s in terminal <==>
              s in suites && exists row :: row in rows && s in row.suites && row.status in {BuildPassed, BuildFailed} &&
                                           row.state !in {Some("skipped"), Some("not_run")}
  {
    terminal := {};
    for i := 0 to |rows|
      invariant forall s :: s in terminal <==> s in suites && Settled(rows[..i], s)
    {
      var row := rows[i];
      ghost var before := terminal;
      assert rows[..i + 1] == rows[..i] + [row];
      if row.status != BuildRunning && !Preempted(row.state) {
        for j := 0 to |row.suites|
          invariant forall s :: s in terminal <==> s in before || (s in suites && s in row.suites[..j])
        {
          if row.suites[j] in suites {
            terminal := terminal + {row.suites[j]};
          }
        }
      }
      SettledNext(rows[..i], row);
    }
    assert rows[..|rows|] == rows;
  }

  lemma {:induction false} SettledNext(rows: seq<Row>, row: Row)
    ensures forall s :: Settled(rows + [row], s) <==> Settled(rows, s) || (Settles(row) && s in row.suites)
  {
    assert row in rows + [row];
    forall s
      ensures Settled(rows + [row], s) <==> Settled(rows, s) || (Settles(row) && s in row.suites)
    {
      if Settled(rows, s) {
        var r :| r in rows && Settles(r) && s in r.suites;
        assert r in rows + [row];
      }
    }
  }

  /** Rows still marked running are looked up in Buildkite, one suite at a time, unless the suite is already done. */
  method ResolveCompletedEvalSuites(world: World, rows: seq<Row>, suites: seq<string>) returns (completed: set<string>)
    ensures forall s :: s in completed <==> s in suites && Completed(world, rows, s)
    // Besides, a row still running counts when its build - in the pipeline it names - has passed.
    ensures forall s :: s in completed <==>
              s in suites &&
              exists row :: row in rows && s in row.suites &&
                            if row.status == BuildRunning
                            then (row.pipeline, row.number) in world && world[(row.pipeline, row.number)] == "passed"
                            else row.state !in {Some("skipped"), Some("not_run")}
  {
    completed := GetCompletedEvalSuites(rows, suites);
    ghost var terminal := completed;
    for i := 0 to |rows|
      invariant forall s :: s in completed <==> s in terminal || (s in suites && Passed(world, rows[..i], s))
    {
      var row := rows[i];
      ghost var before := completed;
      assert rows[..i + 1] == rows[..i] + [row];
      if row.status == BuildRunning {
        for j := 0 to |row.suites|
          invariant forall s :: s in completed <==>
                      s in before || (s in suites && s in row.suites[..j] && PassedSince(world, row))
        {
          var suite := row.suites[j];
          if suite in suites && suite !in completed {
            var state := StateOf(world, row.pipeline, row.number);
            if state == Some("passed") {
              completed := completed + {suite};
            }
          }
        }
      }
      PassedNext(world, rows[..i], row);
    }
    assert rows[..|rows|] == rows;
  }

  ghost predicate Passed(world: World, rows: seq<Row>, suite: string) {
    exists row :: row in rows && PassedSince(world, row) && suite in row.suites
  }

  lemma {:induction false} PassedNext(world: World, rows: seq<Row>, row: Row)
    ensures forall s :: Passed(world, rows + [row], s) <==>
              Passed(world, rows, s) || (PassedSince(world, row) && s in row.suites)
  {
    assert row in rows + [row];
    forall s
      ensures Passed(world, rows + [row], s) <==> Passed(world, rows, s) || (PassedSince(world, row) && s in row.suites)
    {
      if Passed(world, rows, s) {
        var r :| r in rows && PassedSince(world, r) && s in r.suites;
        assert r in rows + [row];
      }
    }
  }

  function Keep(suites: seq<string>, skip: set<string>): seq<string> {
    if suites == [] then [] else (if suites[0] in skip then [] else [suites[0]]) + Keep(suites[1..], skip)
  }

  lemma {:induction false} KeepKeeps(suites: seq<string>, skip: set<string>)
    ensures forall s :: s in Keep(suites, skip) <==> s in suites && s !in skip
    ensures Distinct(suites) ==> Distinct(Keep(suites, skip))
  {
    if suites != [] {
      KeepKeeps(suites[1..], skip);
      assert forall s :: s in suites <==> s == suites[0] || s in suites[1..];
      if Distinct(suites) {
        forall i, j | 0 <= i < j < |suites[1..]|
          ensures suites[1..][i] != suites[1..][j]
        {
          assert suites[i + 1] != suites[j + 1];
        }
        assert suites[0] !in suites[1..];
        assert suites[0] !in Keep(suites[1..], skip);
      }
    }
  }

  /**
   * The rows a resumed entry goes by are its own. What is skipped and what runs
   * partition the configured suites, and whatever is skipped has a row of this
   * very entry behind it: one that settles it, or one whose build has passed since.
   */
  method PlanResume(world: World, found: seq<Row>, entry: string, suites: seq<string>)
    returns (skip: set<string>, run: seq<string>)
    ensures forall s :: s in suites <==> s in skip || s in run
    ensures forall s :: !(s in skip && s in run)
    ensures Distinct(suites) ==> Distinct(run)
    ensures forall s :: s in skip ==> exists row :: row in found && row.entry == Some(entry) && s in row.suites &&
                                              (Settles(row) || PassedSince(world, row))
    ensures forall s :: s in run ==> forall row :: row in found && row.entry == Some(entry) && s in row.suites ==>
                                              !Settles(row) && !PassedSince(world, row)
    ensures forall s :: s in skip <==>
              s in suites &&
              exists row :: row in found && row.entry == Some(entry) && s in row.suites &&
                            if row.status == BuildRunning
                            then (row.pipeline, row.number) in world && world[(row.pipeline, row.number)] == "passed"
                            else row.state !in {Some("skipped"), Some("not_run")}
  {
    var own: seq<Row> := [];
    for i := 0 to |found|
      invariant forall row :: row in own <==> row in found[..i] && row.entry == Some(entry)
    {
      if found[i].entry == Some(entry) {
        own := own + [found[i]];
      }
    }
    assert found[..|found|] == found;
    skip := ResolveCompletedEvalSuites(world, own, suites);
    run := Keep(suites, skip);
    KeepKeeps(suites, skip);
  }

  // ---------------------------------------------------------------------
  // Rows written by a run, read by a resume
  // ---------------------------------------------------------------------

  /** Some build among the first `n` ended with a real verdict. */
  predicate VerdictBefore(answers: nat -> Answer, n: nat) {
    exists i :: 0 <= i < n && answers(i).Built? && answers(i).build.status != BuildRunning &&
      !PreemptedAnswer(answers(i))
  }

  /**
   * After any number of builds the suite is settled iff one of them ended with a
   * real verdict. And a crash while the next build is under way, with only its
   * first row saved, leaves it just as settled.
   */
  lemma {:induction false} FirstVerdictIsFinal(s: Settings, entry: string, suite: string, answers: nat -> Answer,
                                               n: nat)
    ensures Settled(RowsUpTo(s, entry, suite, answers, n), suite) <==> VerdictBefore(answers, n)
    ensures answers(n).Built? ==>
              (Settled(RowsUpTo(s, entry, suite, answers, n) + [RowsOf(s, entry, suite, answers(n).build)[0]], suite)
               <==> VerdictBefore(answers, n))
  {
    if n > 0 {
      var front := RowsUpTo(s, entry, suite, answers, n - 1);
      FirstVerdictIsFinal(s, entry, suite, answers, n - 1);
      if answers(n - 1).Built? {
        var two := RowsOf(s, entry, suite, answers(n - 1).build);
        assert front + two == front + [two[0]] + [two[1]];
        SettledNext(front + [two[0]], two[1]);
      }
    }
    if answers(n).Built? {
      SettledNext(RowsUpTo(s, entry, suite, answers, n), RowsOf(s, entry, suite, answers(n).build)[0]);
    }
  }

  /**
   * So a crash between a first failed build and its retry forfeits the retry: the
   * loop would have gone on, but the resumed entry takes the suite as done.
   */
  lemma {:induction false} CrashForfeitsRetry(s: Settings, entry: string, suite: string, answers: nat -> Answer, n: nat)
    requires s.retryOnFailure && GenuineFailure(answers(n)) && !FailedBefore(answers, n)
    ensures Retried(s, answers, n)
    ensures Settled(RowsUpTo(s, entry, suite, answers, n + 1), suite)
  {
    FirstVerdictIsFinal(s, entry, suite, answers, n + 1);
  }

  /**
   * A row as RunSuiteBuild leaves it: it names the weekly pipeline, and its final
   * state is that of an on-demand build.
   */
  predicate Truthful(s: Settings, world: World, row: Row) {
    && row.pipeline == s.weekly
    && (row.status != BuildRunning ==> row.state.Some? && StateOf(world, s.onDemand, row.number) == row.state)
  }

  /** Some on-demand build recorded for the suite ran and ended: it passed, failed, or was cancelled by hand. */
  ghost predicate ReallyRan(s: Settings, world: World, rows: seq<Row>, suite: string) {
    exists row :: row in rows && suite in row.suites && StateOf(world, s.onDemand, row.number).Some? &&
                  !Preempted(StateOf(world, s.onDemand, row.number))
  }

  /** Every suite a resume may skip really ran. */
  ghost predicate SkipsAreEarned(s: Settings, world: World, rows: seq<Row>) {
    (forall row :: row in rows ==> Truthful(s, world, row)) ==>
      forall suite :: Completed(world, rows, suite) ==> ReallyRan(s, world, rows, suite)
  }

  /**
   * A resume asks Buildkite about the pipeline its rows name, and builds run on
   * the on-demand one. Skips are always earned exactly when the two are one.
   */
  lemma {:induction false} SkipsAreEarnedIffOnePipeline(s: Settings)
    ensures (forall world, rows :: SkipsAreEarned(s, world, rows)) <==> s.weekly == s.onDemand
  {
    if s.weekly == s.onDemand {
      forall world: World, rows: seq<Row>
        ensures SkipsAreEarned(s, world, rows)
      {
        OnePipelineEarns(s, world, rows);
      }
    } else {
      SomeoneElsesBuild(s);
    }
  }

  lemma {:induction false} OnePipelineEarns(s: Settings, world: World, rows: seq<Row>)
    requires s.weekly == s.onDemand
    ensures SkipsAreEarned(s, world, rows)
  {
    if forall row :: row in rows ==> Truthful(s, world, row) {
      forall suite | Completed(world, rows, suite)
        ensures ReallyRan(s, world, rows, suite)
      {
        var row :| row in rows && suite in row.suites && (Settles(row) || PassedSince(world, row));
        assert Truthful(s, world, row);
      }
    }
  }

  /** Build 7 of the suite was preempted, but the weekly pipeline has a passed build 7 of its own. */
  lemma {:induction false} SomeoneElsesBuild(s: Settings)
    requires s.weekly != s.onDemand
    ensures exists world, rows :: !SkipsAreEarned(s, world, rows)
  {
    var world: World := map[(s.onDemand, 7) := "skipped", (s.weekly, 7) := "passed"];
    var rows := RowsOf(s, "entry", "suite", Build(7, BuildFailed, Some("skipped")));
    assert rows[0] in rows && PassedSince(world, rows[0]) && "suite" in rows[0].suites;
    assert Completed(world, rows, "suite");
    assert !ReallyRan(s, world, rows, "suite");
    assert !SkipsAreEarned(s, world, rows);
  }

  // ---------------------------------------------------------------------
  // The whole matrix
  // ---------------------------------------------------------------------

  datatype Context = Context(runId: string, modelId: string, startedAt: string, now: string, words: Wording,
                             resumeReason: string)

  /** The answers to the triggers of one suite. */
  function Own(answers: (string, nat) -> Answer, suite: string): nat -> Answer {
    (n: nat) => answers(suite, n)
  }

  /** Build `i` is what suite `i`'s own loop concludes with, after `each[i]` triggers. */
  predicate ConcludesEach(s: Settings, suites: seq<string>, answers: (string, nat) -> Answer, builds: seq<Build>,
                          each: seq<nat>)
  {
    && |suites| == |builds| == |each|
    && forall i :: 0 <= i < |builds| ==> ConcludesAt(s, Own(answers, suites[i]), builds[i], each[i])
  }

  function Sum(numbers: seq<nat>): nat {
    if numbers == [] then 0 else Sum(numbers[..|numbers| - 1]) + numbers[|numbers| - 1]
  }

  /** Result `i` is about suite `i` and its own build. */
  predicate ReportsEach(rs: seq<Stage2Result>, suites: seq<string>, builds: seq<Build>,
                        summary: Build -> Option<Summary>) {
    && |rs| == |suites| == |builds|
    && forall i :: 0 <= i < |rs| ==> Reports(rs[i], suites[i], builds[i], summary(builds[i]))
  }

  lemma {:induction false} EachNext(s: Settings, suites: seq<string>, suite: string, answers: (string, nat) -> Answer,
                                    builds: seq<Build>, build: Build, each: seq<nat>, more: nat,
                                    rs: seq<Stage2Result>, r: Stage2Result, summary: Build -> Option<Summary>)
    requires ConcludesEach(s, suites, answers, builds, each) && ConcludesAt(s, Own(answers, suite), build, more)
    requires ReportsEach(rs, suites, builds, summary) && Reports(r, suite, build, summary(build))
    ensures ConcludesEach(s, suites + [suite], answers, builds + [build], each + [more])
    ensures Sum(each + [more]) == Sum(each) + more
    ensures ReportsEach(rs + [r], suites + [suite], builds + [build], summary)
  {
    assert (each + [more])[..|each|] == each;
  }

  /** One suite: its builds, and the result of the last of them. */
  method EvaluateSuite(s: Settings, c: Context, entry: string, suite: string, answers: (string, nat) -> Answer,
                       summary: Build -> Option<Summary>)
    returns (build: Build, one: Stage2Result, triggers: nat)
    ensures ConcludesAt(s, Own(answers, suite), build, triggers) && triggers <= s.maxSkipRetries + 2
    ensures Reports(one, suite, build, summary(build))
  {
    var rows;
    build, triggers, rows := RunSuiteBuild(s, entry, suite, Own(answers, suite));
    one := MapBuildkiteResultToStage2(c.runId, c.modelId, [suite], build, summary(build), c.startedAt, c.now, c.words);
  }

  /**
   * One suite after another, then one merged result: of results that are each about
   * one suite left to run and the build its own loop concluded with. When nothing is
   * left to run it claims success outright.
   */
  method PollWeeklyMatrix(s: Settings, c: Context, entry: string, suites: seq<string>, skip: set<string>,
                          answers: (string, nat) -> Answer, summary: Build -> Option<Summary>)
    returns (result: Stage2Result, builds: seq<Build>, perSuite: seq<Stage2Result>, triggers: nat, ghost each: seq<nat>)
    ensures ConcludesEach(s, Keep(suites, skip), answers, builds, each)
    ensures triggers == Sum(each) <= |builds| * (s.maxSkipRetries + 2)
    ensures ReportsEach(perSuite, Keep(suites, skip), builds, summary)
    ensures result ==
              if perSuite == [] then BuildResume(c.runId, c.modelId, suites, c.resumeReason, c.startedAt, c.now)
              else Merged(perSuite)
    // With every suite skipped it claims success: each suite passed, with score one.
    ensures (forall suite :: suite in suites ==> suite in skip) ==>
              && builds == [] && triggers == 0 && result.status == StageSuccess
              && result.scores == Some(map suite | suite in suites :: 1.0) && result.reason == Some(c.resumeReason)
  {
    KeepNothing(suites, skip);
    var run := Keep(suites, skip);
    builds, perSuite, triggers, each := [], [], 0, [];
    if |run| == 0 {
      result := BuildResume(c.runId, c.modelId, suites, c.resumeReason, c.startedAt, c.now);
      return;
    }
    builds, perSuite, triggers, each := EvaluateEach(s, c, entry, run, answers, summary);
    var merged := MergeStage2Results(perSuite);
    result := merged.value;
  }

  lemma {:induction false} KeepNothing(suites: seq<string>, skip: set<string>)
    ensures (forall suite :: suite in suites ==> suite in skip) ==> Keep(suites, skip) == []
  {
    KeepKeeps(suites, skip);
    if Keep(suites, skip) != [] {
      assert Keep(suites, skip)[0] in Keep(suites, skip);
    }
  }

  method EvaluateEach(s: Settings, c: Context, entry: string, run: seq<string>, answers: (string, nat) -> Answer,
                      summary: Build -> Option<Summary>)
    returns (builds: seq<Build>, perSuite: seq<Stage2Result>, triggers: nat, ghost each: seq<nat>)
    ensures ConcludesEach(s, run, answers, builds, each)
    ensures triggers == Sum(each) <= |builds| * (s.maxSkipRetries + 2)
    ensures ReportsEach(perSuite, run, builds, summary)
  {
    builds, perSuite, triggers, each := [], [], 0, [];
    for i := 0 to |run|
      invariant |builds| == i && triggers == Sum(each) <= i * (s.maxSkipRetries + 2)
      invariant ConcludesEach(s, run[..i], answers, builds, each)
      invariant ReportsEach(perSuite, run[..i], builds, summary)
    {
      var build, one, more := EvaluateSuite(s, c, entry, run[i], answers, summary);
      EachNext(s, run[..i], run[i], answers, builds, build, each, more, perSuite, one, summary);
      assert run[..i + 1] == run[..i] + [run[i]];
      BudgetAdds(i, s.maxSkipRetries + 2);
      builds, perSuite, triggers, each := builds + [build], perSuite + [one], triggers + more, each + [more];
    }
    assert run[..|run|] == run;
  }

  lemma {:induction false} BudgetAdds(i: nat, each: nat)
    ensures (i + 1) * each == i * each + each
  {
  }

  /** `n` triggers is where the loop stops, and `build` is what it returns. */
  predicate ConcludesAt(s: Settings, answers: nat -> Answer, build: Build, n: nat) {
    && n >= 1 && (forall i :: 0 <= i < n - 1 ==> Retried(s, answers, i)) && !Retried(s, answers, n - 1)
    && build == match answers(n - 1) case Rejected => REJECTED case Built(b) => b
  }

  /** The same answers always lead to the same conclusion, after as many triggers. */
  lemma {:induction false} ConclusionIsUnique(s: Settings, answers: nat -> Answer,
                                              one: Build, n: nat, other: Build, m: nat)
    requires ConcludesAt(s, answers, one, n) && ConcludesAt(s, answers, other, m)
    ensures one == other && n == m
  {
  }

  /** What the result of a matrix with builds says: each suite's own rate, and success iff all passed. */
  lemma {:induction false} MatrixVerdict(rs: seq<Stage2Result>, suites: seq<string>, builds: seq<Build>,
                                         summary: Build -> Option<Summary>)
    requires ReportsEach(rs, suites, builds, summary) && suites != [] && Distinct(suites)
    ensures var r := Merged(rs);
            && r.scores.Some? && r.scores.value.Keys == (set s | s in suites)
            && (forall i :: 0 <= i < |suites| ==> r.scores.value[suites[i]] == PassRate(builds[i], summary(builds[i])))
            && (r.status == StageSuccess <==> forall i :: 0 <= i < |builds| ==> builds[i].status == BuildPassed)
  {
    var rates := seq(|builds|, i requires 0 <= i < |builds| => PassRate(builds[i], summary(builds[i])));
    EachSuiteItsOwnScore(rs, suites, rates);
    SucceedsIffAllDo(rs);
    assert forall i :: 0 <= i < |rs| ==> (rs[i].status == StageSuccess <==> builds[i].status == BuildPassed);
  }

  /**
   * The fast path against the truth: had the settled builds been merged as usual,
   * the verdict would have been the same iff all of them passed.
   */
  lemma {:induction false} FastPathTruth(c: Context, rs: seq<Stage2Result>, suites: seq<string>, builds: seq<Build>,
                                         summary: Build -> Option<Summary>)
    requires ReportsEach(rs, suites, builds, summary) && suites != [] && Distinct(suites)
    ensures BuildResume(c.runId, c.modelId, suites, c.resumeReason, c.startedAt, c.now).status == Merged(rs).status
            <==> forall i :: 0 <= i < |builds| ==> builds[i].status == BuildPassed
  {
    MatrixVerdict(rs, suites, builds, summary);
  }
}
