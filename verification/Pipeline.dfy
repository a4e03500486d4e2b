// One queue entry through the scheduler (src/scheduler/scheduler.ts): processEntry,
// runCIEvals, finalizePipeline, and the detached Buildkite tail.
//
// Workers, smoke test, tunnel, stores and builds are oracles, and every awaited
// call may throw. A run leaves a trace of the effects that matter: which gates were
// passed, what was triggered, which terminal writes were attempted, and when the
// infrastructure was released.
module Pipeline {
  import opened Prelude
  import Text

  datatype Stage1Status = S1Success | S1Failed | S1Skipped

  datatype Stage1Result = Stage1Result(status: Stage1Status, stage2Eligible: Option<bool>, hasEndpoint: bool)

  datatype Stage2Status = S2Success | S2Partial | S2Skipped | S2Failed | S2Error

  /** `anyPass` says whether some suite of the result passed. */
  datatype Stage2Result = Stage2Result(status: Stage2Status, anyPass: bool)

  datatype Terminal = WriteCompleted | WriteFailed

  datatype Event =
    | Stage1Ran(status: Stage1Status)
    | LocalStage2(gate: Stage2Status)
    | SmokeTest(passed: bool)
    | Triggered
    | Stage3Ran
    | Attempted(write: Terminal)
    | Released

  /** What is configured. */
  datatype Setup = Setup(hasConfig: bool, hasEngine: bool, ciEnabled: bool, tunnelEnabled: bool, stage2Worker: bool,
                         stage3Worker: bool, resultsStore: bool, detachPoll: bool, useBatchRunner: bool)

  /** What the queue entry and its processing mode say. */
  datatype Request = Request(resume: bool, evalOnly: bool, skipPassedSuites: bool, skipReasoning: bool,
                             formatOk: bool, onCooldown: bool)

  /** What the outside world answers. `builds` counts the Buildkite builds the poll triggers. */
  datatype Answers = Answers(running: bool, stage1: Stage1Result, tunneled: bool, publicUrl: bool, local: Stage2Result,
                             smokePassed: bool, builds: nat, matrix: Stage2Result, takenOver: bool, transient: bool)

  /** The awaited calls, each of which may throw. */
  datatype Call =
    | MarkBenchmarking | FindRunning | MarkDeploying | RunStage1 | ResolveTunnel | CleanTunnel | ResolveAgain
    | ResolveSuites | RunStage2 | SaveStage2 | LoadPrior | RunSmoke | SetUpCi | Poll | SaveMatrix
    | RunStage3 | SaveStage3 | WriteTerminal | OnCompleted | FailWrite | DetachedWrite

  /** What a run has found out so far. */
  datatype Run = Run(benchmark: Stage1Result, stage2: Option<Stage2Result>, deployed: bool)

  /** What stands for Stage 1 where it is skipped. */
  const SKIPPED := Stage1Result(S1Skipped, Some(true), true)

  // ---------------------------------------------------------------------
  // How far a run gets
  // ---------------------------------------------------------------------

  /**
   * Everything a run depends on: any setup and request, any answers of the outside
   * world, and any combination of calls that throw.
   */
  datatype Scenario = Scenario(s: Setup, q: Request, o: Answers, throws: Call -> bool) {

    predicate Accepted() {
      q.formatOk && !q.onCooldown
    }

    // ----- Stage 1 -----

    /** A resumed entry looks for a deployment that is still running. */
    predicate LooksForRunning() {
      !q.evalOnly && q.resume && s.hasEngine && s.hasConfig
    }

    predicate RunsStage1() {
      !q.evalOnly && !(LooksForRunning() && o.running)
    }

    predicate Stage1Throws() {
      || (LooksForRunning() && throws(FindRunning))
      || if RunsStage1() then throws(MarkDeploying) || throws(RunStage1) else throws(MarkBenchmarking)
    }

    predicate Stage1Answers() {
      RunsStage1() && !Stage1Throws()
    }

    /** The gate after Stage 1: success, or eligible for a Stage 2 that somebody can run. */
    predicate Stage1Admits() {
      RunsStage1() ==> o.stage1.status == S1Success || (o.stage1.stage2Eligible == Some(true) && s.stage2Worker)
    }

    predicate PastStage1() {
      !Stage1Throws() && Stage1Admits()
    }

    function Benchmark(): Stage1Result {
      if RunsStage1() then o.stage1 else SKIPPED
    }

    // ----- the endpoint and the local gate -----

    predicate EndpointThrows() {
      && Benchmark().hasEndpoint && s.hasConfig
      && (throws(ResolveTunnel) ||
          (!o.tunneled && s.ciEnabled && s.tunnelEnabled && (throws(CleanTunnel) || throws(ResolveAgain))))
    }

    predicate LocalAnswers() {
      && PastStage1() && !EndpointThrows() && s.stage2Worker
      && !((q.resume || q.skipPassedSuites) && s.useBatchRunner && throws(ResolveSuites))
      && !throws(RunStage2)
    }

    predicate LocalSettles() {
      LocalAnswers() && !(s.resultsStore && throws(SaveStage2))
    }

    predicate PastLocal() {
      && PastStage1() && !EndpointThrows()
      && (s.stage2Worker ==> LocalSettles() && o.local.status != S2Error)
    }

    // ----- the builds -----

    predicate GatesAllowBuilds() {
      && s.ciEnabled && Benchmark().hasEndpoint && Benchmark().stage2Eligible != Some(false)
      && (s.stage2Worker ==> o.local.status == S2Success)
    }

    predicate WantsBuilds() {
      PastLocal() && GatesAllowBuilds() && s.hasConfig
    }

    predicate SmokeAnswers() {
      WantsBuilds() && !(q.resume && s.resultsStore && throws(LoadPrior)) && !throws(RunSmoke)
    }

    predicate SmokeAdmits() {
      o.smokePassed && o.publicUrl
    }

    predicate ReachesBuilds() {
      SmokeAnswers() && SmokeAdmits() && !throws(SetUpCi)
    }

    predicate Detaches() {
      ReachesBuilds() && s.detachPoll
    }

    predicate PollThrows() {
      throws(Poll) || (s.resultsStore && throws(SaveMatrix))
    }

    // ----- the end -----

    predicate ReachesEnd() {
      PastLocal() && (WantsBuilds() ==> ReachesBuilds() && !PollThrows())
    }

    /** The Stage 2 result a run ends with: the builds' where there were any, else the local one. */
    function FinalStage2(): Option<Stage2Result> {
      if ReachesBuilds() then Some(o.matrix) else if s.stage2Worker then Some(o.local) else None
    }

    function FinalRun(): Run {
      Run(Benchmark(), FinalStage2(), Benchmark().hasEndpoint)
    }

    predicate WantsStage3(run: Run) {
      s.stage3Worker && !q.skipReasoning && !HardStage2InfraFail(run)
    }

    predicate Stage3Throws(run: Run) {
      WantsStage3(run) && (throws(RunStage3) || (s.resultsStore && throws(SaveStage3)))
    }

    /** The run ends with a verdict on the model. */
    predicate Concludes() {
      ReachesEnd() && !Stage3Throws(FinalRun())
    }

    /** The run ends early with a failure of its own: at the Stage 1 gate, the local gate, or the smoke test. */
    predicate Rejects() {
      || (Stage1Answers() && !Stage1Admits())
      || (LocalSettles() && o.local.status == S2Error)
      || (SmokeAnswers() && !SmokeAdmits())
    }

    /** Writing the verdict, or reporting it, throws. */
    predicate VerdictThrows() {
      throws(WriteTerminal) || throws(OnCompleted)
    }

    /** An attached run leaves its try block by an exception. */
    predicate Throws() {
      if Rejects() then throws(FailWrite) else Concludes() ==> VerdictThrows()
    }

    /** The detached chain reaches its error handler. */
    predicate TailFails() {
      Concludes() ==> VerdictThrows()
    }

    // ----- what a run leaves behind -----

    function GateEvents(): seq<Event> {
      When(Stage1Answers(), Stage1Ran(o.stage1.status)) + When(LocalAnswers(), LocalStage2(o.local.status)) +
      When(SmokeAnswers(), SmokeTest(o.smokePassed))
    }

    function BuildEvents(): seq<Event> {
      if ReachesBuilds() then Copies(Triggered, o.builds) else []
    }

    function ConclusionEvents(): seq<Event> {
      if ReachesEnd() then Conclusion(FinalRun()) else []
    }

    /** Stage 3, where it is wanted, and then the verdict. */
    function Conclusion(run: Run): seq<Event> {
      When(WantsStage3(run) && !throws(RunStage3), Stage3Ran) + When(!Stage3Throws(run), Attempted(Verdict(run)))
    }

    /** An attached run up to the end of its try block. */
    function TriedEvents(): seq<Event> {
      GateEvents() + BuildEvents() + (ConclusionEvents() + When(Rejects(), Attempted(WriteFailed)))
    }

    function AttachedEvents(): seq<Event> {
      ConclusionEvents() + When(Rejects(), Attempted(WriteFailed)) + When(Throws(), Attempted(WriteFailed)) + [Released]
    }

    /** The error handler of the detached chain runs, and its terminal write throws. */
    predicate HandlerThrows() {
      TailFails() && !o.transient && throws(DetachedWrite)
    }

    /** The guard's own write may come anywhere during the tail; it is put behind the verdict here. */
    function DetachedEvents(): seq<Event> {
      ConclusionEvents() + When(o.takenOver, Attempted(WriteFailed)) +
      When(TailFails() && !o.transient, Attempted(WriteFailed)) + When(!HandlerThrows(), Released)
    }

    function EndEvents(): seq<Event> {
      if Detaches() then DetachedEvents() else AttachedEvents()
    }

    function Trace(): seq<Event> {
      if !q.formatOk then [Attempted(WriteFailed)]
      else if q.onCooldown then []
      else GateEvents() + BuildEvents() + EndEvents()
    }

    function Ending(): Outcome {
      if !Accepted() then TurnedAway
      else if Detaches() then Detached(TailFails() && o.transient, HandlerThrows())
      else Closed
    }
  }

  /** How a whole run ends: `abandoned` by a transient error, or with an error handler that `broke`. */
  datatype Outcome = TurnedAway | Closed | Detached(abandoned: bool, broke: bool)

  function When(condition: bool, event: Event): seq<Event> {
    if condition then [event] else []
  }

  function Copies(event: Event, n: nat): (events: seq<Event>)
    ensures |events| == n && forall i :: 0 <= i < n ==> events[i] == event
  {
    seq(n, _ => event)
  }

  predicate HardStage2InfraFail(run: Run) {
    match run.stage2
    case None => false
    case Some(s2) => s2.status == S2Error || (s2.status == S2Failed && !s2.anyPass)
  }

  predicate Stage2Failed(run: Run) {
    run.stage2.Some? && (run.stage2.value.status == S2Failed || run.stage2.value.status == S2Error)
  }

  predicate Stage1FailedPerf(run: Run) {
    run.benchmark.status == S1Failed && run.benchmark.stage2Eligible == Some(true)
  }

  function Verdict(run: Run): Terminal {
    if Stage2Failed(run) || Stage1FailedPerf(run) then WriteFailed else WriteCompleted
  }

  // ---------------------------------------------------------------------
  // The same guards, told from the setup, the request and the answers alone
  // ---------------------------------------------------------------------

  /** Stage 1 is neither left out nor replaced by a deployment that still runs. */
  predicate Deploys(x: Scenario) {
    !x.q.evalOnly && !(x.q.resume && x.s.hasEngine && x.s.hasConfig && x.o.running)
  }

  /** Stage 1 gives an answer: the entry is taken and no call up to there throws. */
  predicate DeployAnswers(x: Scenario) {
    && x.q.formatOk && !x.q.onCooldown && Deploys(x)
    && (x.q.resume && x.s.hasEngine && x.s.hasConfig ==> !x.throws(FindRunning))
    && !x.throws(MarkDeploying) && !x.throws(RunStage1)
  }

  /** The deployment stands: Stage 1 succeeded, or a local Stage 2 may go on without, or it was not needed. */
  predicate Stands(x: Scenario) {
    if Deploys(x)
    then DeployAnswers(x) &&
         (x.o.stage1.status == S1Success || (x.o.stage1.stage2Eligible == Some(true) && x.s.stage2Worker))
    else x.q.formatOk && !x.q.onCooldown && !x.throws(MarkBenchmarking) &&
         (x.q.evalOnly || !x.throws(FindRunning))
  }

  /** Its endpoint is resolved, and a configured local Stage 2 ends without an error and is saved. */
  predicate LocallyFine(x: Scenario) {
    && Stands(x)
    && ((Deploys(x) ==> x.o.stage1.hasEndpoint) && x.s.hasConfig ==>
          && !x.throws(ResolveTunnel)
          && (!x.o.tunneled && x.s.ciEnabled && x.s.tunnelEnabled ==>
                !x.throws(CleanTunnel) && !x.throws(ResolveAgain)))
    && (x.s.stage2Worker ==>
          && ((x.q.resume || x.q.skipPassedSuites) && x.s.useBatchRunner ==> !x.throws(ResolveSuites))
          && !x.throws(RunStage2) && (x.s.resultsStore ==> !x.throws(SaveStage2)) && x.o.local.status != S2Error)
  }

  /** Builds are due: CI is configured, a fresh deployment is reachable and not ineligible, the local run succeeded. */
  predicate BuildsAreDue(x: Scenario) {
    && x.s.ciEnabled && x.s.hasConfig
    && (Deploys(x) ==> x.o.stage1.hasEndpoint && x.o.stage1.stage2Eligible != Some(false))
    && (x.s.stage2Worker ==> x.o.local.status == S2Success)
  }

  /** The smoke test passes on a public URL, and no call up to the builds throws. */
  predicate BuildsAreSafe(x: Scenario) {
    && (x.q.resume && x.s.resultsStore ==> !x.throws(LoadPrior)) && !x.throws(RunSmoke)
    && x.o.smokePassed && x.o.publicUrl && !x.throws(SetUpCi)
  }

  predicate BuildsAreSent(x: Scenario) {
    LocallyFine(x) && BuildsAreDue(x) && BuildsAreSafe(x)
  }

  /** The run comes to its end: builds that are due were sent, polled and saved. */
  predicate ComesToItsEnd(x: Scenario) {
    && LocallyFine(x)
    && (BuildsAreDue(x) ==> BuildsAreSafe(x) && !x.throws(Poll) && (x.s.resultsStore ==> !x.throws(SaveMatrix)))
  }

  /** The result of the last Stage 2 that is due. */
  function LastStage2(x: Scenario): Stage2Result {
    if BuildsAreDue(x) then x.o.matrix else if x.s.stage2Worker then x.o.local else Stage2Result(S2Success, true)
  }

  predicate ReasoningIsSafe(x: Scenario) {
    x.s.stage3Worker && !x.q.skipReasoning ==>
      !x.throws(RunStage3) && (x.s.resultsStore ==> !x.throws(SaveStage3))
  }

  lemma {:induction false} GuardsFromTheAnswers(x: Scenario)
    ensures x.Accepted() && x.Stage1Answers() <==> DeployAnswers(x)
    ensures x.Accepted() && x.PastStage1() <==> Stands(x)
    ensures x.Accepted() && x.PastLocal() <==> LocallyFine(x)
    ensures x.Accepted() && x.ReachesBuilds() <==> BuildsAreSent(x)
    ensures x.Accepted() && x.ReachesEnd() <==> ComesToItsEnd(x)
  {
  }

  // ---------------------------------------------------------------------
  // The scheduler's code
  // ---------------------------------------------------------------------

  /** How a try block is left: with its work done, by an exception, or with a detached tail to come. */
  datatype Exit = Left | Threw | Deferred

  /** Stage 3, report, and the verdict: `completed` unless Stage 2 or the Stage 1 gate failed. */
  method FinalizePipeline(x: Scenario, run: Run) returns (trace: seq<Event>, threw: bool)
    ensures trace == x.Conclusion(run)
    ensures threw <==> x.Stage3Throws(run) || x.VerdictThrows()
  {
    trace := [];
    if x.s.stage3Worker && !x.q.skipReasoning && !HardStage2InfraFail(run) {
      if x.throws(RunStage3) {
        return trace, true;
      }
      trace := trace + [Stage3Ran];
      if x.s.resultsStore && x.throws(SaveStage3) {
        return trace, true;
      }
    }
    if Stage2Failed(run) {
      trace := trace + [Attempted(WriteFailed)];
    } else if Stage1FailedPerf(run) {
      trace := trace + [Attempted(WriteFailed)];
    } else {
      trace := trace + [Attempted(WriteCompleted)];
    }
    return trace, x.throws(WriteTerminal) || x.throws(OnCompleted);
  }

  /** Stage 1, or the reasons to skip it. `ok` is false when the run ends here. */
  method Stage1(x: Scenario) returns (trace: seq<Event>, run: Run, ok: bool, exit: Exit)
    ensures ok <==> x.PastStage1()
    ensures ok ==> run == Run(x.Benchmark(), None, x.Benchmark().hasEndpoint)
    ensures trace == When(x.Stage1Answers(), Stage1Ran(x.o.stage1.status)) +
                     When(x.Stage1Answers() && !x.Stage1Admits(), Attempted(WriteFailed))
    ensures !ok ==> exit == if x.Stage1Throws() || x.throws(FailWrite) then Threw else Left
  {
    trace, run := [], Run(SKIPPED, None, true);
    if x.q.evalOnly {
      if x.throws(MarkBenchmarking) {
        return trace, run, false, Threw;
      }
      return trace, run, true, Left;
    }
    if x.q.resume && x.s.hasEngine && x.s.hasConfig {
      if x.throws(FindRunning) {
        return trace, run, false, Threw;
      }
      if x.o.running {
        if x.throws(MarkBenchmarking) {
          return trace, run, false, Threw;
        }
        return trace, run, true, Left;
      }
    }
    if x.throws(MarkDeploying) || x.throws(RunStage1) {
      return trace, run, false, Threw;
    }
    var result := x.o.stage1;
    trace := trace + [Stage1Ran(result.status)];
    run := Run(result, None, result.hasEndpoint);
    if result.status != S1Success {
      if !(result.stage2Eligible == Some(true) && x.s.stage2Worker) {
        trace := trace + [Attempted(WriteFailed)];
        return trace, run, false, if x.throws(FailWrite) then Threw else Left;
      }
    }
    return trace, run, true, Left;
  }

  /** The tunnel: pre-warmed during Stage 1 or fresh, and resolved again when the pre-warmed one fell back. */
  method ResolveEndpoint(x: Scenario, run: Run) returns (threw: bool)
    requires run.deployed == x.Benchmark().hasEndpoint
    ensures threw <==> x.EndpointThrows()
  {
    if run.deployed && x.s.hasConfig {
      if x.throws(ResolveTunnel) {
        return true;
      }
      if !x.o.tunneled && x.s.ciEnabled && x.s.tunnelEnabled {
        return x.throws(CleanTunnel) || x.throws(ResolveAgain);
      }
    }
    return false;
  }

  /** The local Stage 2 run, when one is configured. */
  method LocalGate(x: Scenario, run: Run) returns (trace: seq<Event>, run': Run, passed: bool, ok: bool, exit: Exit)
    requires x.PastStage1() && !x.EndpointThrows()
    requires run == Run(x.Benchmark(), None, x.Benchmark().hasEndpoint)
    ensures ok <==> x.PastLocal()
    ensures ok ==> run' == run.(stage2 := if x.s.stage2Worker then Some(x.o.local) else None)
    ensures ok ==> (passed <==> (x.s.stage2Worker ==> x.o.local.status == S2Success))
    ensures trace == When(x.LocalAnswers(), LocalStage2(x.o.local.status)) +
                     When(x.LocalSettles() && x.o.local.status == S2Error, Attempted(WriteFailed))
    ensures !ok ==> exit == if !x.LocalSettles() || x.throws(FailWrite) then Threw else Left
  {
    trace, run', passed, exit := [], run, true, Threw;
    if x.s.stage2Worker {
      if (x.q.resume || x.q.skipPassedSuites) && x.s.useBatchRunner && x.throws(ResolveSuites) {
        return trace, run', false, false, Threw;
      }
      if x.throws(RunStage2) {
        return trace, run', false, false, Threw;
      }
      var result := x.o.local;
      trace := trace + [LocalStage2(result.status)];
      run' := run'.(stage2 := Some(result));
      if x.s.resultsStore && x.throws(SaveStage2) {
        return trace, run', false, false, Threw;
      }
      if result.status == S2Error {
        trace := trace + [Attempted(WriteFailed)];
        return trace, run', false, false, if x.throws(FailWrite) then Threw else Left;
      }
      passed := result.status == S2Success;
    }
    ok := true;
  }

  /** The smoke test and the builds of runCIEvals; with `detachPoll` the builds are left to the detached tail. */
  method CiEvals(x: Scenario, run: Run) returns (trace: seq<Event>, run': Run, ok: bool, exit: Exit)
    requires x.PastLocal() && x.GatesAllowBuilds()
    ensures ok <==> x.ReachesEnd() && !x.Detaches()
    ensures ok ==> run' == if x.WantsBuilds() then run.(stage2 := Some(x.o.matrix)) else run
    ensures exit == Deferred <==> x.Detaches()
    ensures x.Detaches() ==> run' == run
    ensures trace == When(x.SmokeAnswers(), SmokeTest(x.o.smokePassed)) +
                     (if x.ReachesBuilds() && !x.Detaches() then Copies(Triggered, x.o.builds) else []) +
                     When(x.SmokeAnswers() && !x.SmokeAdmits(), Attempted(WriteFailed))
    ensures !ok && !x.Detaches() ==>
              exit == if x.SmokeAnswers() && !x.SmokeAdmits() && !x.throws(FailWrite) then Left else Threw
  {
    trace, run', exit := [], run, Threw;
    if !x.s.hasConfig {
      return trace, run', true, Left;
    }
    if x.q.resume && x.s.resultsStore && x.throws(LoadPrior) {
      return trace, run', false, Threw;
    }
    if x.throws(RunSmoke) {
      return trace, run', false, Threw;
    }
    trace := trace + [SmokeTest(x.o.smokePassed)];
    if !x.o.smokePassed || !x.o.publicUrl {
      trace := trace + [Attempted(WriteFailed)];
      return trace, run', false, if x.throws(FailWrite) then Threw else Left;
    }
    if x.throws(SetUpCi) {
      return trace, run', false, Threw;
    }
    if x.s.detachPoll {
      return trace, run', false, Deferred;
    }
    var builds := TriggerBuilds(x.o.builds);
    trace := trace + builds;
    if x.throws(Poll) {
      return trace, run', false, Threw;
    }
    run' := run'.(stage2 := Some(x.o.matrix));
    if x.s.resultsStore && x.throws(SaveMatrix) {
      return trace, run', false, Threw;
    }
    return trace, run', true, Left;
  }

  /** The triggers of one poll: one build after another. */
  method TriggerBuilds(builds: nat) returns (trace: seq<Event>)
    ensures trace == Copies(Triggered, builds)
  {
    trace := [];
    for i := 0 to builds
      invariant trace == Copies(Triggered, i)
    {
      trace := trace + [Triggered];
    }
  }

  lemma {:induction false} EndedByStage1(x: Scenario)
    requires !x.PastStage1()
    ensures !x.Detaches() && x.TriedEvents() == When(x.Stage1Answers(), Stage1Ran(x.o.stage1.status)) +
                                                When(x.Stage1Answers() && !x.Stage1Admits(), Attempted(WriteFailed))
    ensures x.Throws() <==> x.Stage1Throws() || x.throws(FailWrite)
  {
  }

  lemma {:induction false} EndedByEndpoint(x: Scenario)
    requires x.PastStage1() && x.EndpointThrows()
    ensures !x.Detaches() && x.TriedEvents() == When(x.Stage1Answers(), Stage1Ran(x.o.stage1.status)) && x.Throws()
  {
  }

  lemma {:induction false} EndedByLocalGate(x: Scenario)
    requires x.PastStage1() && !x.EndpointThrows() && !x.PastLocal()
    ensures !x.Detaches()
    ensures x.TriedEvents() == When(x.Stage1Answers(), Stage1Ran(x.o.stage1.status)) +
                               (When(x.LocalAnswers(), LocalStage2(x.o.local.status)) +
                                When(x.LocalSettles() && x.o.local.status == S2Error, Attempted(WriteFailed)))
    ensures x.Throws() <==> !x.LocalSettles() || x.throws(FailWrite)
  {
  }

  /** The gates of a run that got past the local one, without the smoke test. */
  function EarlyGates(x: Scenario): seq<Event> {
    When(x.Stage1Answers(), Stage1Ran(x.o.stage1.status)) + When(x.LocalAnswers(), LocalStage2(x.o.local.status))
  }

  lemma {:induction false} EndedByBuilds(x: Scenario)
    requires x.PastLocal() && !x.ReachesEnd() && !x.Detaches()
    ensures x.TriedEvents() == EarlyGates(x) +
              (When(x.SmokeAnswers(), SmokeTest(x.o.smokePassed)) +
               (if x.ReachesBuilds() then Copies(Triggered, x.o.builds) else []) +
               When(x.SmokeAnswers() && !x.SmokeAdmits(), Attempted(WriteFailed)))
    ensures x.Throws() <==> !(x.SmokeAnswers() && !x.SmokeAdmits() && !x.throws(FailWrite))
  {
  }

  lemma {:induction false} EndedByVerdict(x: Scenario, builds: seq<Event>)
    requires x.ReachesEnd() && !x.Detaches()
    requires builds == When(x.SmokeAnswers(), SmokeTest(x.o.smokePassed)) +
                       (if x.ReachesBuilds() then Copies(Triggered, x.o.builds) else [])
    ensures x.TriedEvents() == EarlyGates(x) + builds + x.Conclusion(x.FinalRun())
    ensures x.Throws() <==> x.Stage3Throws(x.FinalRun()) || x.VerdictThrows()
  {
  }

  /** The body of processEntry's try block. */
  method TryBlock(x: Scenario) returns (trace: seq<Event>, run: Run, exit: Exit)
    ensures exit == Deferred <==> x.Detaches()
    ensures x.Detaches() ==> trace == x.GateEvents() && run.(stage2 := Some(x.o.matrix)) == x.FinalRun()
    ensures !x.Detaches() ==> trace == x.TriedEvents() && (exit == Threw <==> x.Throws())
  {
    var ok: bool;
    trace, run, ok, exit := Stage1(x);
    if !ok {
      EndedByStage1(x);
      return;
    }
    assert trace == When(x.Stage1Answers(), Stage1Ran(x.o.stage1.status));
    var threw := ResolveEndpoint(x, run);
    if threw {
      EndedByEndpoint(x);
      return trace, run, Threw;
    }
    var more: seq<Event>, passed: bool;
    more, run, passed, ok, exit := LocalGate(x, run);
    trace := trace + more;
    if !ok {
      EndedByLocalGate(x);
      return;
    }
    assert trace == EarlyGates(x);
    var ended: bool;
    trace, run, exit, ended := Builds(x, run, passed);
    if ended {
      return;
    }
    more, threw := FinalizePipeline(x, run);
    trace := trace + more;
    exit := if threw then Threw else Left;
  }

  /** The part of the try block between the local gate and the verdict. */
  method Builds(x: Scenario, run: Run, passed: bool) returns (trace: seq<Event>, run': Run, exit: Exit, ended: bool)
    requires x.PastLocal() && run == Run(x.Benchmark(), run.stage2, x.Benchmark().hasEndpoint)
    requires run.stage2 == if x.s.stage2Worker then Some(x.o.local) else None
    requires passed <==> (x.s.stage2Worker ==> x.o.local.status == S2Success)
    ensures !ended <==> x.ReachesEnd() && !x.Detaches()
    ensures !ended ==> run' == x.FinalRun() && trace + x.Conclusion(run') == x.TriedEvents()
    ensures !ended ==> (x.Throws() <==> x.Stage3Throws(run') || x.VerdictThrows())
    ensures ended ==> (exit == Deferred <==> x.Detaches())
    ensures x.Detaches() ==> trace == x.GateEvents() && run'.(stage2 := Some(x.o.matrix)) == x.FinalRun()
    ensures ended && !x.Detaches() ==> trace == x.TriedEvents() && (exit == Threw <==> x.Throws())
  {
    trace, run', exit, ended := EarlyGates(x), run, Left, false;
    var more: seq<Event> := [];
    if x.s.ciEnabled && passed && run.deployed && run.benchmark.stage2Eligible != Some(false) {
      var ok;
      more, run', ok, exit := CiEvals(x, run);
      trace := trace + more;
      if !ok {
        if !x.Detaches() {
          EndedByBuilds(x);
        }
        return trace, run', exit, true;
      }
    }
    EndedByVerdict(x, more);
    assert trace == EarlyGates(x) + more;
  }

  /** The detached poll and everything chained to it. */
  method DetachedTail(x: Scenario, run: Run) returns (trace: seq<Event>, abandoned: bool, broke: bool)
    requires x.Detaches() && run.(stage2 := Some(x.o.matrix)) == x.FinalRun()
    ensures trace == x.BuildEvents() + x.DetachedEvents()
    ensures abandoned <==> x.TailFails() && x.o.transient
    ensures broke <==> x.HandlerThrows()
  {
    var builds := TriggerBuilds(x.o.builds);
    var tail: seq<Event> := [];
    var failed := x.throws(Poll) || (x.s.resultsStore && x.throws(SaveMatrix));
    if !failed {
      tail, failed := FinalizePipeline(x, run.(stage2 := Some(x.o.matrix)));
    }
    assert tail == x.ConclusionEvents() && (failed <==> x.TailFails());
    if x.o.takenOver {
      tail := tail + [Attempted(WriteFailed)];
    }
    abandoned, broke := failed && x.o.transient, false;
    if failed && !x.o.transient {
      tail := tail + [Attempted(WriteFailed)];
      broke := x.throws(DetachedWrite);
    }
    if !broke {
      tail := tail + [Released];
    }
    trace := builds + tail;
  }

  lemma {:induction false} AttachedTrace(x: Scenario)
    requires x.Accepted() && !x.Detaches()
    ensures x.Trace() == x.TriedEvents() + When(x.Throws(), Attempted(WriteFailed)) + [Released]
  {
    var gates := x.GateEvents() + x.BuildEvents();
    var story := x.ConclusionEvents() + When(x.Rejects(), Attempted(WriteFailed));
    var caught := When(x.Throws(), Attempted(WriteFailed));
    Text.PlusAssociates(gates, story + caught, [Released]);
    Text.PlusAssociates(gates, story, caught);
  }

  /**
   * A whole run, the detached tail included. The first clause says exactly what it
   * leaves behind and how it ends; the others are what the guards and the single
   * release are for.
   */
  method ProcessEntry(x: Scenario) returns (trace: seq<Event>, outcome: Outcome)
    ensures trace == x.Trace() && outcome == x.Ending()
    // Builds are triggered only for an eligible model that passed the smoke test and the local gate.
    ensures Triggered in trace <==> BuildsAreSent(x) && x.o.builds > 0
    ensures TriggersGuarded(trace, x.s.stage2Worker)
    ensures Triggered in trace && x.o.stage1.stage2Eligible == Some(false) ==>
              x.q.evalOnly || (x.q.resume && x.s.hasEngine && x.s.hasConfig && x.o.running)
    // Stage 1 and Stage 3 run when they are due and nothing before them throws.
    ensures forall status :: Stage1Ran(status) in trace <==> DeployAnswers(x) && status == x.o.stage1.status
    ensures Stage3Ran in trace <==>
              && ComesToItsEnd(x) && x.s.stage3Worker && !x.q.skipReasoning && !x.throws(RunStage3)
              && LastStage2(x).status != S2Error && (LastStage2(x).status == S2Failed ==> LastStage2(x).anyPass)
    // Completed is what is due, sent, saved and did not fail; a run whose Stage 1 failed never is.
    ensures Attempted(WriteCompleted) in trace <==>
              && ComesToItsEnd(x) && ReasoningIsSafe(x) && LastStage2(x).status !in {S2Failed, S2Error}
              && (Deploys(x) ==> x.o.stage1.status != S1Failed)
    // An attached run is written failed when it is not completed, or when that write or its report throws.
    ensures outcome == Closed ==>
              (Attempted(WriteFailed) in trace <==>
                 Attempted(WriteCompleted) !in trace || x.throws(WriteTerminal) || x.throws(OnCompleted))
    ensures outcome.Detached? && !x.o.transient ==>
              (Attempted(WriteFailed) in trace <==>
                 || x.o.takenOver || Attempted(WriteCompleted) !in trace
                 || x.throws(WriteTerminal) || x.throws(OnCompleted))
    ensures outcome == TurnedAway <==> !x.q.formatOk || x.q.onCooldown
    ensures outcome.Detached? <==> BuildsAreSent(x) && x.s.detachPoll
    // Past the gates the infrastructure is released once, at the very end, unless
    // the detached chain's own error handler throws.
    ensures outcome == Closed || (outcome.Detached? && !outcome.broke) ==> ReleasedLast(trace)
    ensures outcome.Detached? && outcome.broke ==> Released !in trace && x.throws(DetachedWrite) && !x.o.transient
    ensures outcome.Detached? && (x.throws(Poll) || x.throws(WriteTerminal) || x.throws(OnCompleted)) ==>
              && (outcome.abandoned <==> x.o.transient)
              && (outcome.broke <==> !x.o.transient && x.throws(DetachedWrite))
    // And a verdict is attempted, unless a transient error ends the detached poll.
    ensures outcome == Closed || (outcome.Detached? && !outcome.abandoned) ==> SomeWrite(trace)
  {
    trace, outcome := RunEntry(x);
    TriggersAreGuarded(x);
    TriggeredIff(x);
    StagesRunIff(x);
    CompletedFromTheAnswers(x);
    FailedUnlessCompleted(x);
    ReleasedOnceAtTheEnd(x);
    VerdictIsAttempted(x);
  }

  method RunEntry(x: Scenario) returns (trace: seq<Event>, outcome: Outcome)
    ensures trace == x.Trace() && outcome == x.Ending()
  {
    if !x.q.formatOk {
      return [Attempted(WriteFailed)], TurnedAway;
    }
    if x.q.onCooldown {
      return [], TurnedAway;
    }
    var run, exit;
    trace, run, exit := TryBlock(x);
    if exit == Deferred {
      var tail, abandoned, broke := DetachedTail(x, run);
      Text.PlusAssociates(x.GateEvents(), x.BuildEvents(), x.DetachedEvents());
      return trace + tail, Detached(abandoned, broke);
    }
    if exit == Threw {
      trace := trace + [Attempted(WriteFailed)];
    }
    trace := trace + [Released];
    outcome := Closed;
    AttachedTrace(x);
  }

  // ---------------------------------------------------------------------
  // What every trace respects
  // ---------------------------------------------------------------------

  /** A build is triggered only after a passed smoke test and, when there is a local gate, after it succeeded. */
  predicate TriggersGuarded(trace: seq<Event>, localGate: bool) {
    forall i :: 0 <= i < |trace| && trace[i] == Triggered ==>
      SmokeTest(true) in trace[..i] && (localGate ==> LocalStage2(S2Success) in trace[..i])
  }

  /** Infrastructure is released once, as the very last thing. */
  predicate ReleasedLast(trace: seq<Event>) {
    trace != [] && trace[|trace| - 1] == Released && Released !in trace[..|trace| - 1]
  }

  predicate SomeWrite(trace: seq<Event>) {
    Attempted(WriteCompleted) in trace || Attempted(WriteFailed) in trace
  }

  lemma {:induction false} InConcat(a: seq<Event>, b: seq<Event>, c: seq<Event>, event: Event)
    ensures event in a + b + c <==> event in a || event in b || event in c
  {
  }

  lemma {:induction false} GatesInTheirPlace(x: Scenario)
    ensures forall event :: event in x.GateEvents() ==> event.Stage1Ran? || event.LocalStage2? || event.SmokeTest?
  {
  }

  lemma {:induction false} ConclusionInItsPlace(x: Scenario, run: Run)
    ensures forall event :: event in x.Conclusion(run) ==> event == Stage3Ran || event.Attempted?
  {
  }

  /** Only verdicts, Stage 3 and the release at the end. */
  lemma {:induction false} EndInItsPlace(x: Scenario)
    ensures forall event :: event in x.EndEvents() ==> event == Stage3Ran || event.Attempted? || event == Released
  {
    ConclusionInItsPlace(x, x.FinalRun());
    var conclusion := x.ConclusionEvents();
    assert forall event :: event in conclusion ==> event == Stage3Ran || event.Attempted?;
    EndIsConclusionAndMore(x, conclusion);
  }

  lemma {:induction false} EndIsConclusionAndMore(x: Scenario, conclusion: seq<Event>)
    requires conclusion == x.ConclusionEvents()
    ensures forall event :: event in x.EndEvents() ==>
              event in conclusion || event == Attempted(WriteFailed) || event == Released
  {
  }

  lemma {:induction false} EventsInTheirPlace(x: Scenario)
    ensures forall event :: event in x.GateEvents() ==> event.Stage1Ran? || event.LocalStage2? || event.SmokeTest?
    ensures forall event :: event in x.BuildEvents() ==> event == Triggered
    ensures forall event :: event in x.EndEvents() ==> event == Stage3Ran || event.Attempted? || event == Released
  {
    GatesInTheirPlace(x);
    EndInItsPlace(x);
  }

  lemma {:induction false} TriggersAreGuarded(x: Scenario)
    ensures Triggered in x.Trace() <==> x.Accepted() && x.ReachesBuilds() && x.o.builds > 0
    ensures TriggersGuarded(x.Trace(), x.s.stage2Worker)
  {
    if x.Accepted() {
      var gates, builds, end := x.GateEvents(), x.BuildEvents(), x.EndEvents();
      EventsInTheirPlace(x);
      InConcat(gates, builds, end, Triggered);
      if x.ReachesBuilds() && x.o.builds > 0 {
        assert builds[0] == Triggered;
      }
      forall i | 0 <= i < |x.Trace()| && x.Trace()[i] == Triggered
        ensures SmokeTest(true) in x.Trace()[..i]
        ensures x.s.stage2Worker ==> LocalStage2(S2Success) in x.Trace()[..i]
      {
        GatesComeFirst(gates, builds, end, i);
        GatesHoldTheGuards(x);
      }
    }
  }

  lemma {:induction false} InWhichPart(gates: seq<Event>, builds: seq<Event>, end: seq<Event>, i: nat)
    requires i < |gates + builds + end|
    ensures i < |gates| ==> (gates + builds + end)[i] in gates
    ensures i >= |gates| + |builds| ==> (gates + builds + end)[i] in end
  {
  }

  lemma {:induction false} TriggeredIff(x: Scenario)
    ensures Triggered in x.Trace() <==> BuildsAreSent(x) && x.o.builds > 0
  {
    TriggersAreGuarded(x);
    GuardsFromTheAnswers(x);
  }

  lemma {:induction false} GatesComeFirst(gates: seq<Event>, builds: seq<Event>, end: seq<Event>, i: nat)
    requires i < |gates + builds + end| && (gates + builds + end)[i] == Triggered
    requires Triggered !in gates && Triggered !in end
    ensures |builds| > 0 && gates <= (gates + builds + end)[..i]
    ensures forall event :: event in gates ==> event in (gates + builds + end)[..i]
  {
    var all := gates + builds + end;
    InWhichPart(gates, builds, end, i);
    assert all[..i][..|gates|] == gates;
    forall event | event in gates
      ensures event in all[..i]
    {
      var k :| 0 <= k < |gates| && gates[k] == event;
      assert all[..i][k] == event;
    }
  }

  lemma {:induction false} GatesHoldTheGuards(x: Scenario)
    requires x.ReachesBuilds()
    ensures SmokeTest(true) in x.GateEvents() && (x.s.stage2Worker ==> LocalStage2(S2Success) in x.GateEvents())
  {
    InConcat(When(x.Stage1Answers(), Stage1Ran(x.o.stage1.status)),
             When(x.LocalAnswers(), LocalStage2(x.o.local.status)),
             When(x.SmokeAnswers(), SmokeTest(x.o.smokePassed)), SmokeTest(true));
  }

  /** Which verdict the conclusion holds. */
  lemma {:induction false} ConclusionHolds(x: Scenario, write: Terminal)
    ensures Attempted(write) in x.ConclusionEvents() <==> x.Concludes() && Verdict(x.FinalRun()) == write
  {
  }

  /** What is written completed at the end is written by the conclusion. */
  lemma {:induction false} OnlyConclusionCompletes(x: Scenario, conclusion: seq<Event>)
    requires conclusion == x.ConclusionEvents()
    ensures Attempted(WriteCompleted) in x.EndEvents() <==> Attempted(WriteCompleted) in conclusion
  {
  }

  /** Written completed, exactly, when the run concludes and neither stage failed. */
  lemma {:induction false} CompletedIff(x: Scenario)
    ensures Attempted(WriteCompleted) in x.Trace()
            <==> x.Accepted() && x.Concludes() && !Stage2Failed(x.FinalRun()) && !Stage1FailedPerf(x.FinalRun())
  {
    if x.Accepted() {
      GatesInTheirPlace(x);
      InConcat(x.GateEvents(), x.BuildEvents(), x.EndEvents(), Attempted(WriteCompleted));
      OnlyConclusionCompletes(x, x.ConclusionEvents());
      ConclusionHolds(x, WriteCompleted);
    }
  }

  /** Completed: the run came to its end, Stage 3 and both verdicts included. */
  lemma {:induction false} CompletedFromTheAnswers(x: Scenario)
    ensures Attempted(WriteCompleted) in x.Trace() <==>
              && ComesToItsEnd(x) && ReasoningIsSafe(x) && LastStage2(x).status !in {S2Failed, S2Error}
              && (Deploys(x) ==> x.o.stage1.status != S1Failed)
  {
    CompletedIff(x);
    GuardsFromTheAnswers(x);
    if !x.Accepted() {
      assert !ComesToItsEnd(x);
    }
  }

  lemma {:induction false} StagesRunIff(x: Scenario)
    ensures forall status :: Stage1Ran(status) in x.Trace() <==> DeployAnswers(x) && status == x.o.stage1.status
    ensures Stage3Ran in x.Trace() <==>
              && ComesToItsEnd(x) && x.s.stage3Worker && !x.q.skipReasoning && !x.throws(RunStage3)
              && LastStage2(x).status != S2Error && (LastStage2(x).status == S2Failed ==> LastStage2(x).anyPass)
  {
    GuardsFromTheAnswers(x);
    if x.Accepted() {
      EventsInTheirPlace(x);
      forall status
        ensures Stage1Ran(status) in x.Trace() <==> DeployAnswers(x) && status == x.o.stage1.status
      {
        InConcat(x.GateEvents(), x.BuildEvents(), x.EndEvents(), Stage1Ran(status));
        Stage1InTheGates(x, status);
      }
      InConcat(x.GateEvents(), x.BuildEvents(), x.EndEvents(), Stage3Ran);
      Stage3InTheEnd(x, x.ConclusionEvents());
    }
  }

  lemma {:induction false} Stage1InTheGates(x: Scenario, status: Stage1Status)
    ensures Stage1Ran(status) in x.GateEvents() <==> x.Stage1Answers() && status == x.o.stage1.status
  {
    InConcat(When(x.Stage1Answers(), Stage1Ran(x.o.stage1.status)),
             When(x.LocalAnswers(), LocalStage2(x.o.local.status)),
             When(x.SmokeAnswers(), SmokeTest(x.o.smokePassed)), Stage1Ran(status));
  }

  lemma {:induction false} Stage3InTheEnd(x: Scenario, conclusion: seq<Event>)
    requires conclusion == x.ConclusionEvents()
    ensures Stage3Ran in x.EndEvents() <==> x.ReachesEnd() && x.WantsStage3(x.FinalRun()) && !x.throws(RunStage3)
  {
    assert Stage3Ran in x.EndEvents() <==> Stage3Ran in conclusion;
  }

  /**
   * Nothing failed: a deployment that was made succeeded, or it was skipped as
   * eligible for a local Stage 2; the local run did not fail; nor did the smoke
   * test and the builds where builds are due.
   */
  predicate NothingFailed(x: Scenario) {
    && (Deploys(x) ==>
          || x.o.stage1.status == S1Success
          || (x.o.stage1.status == S1Skipped && x.o.stage1.stage2Eligible == Some(true) && x.s.stage2Worker))
    && (x.s.stage2Worker ==> x.o.local.status != S2Failed && x.o.local.status != S2Error)
    && (BuildsAreDue(x) ==>
          x.o.smokePassed && x.o.publicUrl && x.o.matrix.status != S2Failed && x.o.matrix.status != S2Error)
  }

  /** When no call throws, an accepted entry is written completed exactly when nothing failed, and failed otherwise. */
  lemma {:induction false} WithoutExceptionsTheVerdictIsRight(x: Scenario)
    requires x.q.formatOk && !x.q.onCooldown && forall call :: !x.throws(call)
    ensures Attempted(WriteCompleted) in x.Trace() <==> NothingFailed(x)
    ensures Attempted(WriteFailed) in x.Trace() <==>
              !NothingFailed(x) || (BuildsAreSent(x) && x.s.detachPoll && x.o.takenOver)
  {
    CompletedFromTheAnswers(x);
    FailedIff(x);
    CompletedIff(x);
    GuardsFromTheAnswers(x);
  }

  /** What is written failed at the end: a verdict, a rejection, a takeover, or an exception handled. */
  lemma {:induction false} EndFails(x: Scenario, conclusion: seq<Event>)
    requires conclusion == x.ConclusionEvents()
    ensures Attempted(WriteFailed) in x.EndEvents() <==>
              || Attempted(WriteFailed) in conclusion
              || (x.Detaches() && (x.o.takenOver || (x.TailFails() && !x.o.transient)))
              || (!x.Detaches() && (x.Rejects() || x.Throws()))
  {
  }

  /** Written failed, exactly, on a rejection, a failed verdict, a takeover during the tail, or an exception handled. */
  lemma {:induction false} FailedIff(x: Scenario)
    requires x.Accepted()
    ensures Attempted(WriteFailed) in x.Trace() <==>
              || (x.Concludes() && Verdict(x.FinalRun()) == WriteFailed)
              || (x.Detaches() && (x.o.takenOver || (x.TailFails() && !x.o.transient)))
              || (!x.Detaches() && (x.Rejects() || x.Throws()))
  {
    GatesInTheirPlace(x);
    InConcat(x.GateEvents(), x.BuildEvents(), x.EndEvents(), Attempted(WriteFailed));
    EndFails(x, x.ConclusionEvents());
    ConclusionHolds(x, WriteFailed);
  }

  lemma {:induction false} FailedUnlessCompleted(x: Scenario)
    ensures x.Ending() == Closed ==>
              (Attempted(WriteFailed) in x.Trace() <==>
                 Attempted(WriteCompleted) !in x.Trace() || x.throws(WriteTerminal) || x.throws(OnCompleted))
    ensures x.Ending().Detached? && !x.o.transient ==>
              (Attempted(WriteFailed) in x.Trace() <==>
                 || x.o.takenOver || Attempted(WriteCompleted) !in x.Trace()
                 || x.throws(WriteTerminal) || x.throws(OnCompleted))
    ensures x.Ending() == TurnedAway <==> !x.q.formatOk || x.q.onCooldown
    ensures x.Ending().Detached? <==> BuildsAreSent(x) && x.s.detachPoll
  {
    GuardsFromTheAnswers(x);
    if x.Accepted() {
      CompletedIff(x);
      FailedIff(x);
    }
  }

  lemma {:induction false} LastAfter(before: seq<Event>, end: seq<Event>)
    requires Released !in before && ReleasedLast(end)
    ensures ReleasedLast(before + end)
  {
    var all, front := before + end, end[..|end| - 1];
    assert all[..|all| - 1] == before + front;
  }

  lemma {:induction false} ReleasedOnceAtTheEnd(x: Scenario)
    ensures x.Accepted() && !(x.Detaches() && x.HandlerThrows()) ==> ReleasedLast(x.Trace())
    ensures x.Accepted() && x.Detaches() && x.HandlerThrows() ==> Released !in x.Trace()
  {
    if x.Accepted() {
      EventsInTheirPlace(x);
      EndReleasesLast(x);
      var before := x.GateEvents() + x.BuildEvents();
      assert Released !in before;
      if !(x.Detaches() && x.HandlerThrows()) {
        LastAfter(before, x.EndEvents());
      }
    }
  }

  lemma {:induction false} EndReleasesLast(x: Scenario)
    ensures if x.Detaches() && x.HandlerThrows() then Released !in x.EndEvents() else ReleasedLast(x.EndEvents())
  {
    ConclusionInItsPlace(x, x.FinalRun());
    var conclusion := x.ConclusionEvents();
    if x.Detaches() {
      ClosesWith(conclusion, When(x.o.takenOver, Attempted(WriteFailed)),
                 When(x.TailFails() && !x.o.transient, Attempted(WriteFailed)), !x.HandlerThrows());
    } else {
      ClosesWith(conclusion, When(x.Rejects(), Attempted(WriteFailed)), When(x.Throws(), Attempted(WriteFailed)), true);
    }
  }

  lemma {:induction false} ClosesWith(a: seq<Event>, b: seq<Event>, c: seq<Event>, released: bool)
    requires Released !in a && Released !in b && Released !in c
    ensures if released then ReleasedLast(a + b + c + [Released]) else Released !in a + b + c + When(false, Released)
  {
    var front := a + b + c;
    assert Released !in front;
    assert (front + [Released])[..|front|] == front;
  }

  lemma {:induction false} VerdictIsAttempted(x: Scenario)
    ensures x.Accepted() && (x.Detaches() ==> !(x.TailFails() && x.o.transient)) ==> SomeWrite(x.Trace())
  {
    CompletedIff(x);
    if x.Accepted() {
      FailedIff(x);
    }
  }

  /** A transient error of the detached poll leaves no verdict of the run's own - and releases all the same. */
  lemma {:induction false} TransientErrorReleasesWithoutVerdict(x: Scenario)
    requires BuildsAreSent(x) && x.s.detachPoll && x.o.transient && !x.o.takenOver
    requires x.throws(Poll) || (x.s.resultsStore && x.throws(SaveMatrix))
    ensures !SomeWrite(x.Trace()) && ReleasedLast(x.Trace())
  {
    GuardsFromTheAnswers(x);
    CompletedIff(x);
    FailedIff(x);
    ReleasedOnceAtTheEnd(x);
  }
}
