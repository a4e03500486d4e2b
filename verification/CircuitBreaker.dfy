// The per-model circuit breaker (src/services/circuit-breaker.ts).
//
// What decides whether a model may run - state, counters, clock readings - is the
// `Core` of its record; every operation acts on cores by a pure function. The
// class holds the two debugging lists by reference, because a snapshot copies
// records but shares their lists. Messages and listing order are left out.
module CircuitBreaker {
  import opened Prelude

  datatype CircuitState = Closed | Open | HalfOpen

  datatype Options = Options(failureThreshold: int, resetTimeoutMs: int, successThreshold: int, failureWindowMs: int)

  datatype Core = Core(failureCount: int, lastFailureAt: int, firstFailureAt: int, state: CircuitState,
                       openedAt: Option<int>, halfOpenSuccesses: int)

  /** The answer to `canAttempt`; `retryAfterMs` is None when allowed. */
  datatype Verdict = Verdict(allowed: bool, state: CircuitState, retryAfterMs: Option<int>)

  const MAX_FAILURE_REASONS := 5

  // ---------------------------------------------------------------------
  // The operations on one core
  // ---------------------------------------------------------------------

  function NewCore(now: int): Core {
    Core(0, now, now, Closed, None, 0)
  }

  predicate WindowExpired(o: Options, core: Core, now: int) {
    core.state == Closed && now - core.lastFailureAt > o.failureWindowMs
  }

  function SinceOpened(core: Core, now: int): int {
    now - core.openedAt.GetOr(now)
  }

  predicate Blocks(o: Options, core: Core, now: int) {
    core.state == Open && SinceOpened(core, now) < o.resetTimeoutMs
  }

  function Attempt(o: Options, core: Core, now: int): (Core, Verdict) {
    match core.state
    case Closed =>
      (if WindowExpired(o, core, now) then core.(failureCount := 0, firstFailureAt := now) else core,
       Verdict(true, Closed, None))
    case HalfOpen => (core, Verdict(true, HalfOpen, None))
    case Open =>
      if SinceOpened(core, now) >= o.resetTimeoutMs
      then (core.(state := HalfOpen, halfOpenSuccesses := 0), Verdict(true, HalfOpen, None))
      else (core, Verdict(false, Open, Some(o.resetTimeoutMs - SinceOpened(core, now))))
  }

  function Fail(o: Options, core: Core, now: int): Core {
    var counted := core.(failureCount := core.failureCount + 1, lastFailureAt := now);
    if core.state == HalfOpen then counted.(state := Open, openedAt := Some(now), halfOpenSuccesses := 0)
    else if core.state == Closed && counted.failureCount >= o.failureThreshold
    then counted.(state := Open, openedAt := Some(now))
    else counted
  }

  function Succeed(o: Options, core: Core): Core {
    match core.state
    case HalfOpen =>
      if core.halfOpenSuccesses + 1 >= o.successThreshold
      then core.(state := Closed, failureCount := 0, openedAt := None, halfOpenSuccesses := 0)
      else core.(halfOpenSuccesses := core.halfOpenSuccesses + 1)
    case Closed => core.(failureCount := 0)
    case Open => core
  }

  // ---------------------------------------------------------------------
  // Runs: any operations on any models, each at its own clock reading
  // ---------------------------------------------------------------------

  type Cores = map<string, Core>

  datatype Op = CanAttempt(model: string) | RecordFailure(model: string) | RecordSuccess(model: string)

  datatype Timed = Timed(op: Op, at: int)

  function Apply(o: Options, cores: Cores, op: Op, now: int): Cores {
    var m := op.model;
    match op
    case CanAttempt(_) => if m in cores then cores[m := Attempt(o, cores[m], now).0] else cores
    case RecordFailure(_) => cores[m := Fail(o, if m in cores then cores[m] else NewCore(now), now)]
    case RecordSuccess(_) => if m in cores then cores[m := Succeed(o, cores[m])] else cores
  }

  function Ask(o: Options, cores: Cores, model: string, now: int): Verdict {
    if model in cores then Attempt(o, cores[model], now).1 else Verdict(true, Closed, None)
  }

  function Run(o: Options, cores: Cores, ops: seq<Timed>): Cores
    decreases |ops|
  {
    if ops == [] then cores
    else Apply(o, Run(o, cores, ops[..|ops| - 1]), ops[|ops| - 1].op, ops[|ops| - 1].at)
  }

  // ----- reachable states ------------------------------------------------

  /** The two facts a reader may rely on: the opening time is set, and the threshold reached, exactly off CLOSED. */
  predicate Coherent(o: Options, core: Core) {
    && (core.openedAt.None? <==> core.state == Closed)
    && (core.failureCount < o.failureThreshold <==> core.state == Closed)
  }

  ghost predicate AllCoherent(o: Options, cores: Cores) {
    forall m :: m in cores ==> Coherent(o, cores[m])
  }

  /** In every state reached by any operations, at any clock readings, every record is coherent. */
  lemma {:induction false} ReachableCoherent(o: Options, ops: seq<Timed>)
    requires o.failureThreshold >= 1
    ensures AllCoherent(o, Run(o, map[], ops))
    decreases |ops|
  {
    if ops != [] {
      ReachableCoherent(o, ops[..|ops| - 1]);
    }
  }

  lemma {:induction false} RunNext(o: Options, cores: Cores, ops: seq<Timed>, next: Timed)
    ensures Run(o, cores, ops + [next]) == Apply(o, Run(o, cores, ops), next.op, next.at)
  {
    assert (ops + [next])[..|ops|] == ops;
  }

  /** A failure, a question once the timeout has passed, and so many successes. */
  function FailAndRecover(o: Options, model: string, successes: nat): seq<Timed> {
    [Timed(RecordFailure(model), 0), Timed(CanAttempt(model), o.resetTimeoutMs)] +
    seq(successes, _ => Timed(RecordSuccess(model), o.resetTimeoutMs))
  }

  lemma {:induction false} Recovering(o: Options, model: string, n: nat)
    requires o.failureThreshold < 1 && (n == 0 || n < o.successThreshold)
    ensures var cores := Run(o, map[], FailAndRecover(o, model, n));
            model in cores && cores[model].state == HalfOpen && cores[model].halfOpenSuccesses == n
  {
    var ops := FailAndRecover(o, model, n);
    if n == 0 {
      var one := [ops[0]];
      RunNext(o, map[], [], ops[0]);
      assert [] + [ops[0]] == one;
      assert model in Run(o, map[], one) && Run(o, map[], one)[model].state == Open;
      RunNext(o, map[], one, ops[1]);
      assert one + [ops[1]] == ops;
    } else {
      Recovering(o, model, n - 1);
      assert ops[..|ops| - 1] == FailAndRecover(o, model, n - 1);
    }
  }

  /**
   * Any threshold below one breaks it: after one failure and as many successes as
   * it takes, the circuit is closed at the threshold.
   */
  lemma {:induction false} ThresholdMustBePositive(o: Options, model: string) returns (ops: seq<Timed>)
    requires o.failureThreshold < 1
    ensures var cores := Run(o, map[], ops);
            model in cores && cores[model].state == Closed && !Coherent(o, cores[model])
  {
    var n: nat := if o.successThreshold < 1 then 1 else o.successThreshold;
    ops := FailAndRecover(o, model, n);
    Recovering(o, model, n - 1);
    assert ops[..|ops| - 1] == FailAndRecover(o, model, n - 1);
  }

  // ----- an opened circuit -------------------------------------------------

  /** No operation asks about the model at or after the deadline. */
  predicate NoAskFrom(ops: seq<Timed>, model: string, deadline: int) {
    forall k :: 0 <= k < |ops| && ops[k].op == CanAttempt(model) ==> ops[k].at < deadline
  }

  lemma {:induction false} StaysOpen(o: Options, cores: Cores, model: string, openedAt: int, ops: seq<Timed>)
    requires model in cores && cores[model].state == Open && cores[model].openedAt == Some(openedAt)
    requires NoAskFrom(ops, model, openedAt + o.resetTimeoutMs)
    ensures var after := Run(o, cores, ops);
            model in after && after[model].state == Open && after[model].openedAt == Some(openedAt)
    decreases |ops|
  {
    if ops != [] {
      StaysOpen(o, cores, model, openedAt, ops[..|ops| - 1]);
    }
  }

  /**
   * A failure that opens the circuit at `openedAt` shuts the model out for exactly
   * the reset timeout. Whatever happens meanwhile - failures and successes of runs
   * still in flight, other models, questions asked too early - each question about
   * the model is refused before the deadline, with the exact time left, and the
   * first one at or after it is allowed and half-opens the circuit.
   */
  lemma {:induction false} ShutForExactlyTheTimeout(o: Options, cores: Cores, model: string, openedAt: int,
                                                    ops: seq<Timed>, now: int)
    requires model in cores ==> cores[model].state != Open
    requires Apply(o, cores, RecordFailure(model), openedAt)[model].state == Open
    requires NoAskFrom(ops, model, openedAt + o.resetTimeoutMs)
    ensures var cores' := Run(o, Apply(o, cores, RecordFailure(model), openedAt), ops);
            && (now < openedAt + o.resetTimeoutMs ==>
                  Ask(o, cores', model, now) == Verdict(false, Open, Some(openedAt + o.resetTimeoutMs - now)))
            && (now >= openedAt + o.resetTimeoutMs ==>
                  && Ask(o, cores', model, now) == Verdict(true, HalfOpen, None)
                  && Apply(o, cores', CanAttempt(model), now)[model].state == HalfOpen)
  {
    StaysOpen(o, Apply(o, cores, RecordFailure(model), openedAt), model, openedAt, ops);
  }

  /** A model is refused only for a reason: its circuit is open, and was opened less than the timeout ago. */
  lemma {:induction false} RefusedOnlyWhenOpen(o: Options, ops: seq<Timed>, model: string, now: int)
    requires o.failureThreshold >= 1 && !Ask(o, Run(o, map[], ops), model, now).allowed
    ensures var core := Run(o, map[], ops)[model];
            && core.failureCount >= o.failureThreshold
            && core.openedAt.Some? && now < core.openedAt.value + o.resetTimeoutMs
  {
    ReachableCoherent(o, ops);
  }

  /** HALF_OPEN lets every question through, not a single test attempt: only an outcome moves it. */
  lemma {:induction false} HalfOpenAdmitsEveryone(o: Options, cores: Cores, model: string, ops: seq<Timed>, now: int)
    requires model in cores && cores[model].state == HalfOpen
    requires forall k :: 0 <= k < |ops| ==> ops[k].op.CanAttempt? || ops[k].op.model != model
    ensures Ask(o, Run(o, cores, ops), model, now) == Verdict(true, HalfOpen, None)
    ensures model in Run(o, cores, ops) && Run(o, cores, ops)[model] == cores[model]
    decreases |ops|
  {
    if ops != [] {
      HalfOpenAdmitsEveryone(o, cores, model, ops[..|ops| - 1], now);
    }
  }

  /** How often the model succeeded. */
  function Successes(ops: seq<Timed>, model: string): nat {
    if ops == [] then 0
    else Successes(ops[..|ops| - 1], model) + if ops[|ops| - 1].op == RecordSuccess(model) then 1 else 0
  }

  /**
   * From half-open, and without a failure: the circuit closes with the success
   * that makes the threshold full - the first one at the least - and not before;
   * until then a single failure opens it again, for a whole timeout from then on.
   */
  lemma {:induction false} RecoversAfterSuccesses(o: Options, cores: Cores, model: string, ops: seq<Timed>, now: int)
    requires model in cores && cores[model].state == HalfOpen && cores[model].halfOpenSuccesses == 0
    requires forall k :: 0 <= k < |ops| ==> ops[k].op != RecordFailure(model)
    ensures var n, after := Successes(ops, model), Run(o, cores, ops);
            && model in after
            && if n > 0 && n >= o.successThreshold
               then after[model].state == Closed && after[model].failureCount == 0 && after[model].openedAt == None
               else after[model].state == HalfOpen && after[model].halfOpenSuccesses == n
    ensures Run(o, cores, ops)[model].state == HalfOpen ==>
              Ask(o, Apply(o, Run(o, cores, ops), RecordFailure(model), now), model, now) ==
                if o.resetTimeoutMs <= 0 then Verdict(true, HalfOpen, None)
                else Verdict(false, Open, Some(o.resetTimeoutMs))
    decreases |ops|
  {
    if ops != [] {
      RecoversAfterSuccesses(o, cores, model, ops[..|ops| - 1], now);
    }
  }

  // ----- what the failure window forgets ------------------------------------

  /** When the model last failed. */
  function LatestFailure(ops: seq<Timed>, model: string): Option<int>
    decreases |ops|
  {
    if ops == [] then None
    else
      var last := ops[|ops| - 1];
      if last.op == RecordFailure(model) then Some(last.at) else LatestFailure(ops[..|ops| - 1], model)
  }

  /** A question about the model that comes more than the failure window after its latest failure. */
  predicate AskedLate(o: Options, front: seq<Timed>, last: Timed, model: string) {
    && last.op == CanAttempt(model)
    && LatestFailure(front, model).Some?
    && last.at - LatestFailure(front, model).value > o.failureWindowMs
  }

  /** The model's failures since its last success and since the last late question. */
  function Since(o: Options, ops: seq<Timed>, model: string): nat
    decreases |ops|
  {
    if ops == [] then 0
    else
      var front, last := ops[..|ops| - 1], ops[|ops| - 1];
      if last.op == RecordFailure(model) then Since(o, front, model) + 1
      else if last.op == RecordSuccess(model) || AskedLate(o, front, last, model) then 0
      else Since(o, front, model)
  }

  /** A record exists iff the model ever failed, knows when it last did, and while CLOSED counts as specified. */
  ghost predicate Counts(o: Options, ops: seq<Timed>, model: string) {
    var cores, latest := Run(o, map[], ops), LatestFailure(ops, model);
    && (model in cores <==> latest.Some?)
    && (model !in cores ==> Since(o, ops, model) == 0)
    && (model in cores ==> Some(cores[model].lastFailureAt) == latest)
    && (model in cores && cores[model].state == Closed ==> cores[model].failureCount == Since(o, ops, model))
  }

  /**
   * In every run the count of a CLOSED circuit is the number of failures since the
   * last success and the last question that came more than the failure window
   * after the latest failure before it. A gap between failures forgets nothing by
   * itself.
   */
  lemma {:induction false} CountsSinceAskedLate(o: Options, ops: seq<Timed>, model: string)
    ensures Counts(o, ops, model)
    decreases |ops|
  {
    if ops != [] {
      var front, last := ops[..|ops| - 1], ops[|ops| - 1];
      CountsSinceAskedLate(o, front, model);
      CountStep(o, Run(o, map[], front), last, model);
    }
  }

  /** What one operation does to the model's record, by what the count goes by. */
  lemma {:induction false} CountStep(o: Options, cores: Cores, last: Timed, model: string)
    ensures var cores' := Apply(o, cores, last.op, last.at);
            && (last.op.model != model ==>
                  && (model in cores' <==> model in cores)
                  && (model in cores ==> cores'[model] == cores[model]))
            && (last.op == RecordFailure(model) ==> model in cores' && cores'[model].lastFailureAt == last.at)
            && (model in cores && last.op != RecordFailure(model) ==>
                  model in cores' && cores'[model].lastFailureAt == cores[model].lastFailureAt)
            && (model !in cores && last.op != RecordFailure(model) ==> model !in cores')
  {
  }

  /** A failure opens a circuit that is CLOSED, or not there yet, iff it makes that count reach the threshold. */
  lemma {:induction false} FailureOpensIffCountReaches(o: Options, ops: seq<Timed>, model: string, now: int)
    requires model in Run(o, map[], ops) ==> Run(o, map[], ops)[model].state == Closed
    ensures Apply(o, Run(o, map[], ops), RecordFailure(model), now)[model].state == Open
            <==> Since(o, ops, model) + 1 >= o.failureThreshold
  {
    CountsSinceAskedLate(o, ops, model);
  }

  predicate NoOutcome(ops: seq<Timed>, model: string) {
    forall k :: 0 <= k < |ops| ==> ops[k].op != RecordFailure(model) && ops[k].op != RecordSuccess(model)
  }

  /** Somebody asked about the model after this time. */
  predicate AskedAfter(ops: seq<Timed>, model: string, time: int) {
    exists k :: 0 <= k < |ops| && ops[k].op == CanAttempt(model) && ops[k].at > time
  }

  lemma {:induction false} BetweenOutcomes(o: Options, ops: seq<Timed>, between: seq<Timed>, model: string)
    requires NoOutcome(between, model)
    ensures LatestFailure(ops + between, model) == LatestFailure(ops, model)
    ensures var latest := LatestFailure(ops, model);
            Since(o, ops + between, model) ==
              if latest.Some? && AskedAfter(between, model, latest.value + o.failureWindowMs)
              then 0 else Since(o, ops, model)
    decreases |between|
  {
    if between == [] {
      assert ops + between == ops;
    } else {
      var front, last := between[..|between| - 1], between[|between| - 1];
      BetweenOutcomes(o, ops, front, model);
      var all := ops + between;
      assert all[..|all| - 1] == ops + front && all[|all| - 1] == last;
      assert between == front + [last];
      AskedAfterNext(front, last, model);
    }
  }

  lemma {:induction false} AskedAfterNext(front: seq<Timed>, last: Timed, model: string)
    ensures forall time :: AskedAfter(front + [last], model, time) <==>
              AskedAfter(front, model, time) || (last.op == CanAttempt(model) && last.at > time)
  {
    var all := front + [last];
    forall time
      ensures AskedAfter(all, model, time) <==>
                AskedAfter(front, model, time) || (last.op == CanAttempt(model) && last.at > time)
    {
      if AskedAfter(front, model, time) {
        var k :| 0 <= k < |front| && front[k].op == CanAttempt(model) && front[k].at > time;
        assert all[k] == front[k];
      }
      assert all[|front|] == last;
    }
  }

  /**
   * Two failures of a model with only questions in between, however far apart, the
   * circuit CLOSED throughout: everything up to the first is forgotten iff somebody
   * asked about the model more than the failure window after it.
   */
  lemma {:induction false} GapForgetsIffAsked(o: Options, ops: seq<Timed>, between: seq<Timed>, model: string,
                                              last: int, next: int)
    requires NoOutcome(between, model)
    requires var before := Run(o, map[], ops + [Timed(RecordFailure(model), last)] + between);
             model in before && before[model].state == Closed
    ensures var all := ops + [Timed(RecordFailure(model), last)] + between + [Timed(RecordFailure(model), next)];
            && model in Run(o, map[], all)
            && Run(o, map[], all)[model].failureCount ==
               if AskedAfter(between, model, last + o.failureWindowMs) then 1 else Since(o, ops, model) + 2
  {
    var first := ops + [Timed(RecordFailure(model), last)];
    assert first[..|ops|] == ops && first[|ops|] == Timed(RecordFailure(model), last);
    assert LatestFailure(first, model) == Some(last) && Since(o, first, model) == Since(o, ops, model) + 1;
    BetweenOutcomes(o, first, between, model);
    CountsSinceAskedLate(o, first + between, model);
    RunNext(o, map[], first + between, Timed(RecordFailure(model), next));
  }

  /**
   * The failure window is enforced only when somebody asks. Failures recorded
   * without a question in between add up however far apart they are: the
   * circuit opens at the threshold.
   */
  lemma {:induction false} UnaskedFailuresAddUp(o: Options, model: string, times: seq<int>)
    requires 1 <= |times| <= o.failureThreshold
    ensures var cores := Run(o, map[], Failures(model, times));
            && model in cores && cores[model].failureCount == |times|
            && (cores[model].state == if |times| == o.failureThreshold then Open else Closed)
    decreases |times|
  {
    var ops := Failures(model, times);
    var front := times[..|times| - 1];
    assert ops[..|ops| - 1] == Failures(model, front);
    if |times| > 1 {
      UnaskedFailuresAddUp(o, model, front);
    }
  }

  function Failures(model: string, times: seq<int>): seq<Timed> {
    seq(|times|, i requires 0 <= i < |times| => Timed(RecordFailure(model), times[i]))
  }

  // ---------------------------------------------------------------------
  // The class
  // ---------------------------------------------------------------------

  /** A JavaScript array held by reference. */
  class ReasonList {
    var items: seq<string>

    constructor ()
      ensures items == []
    {
      items := [];
    }
  }

  class CategoryList {
    var items: seq<string>

    constructor ()
      ensures items == []
    {
      items := [];
    }
  }

  datatype Record = Record(modelId: string, core: Core, reasons: ReasonList, categories: CategoryList)

  ghost predicate HasNoLists(record: Record)
    reads record.reasons, record.categories
  {
    record.reasons.items == [] && record.categories.items == []
  }

  /** The same list objects. */
  predicate SameLists(record: Record, other: Record) {
    record.reasons == other.reasons && record.categories == other.categories
  }

  /** Push at the end, shift at the front beyond five. */
  function PushReason(reasons: seq<string>, reason: string): seq<string> {
    var pushed := reasons + [reason];
    if |pushed| > MAX_FAILURE_REASONS then pushed[1..] else pushed
  }

  function AddCategory(categories: seq<string>, category: string): seq<string> {
    if category in categories then categories else categories + [category]
  }

  function CoresOf(records: map<string, Record>): Cores {
    map m | m in records :: records[m].core
  }

  /** `restore` sets records one by one: a later one replaces an earlier one of the same model. */
  function FromSnapshot(snapshot: seq<Record>): map<string, Record>
    decreases |snapshot|
  {
    if snapshot == [] then map[]
    else FromSnapshot(snapshot[..|snapshot| - 1])[snapshot[|snapshot| - 1].modelId := snapshot[|snapshot| - 1]]
  }

  lemma {:induction false} CoresOfUpdate(records: map<string, Record>, record: Record)
    ensures CoresOf(records[record.modelId := record]) == CoresOf(records)[record.modelId := record.core]
  {
  }

  lemma {:induction false} SameCore(records: map<string, Record>, model: string)
    requires model in records
    ensures CoresOf(records)[model := records[model].core] == CoresOf(records)
  {
  }

  class CircuitBreaker {
    const options: Options
    var records: map<string, Record>

    constructor (options: Options)
      ensures this.options == options && Valid() && Cores() == map[]
    {
      this.options := options;
      records := map[];
    }

    ghost predicate Valid()
      reads this
    {
      forall m :: m in records ==> records[m].modelId == m
    }

    ghost function Cores(): Cores
      reads this
    {
      CoresOf(records)
    }

    /** The records of the other models are what they were. */
    ghost predicate OthersKept(before: map<string, Record>, model: string)
      reads this
    {
      forall m :: m != model ==> (m in records <==> m in before) && (m in before ==> records[m] == before[m])
    }

    method CanAttempt(model: string, now: int) returns (verdict: Verdict)
      requires Valid()
      modifies this
      ensures Valid()
      ensures verdict == Ask(options, old(Cores()), model, now)
      ensures Cores() == Apply(options, old(Cores()), Op.CanAttempt(model), now)
      ensures OthersKept(old(records), model)
      // An expired window puts new, empty lists in place of the old ones; nothing else touches them.
      ensures model in old(records) ==>
                && model in records
                && if WindowExpired(options, old(records)[model].core, now)
                   then fresh(records[model].reasons) && fresh(records[model].categories) && HasNoLists(records[model])
                   else SameLists(records[model], old(records)[model])
    {
      if model !in records {
        return Verdict(true, Closed, None);
      }
      SameCore(records, model);
      var record := records[model];
      if WindowExpired(options, record.core, now) {
        record := CleanExpiredFailures(record, now);
        CoresOfUpdate(records, record);
        records := records[model := record];
      }
      match record.core.state {
        case Closed => return Verdict(true, Closed, None);
        case HalfOpen => return Verdict(true, HalfOpen, None);
        case Open =>
          var elapsed := SinceOpened(record.core, now);
          if elapsed < options.resetTimeoutMs {
            return Verdict(false, Open, Some(options.resetTimeoutMs - elapsed));
          }
          record := record.(core := record.core.(state := HalfOpen, halfOpenSuccesses := 0));
          CoresOfUpdate(records, record);
          records := records[model := record];
          return Verdict(true, HalfOpen, None);
      }
    }

    /** The counters and lists start afresh; the lists are new ones, so earlier snapshots keep theirs. */
    method CleanExpiredFailures(record: Record, now: int) returns (clean: Record)
      ensures clean.modelId == record.modelId && clean.core == record.core.(failureCount := 0, firstFailureAt := now)
      ensures fresh(clean.reasons) && fresh(clean.categories)
      ensures clean.reasons.items == [] && clean.categories.items == []
    {
      var reasons := new ReasonList();
      var categories := new CategoryList();
      clean := Record(record.modelId, record.core.(failureCount := 0, firstFailureAt := now), reasons, categories);
    }

    /** The lists of an existing record grow in place: whoever shares them, a snapshot included, sees it. */
    method RecordFailure(model: string, reason: string, category: string, now: int)
      requires Valid()
      modifies this
      modifies if model in records then {records[model].reasons as object, records[model].categories as object} else {}
      ensures Valid()
      ensures Cores() == Apply(options, old(Cores()), Op.RecordFailure(model), now)
      ensures OthersKept(old(records), model)
      ensures model !in old(records) ==>
                && model in records
                && fresh(records[model].reasons) && records[model].reasons.items == [reason]
                && fresh(records[model].categories) && records[model].categories.items == [category]
      ensures model in old(records) ==>
                && model in records
                && records[model].reasons == old(records[model].reasons)
                && records[model].categories == old(records[model].categories)
                && records[model].reasons.items == PushReason(old(records[model].reasons.items), reason)
                && records[model].categories.items == AddCategory(old(records[model].categories.items), category)
      // Of the reasons the last five are kept; a category is listed once.
      ensures model in old(records) && |old(records[model].reasons.items)| <= 5 ==>
                var all := old(records[model].reasons.items) + [reason];
                records[model].reasons.items == if |all| <= 5 then all else all[|all| - 5..]
      ensures category in records[model].categories.items
      ensures model in old(records) && category in old(records[model].categories.items) ==>
                records[model].categories.items == old(records[model].categories.items)
    {
      var record: Record;
      if model in records {
        record := records[model];
      } else {
        var reasons := new ReasonList();
        var categories := new CategoryList();
        record := Record(model, NewCore(now), reasons, categories);
      }
      var core := record.core.(failureCount := record.core.failureCount + 1, lastFailureAt := now);
      Remember(record, reason, category);
      if core.state == HalfOpen {
        core := core.(state := Open, openedAt := Some(now), halfOpenSuccesses := 0);
      } else if core.state == Closed && core.failureCount >= options.failureThreshold {
        core := core.(state := Open, openedAt := Some(now));
      }
      record := record.(core := core);
      CoresOfUpdate(records, record);
      records := records[model := record];
    }

    method Remember(record: Record, reason: string, category: string)
      modifies record.reasons, record.categories
      ensures record.reasons.items == PushReason(old(record.reasons.items), reason)
      ensures record.categories.items == AddCategory(old(record.categories.items), category)
    {
      record.reasons.items := record.reasons.items + [reason];
      if |record.reasons.items| > MAX_FAILURE_REASONS {
        record.reasons.items := record.reasons.items[1..];
      }
      if category !in record.categories.items {
        record.categories.items := record.categories.items + [category];
      }
    }

    method RecordSuccess(model: string)
      requires Valid()
      modifies this
      ensures Valid()
      ensures Cores() == Apply(options, old(Cores()), Op.RecordSuccess(model), 0)
      ensures OthersKept(old(records), model)
      // A success that leaves the circuit closed puts new, empty lists in place of the old ones.
      ensures model in old(records) ==>
                && model in records
                && if records[model].core.state == Closed
                   then fresh(records[model].reasons) && fresh(records[model].categories) && HasNoLists(records[model])
                   else SameLists(records[model], old(records)[model])
    {
      if model !in records {
        return;
      }
      SameCore(records, model);
      var record := records[model];
      if record.core.state == HalfOpen {
        record := record.(core := record.core.(halfOpenSuccesses := record.core.halfOpenSuccesses + 1));
        if record.core.halfOpenSuccesses >= options.successThreshold {
          var reasons := new ReasonList();
          var categories := new CategoryList();
          record := Record(model,
                           record.core.(state := Closed, failureCount := 0, openedAt := None, halfOpenSuccesses := 0),
                           reasons, categories);
        }
      } else if record.core.state == Closed {
        var reasons := new ReasonList();
        var categories := new CategoryList();
        record := Record(model, record.core.(failureCount := 0), reasons, categories);
      }
      CoresOfUpdate(records, record);
      records := records[model := record];
    }

    /** Exactly the models that `canAttempt` would refuse at this moment. */
    method GetBlockedModels(now: int) returns (blocked: set<string>)
      ensures forall m :: m in blocked <==> !Ask(options, Cores(), m, now).allowed
    {
      blocked := {};
      var todo := records.Keys;
      while todo != {}
        invariant todo <= records.Keys
        invariant forall m :: m in blocked <==> m in records.Keys - todo && Blocks(options, records[m].core, now)
        decreases todo
      {
        var m :| m in todo;
        if Blocks(options, records[m].core, now) {
          blocked := blocked + {m};
        }
        todo := todo - {m};
      }
    }

    method Reset(model: string)
      requires Valid()
      modifies this
      ensures Valid() && Cores() == old(Cores()) - {model}
    {
      records := records - {model};
    }

    method ResetAll()
      modifies this
      ensures Valid() && Cores() == map[]
    {
      records := map[];
    }

    /** The records are copied, their lists are not; restoring the copy gives every record back. */
    method Snapshot() returns (snapshot: seq<Record>)
      requires Valid()
      ensures FromSnapshot(snapshot) == records
      ensures |snapshot| == |records|
    {
      snapshot := [];
      var todo := records.Keys;
      assert records - todo == map[];
      while todo != {}
        invariant todo <= records.Keys
        invariant FromSnapshot(snapshot) == records - todo
        invariant |snapshot| + |todo| == |records|
        decreases todo
      {
        var m :| m in todo;
        assert (snapshot + [records[m]])[..|snapshot|] == snapshot;
        assert (records - todo)[m := records[m]] == records - (todo - {m});
        snapshot := snapshot + [records[m]];
        todo := todo - {m};
      }
      assert records - {} == records;
    }

    method Restore(snapshot: seq<Record>)
      modifies this
      ensures Valid() && records == FromSnapshot(snapshot)
    {
      records := map[];
      var i := 0;
      assert snapshot[..0] == [];
      while i < |snapshot|
        invariant 0 <= i <= |snapshot|
        invariant Valid() && records == FromSnapshot(snapshot[..i])
      {
        assert snapshot[..i + 1][..i] == snapshot[..i];
        records := records[snapshot[i].modelId := snapshot[i]];
        i := i + 1;
      }
      assert snapshot[..i] == snapshot;
    }

    /**
     * A snapshot restored at once leaves every record, hence every answer, as it
     * was. A failure recorded between the two does not change what the snapshot
     * decides, but does show up in the snapshot's list of reasons.
     */
    method SnapshotFailRestore(model: string, reason: string, category: string, now: int)
      returns (snapshot: seq<Record>)
      requires Valid() && model in records
      modifies this, records[model].reasons, records[model].categories
      ensures Valid() && Cores() == old(Cores()) && model in records
      ensures records[model].reasons.items == PushReason(old(records[model].reasons.items), reason)
    {
      snapshot := Snapshot();
      RecordFailure(model, reason, category, now);
      Restore(snapshot);
    }
  }
}
