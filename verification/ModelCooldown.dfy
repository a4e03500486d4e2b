// The scheduler's three-strike tracker and model cooldowns (src/scheduler/scheduler.ts).
//
// Three failures of the same category in a row, or one that is not retriable, keep
// a model out for six hours. Both maps are bounded by pruning. The persisted copy
// of the cooldowns is left out.
module ModelCooldown {
  import opened Prelude

  datatype Category = TransientInfra | ResourceFit | ModelArch | Unknown

  datatype Tracked = Tracked(count: int, lastErrorType: Category, lastAt: int)

  /** The failure tracker, and until when each model is kept out. */
  datatype Ledger = Ledger(tracker: map<string, Tracked>, cooldown: map<string, int>)

  const SIX_HOURS_MS := 21_600_000
  const MAX_TRACKED_FAILURES := 200
  const MAX_COOLDOWN_ENTRIES := 200
  const STRIKES := 3

  // ---------------------------------------------------------------------
  // The operations
  // ---------------------------------------------------------------------

  function Prune(l: Ledger, now: int): Ledger {
    Ledger(
      if |l.tracker| > MAX_TRACKED_FAILURES
      then map m | m in l.tracker && now - l.tracker[m].lastAt <= SIX_HOURS_MS :: l.tracker[m]
      else l.tracker,
      map m | m in l.cooldown && now < l.cooldown[m] :: l.cooldown[m])
  }

  function Strike(l: Ledger, model: string, category: Category): int {
    if model in l.tracker && l.tracker[model].lastErrorType == category then l.tracker[model].count + 1 else 1
  }

  function Struck(l: Ledger, model: string, category: Category, now: int): Ledger {
    var count := Strike(l, model, category);
    if count >= STRIKES
    then Ledger(l.tracker[model := Tracked(0, category, now)], l.cooldown[model := now + SIX_HOURS_MS])
    else l.(tracker := l.tracker[model := Tracked(count, category, now)])
  }

  function Record(l: Ledger, model: string, category: Category, now: int): Ledger {
    var l' := Struck(l, model, category, now);
    if |l'.tracker| > MAX_TRACKED_FAILURES || |l'.cooldown| > MAX_COOLDOWN_ENTRIES then Prune(l', now) else l'
  }

  /** An expiry of zero is falsy, and counts as none. */
  predicate OnCooldown(l: Ledger, model: string, now: int) {
    model in l.cooldown && l.cooldown[model] != 0 && now < l.cooldown[model]
  }

  /** Asking drops an expired entry. */
  function Asked(l: Ledger, model: string, now: int): Ledger {
    if model in l.cooldown && l.cooldown[model] != 0 && now >= l.cooldown[model]
    then l.(cooldown := l.cooldown - {model})
    else l
  }

  /** What an applied failure of a run does: a strike, and quarantine at once if it is not retriable. */
  function Failed(l: Ledger, model: string, category: Category, retriable: bool, now: int): Ledger {
    var l' := Record(l, model, category, now);
    if retriable then l'
    else if OnCooldown(l', model, now) then l'
    else Asked(l', model, now).(cooldown := Asked(l', model, now).cooldown[model := now + SIX_HOURS_MS])
  }

  class Scheduler {
    var modelFailureTracker: map<string, Tracked>
    var modelCooldown: map<string, int>

    constructor ()
      ensures View() == Ledger(map[], map[])
    {
      modelFailureTracker := map[];
      modelCooldown := map[];
    }

    function View(): Ledger
      reads this
    {
      Ledger(modelFailureTracker, modelCooldown)
    }

    method PruneStaleModelEntries(now: int)
      modifies this
      ensures View() == Prune(old(View()), now)
      // Only a tracker over its limit forgets, and only what is older than six hours.
      ensures forall m :: m in modelFailureTracker <==>
                m in old(modelFailureTracker) &&
                (|old(modelFailureTracker)| <= 200 || now - old(modelFailureTracker)[m].lastAt <= 21_600_000)
      ensures forall m :: m in modelFailureTracker ==> modelFailureTracker[m] == old(modelFailureTracker)[m]
      ensures forall m :: m in modelCooldown <==> m in old(modelCooldown) && now < old(modelCooldown)[m]
      ensures forall m :: m in modelCooldown ==> modelCooldown[m] == old(modelCooldown)[m]
    {
      if |modelFailureTracker| > MAX_TRACKED_FAILURES {
        var todo := modelFailureTracker.Keys;
        while todo != {}
          invariant todo <= modelFailureTracker.Keys <= old(modelFailureTracker).Keys
          invariant modelCooldown == old(modelCooldown)
          invariant forall m :: m in modelFailureTracker ==> modelFailureTracker[m] == old(modelFailureTracker)[m]
          invariant forall m :: m in old(modelFailureTracker) && m !in todo ==>
                      (m in modelFailureTracker <==> now - old(modelFailureTracker)[m].lastAt <= SIX_HOURS_MS)
          invariant forall m :: m in todo ==> m in modelFailureTracker
          decreases todo
        {
          var m :| m in todo;
          todo := todo - {m};
          if now - modelFailureTracker[m].lastAt > SIX_HOURS_MS {
            modelFailureTracker := modelFailureTracker - {m};
          }
        }
      }
      ghost var tracker := modelFailureTracker;
      var todo := modelCooldown.Keys;
      while todo != {}
        invariant todo <= modelCooldown.Keys <= old(modelCooldown).Keys
        invariant modelFailureTracker == tracker
        invariant forall m :: m in modelCooldown ==> modelCooldown[m] == old(modelCooldown)[m]
        invariant forall m :: m in old(modelCooldown) && m !in todo ==>
                    (m in modelCooldown <==> now < old(modelCooldown)[m])
        invariant forall m :: m in todo ==> m in modelCooldown
        decreases todo
      {
        var m :| m in todo;
        todo := todo - {m};
        if now >= modelCooldown[m] {
          modelCooldown := modelCooldown - {m};
        }
      }
    }

    method RecordModelFailure(model: string, category: Category, now: int)
      modifies this
      ensures View() == Record(old(View()), model, category, now)
    {
      var count := 1;
      if model in modelFailureTracker && modelFailureTracker[model].lastErrorType == category {
        count := modelFailureTracker[model].count + 1;
      }
      if count >= STRIKES {
        modelCooldown := modelCooldown[model := now + SIX_HOURS_MS];
        count := 0;
      }
      modelFailureTracker := modelFailureTracker[model := Tracked(count, category, now)];
      if |modelFailureTracker| > MAX_TRACKED_FAILURES || |modelCooldown| > MAX_COOLDOWN_ENTRIES {
        PruneStaleModelEntries(now);
      }
    }

    method IsModelCooldown(model: string, now: int) returns (on: bool)
      modifies this
      ensures on == OnCooldown(old(View()), model, now)
      ensures View() == Asked(old(View()), model, now)
    {
      if model !in modelCooldown || modelCooldown[model] == 0 {
        return false;
      }
      if now >= modelCooldown[model] {
        modelCooldown := modelCooldown - {model};
        return false;
      }
      return true;
    }

    /** The part of failEntry after an applied failure write. */
    method AfterFailure(model: string, category: Category, retriable: bool, now: int)
      modifies this
      ensures View() == Failed(old(View()), model, category, retriable, now)
    {
      RecordModelFailure(model, category, now);
      if !retriable {
        var on := IsModelCooldown(model, now);
        if !on {
          modelCooldown := modelCooldown[model := now + SIX_HOURS_MS];
        }
      }
    }
  }

  // ---------------------------------------------------------------------
  // Pruning and asking are invisible
  // ---------------------------------------------------------------------

  /** Neither pruning nor asking changes any answer from then on. */
  lemma {:induction false} PruningIsInvisible(l: Ledger, now: int, asked: string, model: string, later: int)
    requires later >= now
    ensures OnCooldown(Prune(l, now), model, later) == OnCooldown(l, model, later)
    ensures OnCooldown(Asked(l, asked, now), model, later) == OnCooldown(l, model, later)
  {
  }

  // ---------------------------------------------------------------------
  // Runs
  // ---------------------------------------------------------------------

  datatype Op = Failure(model: string, category: Category, retriable: bool) | Question(model: string)

  datatype Timed = Timed(op: Op, at: int)

  function Apply(l: Ledger, op: Timed): Ledger {
    match op.op
    case Failure(model, category, retriable) => Failed(l, model, category, retriable, op.at)
    case Question(model) => Asked(l, model, op.at)
  }

  const NOTHING := Ledger(map[], map[])

  function Run(ops: seq<Timed>): Ledger
    decreases |ops|
  {
    if ops == [] then NOTHING else Apply(Run(ops[..|ops| - 1]), ops[|ops| - 1])
  }

  /** The categories of a model's failures since the tracker last forgot it. */
  function Remembered(ops: seq<Timed>, model: string): seq<Category>
    decreases |ops|
  {
    if ops == [] || model !in Run(ops).tracker then []
    else
      var before, last := Remembered(ops[..|ops| - 1], model), ops[|ops| - 1].op;
      if last.Failure? && last.model == model then before + [last.category] else before
  }

  /** How many of the last failures are of the same category. */
  function TrailingRun(categories: seq<Category>): nat
    decreases |categories|
  {
    if categories == [] then 0
    else if |categories| > 1 && categories[|categories| - 2] == categories[|categories| - 1]
    then TrailingRun(categories[..|categories| - 1]) + 1
    else 1
  }

  /** The longest run of one category that the failures end with. */
  lemma {:induction false} TrailingRunIsLongest(categories: seq<Category>)
    ensures var n := TrailingRun(categories);
            && n <= |categories| && (categories != [] ==> n > 0)
            && (forall i :: |categories| - n <= i < |categories| ==> categories[i] == categories[|categories| - 1])
            && (n < |categories| ==> categories[|categories| - n - 1] != categories[|categories| - 1])
    decreases |categories|
  {
    if categories != [] {
      TrailingRunIsLongest(categories[..|categories| - 1]);
    }
  }

  /** Failing leaves the other models' tracker rows alone or drops them, and keeps the failing one's. */
  lemma {:induction false} TrackerStep(l: Ledger, op: Timed, model: string)
    ensures var l' := Apply(l, op);
            && (op.op.Failure? && op.op.model == model ==>
                  && model in l'.tracker
                  && l'.tracker[model].lastErrorType == op.op.category
                  && l'.tracker[model].count ==
                    (if Strike(l, model, op.op.category) >= STRIKES then 0 else Strike(l, model, op.op.category)))
            && (!(op.op.Failure? && op.op.model == model) ==>
                  model in l'.tracker ==> model in l.tracker && l'.tracker[model] == l.tracker[model])
  {
    if op.op.Failure? {
      PruneKeeps(Struck(l, op.op.model, op.op.category, op.at), op.at, model);
      var recorded := Record(l, op.op.model, op.op.category, op.at);
      assert Apply(l, op).tracker == recorded.tracker;
    }
  }

  lemma {:induction false} PruneKeeps(l: Ledger, now: int, model: string)
    ensures model in Prune(l, now).tracker ==> model in l.tracker && Prune(l, now).tracker[model] == l.tracker[model]
    ensures model in l.tracker && l.tracker[model].lastAt == now ==> model in Prune(l, now).tracker
  {
  }

  lemma {:induction false} RunStep(categories: seq<Category>, category: Category)
    ensures TrailingRun(categories + [category]) ==
            if categories != [] && categories[|categories| - 1] == category then TrailingRun(categories) + 1 else 1
  {
    assert (categories + [category])[..|categories|] == categories;
  }

  function StrikesOf(categories: seq<Category>): int {
    TrailingRun(categories) % 3
  }

  /** A tracker row counts its model's trailing run, modulo three. */
  ghost predicate TrackerTells(l: Ledger, known: seq<Category>, model: string) {
    && (model in l.tracker <==> known != [])
    && (model in l.tracker ==>
          && l.tracker[model].lastErrorType == known[|known| - 1]
          && l.tracker[model].count == StrikesOf(known))
  }

  lemma {:induction false} NextStrike(l: Ledger, known: seq<Category>, model: string, category: Category)
    requires TrackerTells(l, known, model)
    ensures var n := StrikesOf(known + [category]);
            && (Strike(l, model, category) >= STRIKES <==> n == 0)
            && (Strike(l, model, category) < STRIKES ==> Strike(l, model, category) == n)
  {
    RunStep(known, category);
    OneMore(TrailingRun(known));
    OneMore(0);
  }

  lemma {:induction false} OneMore(n: nat)
    ensures (n + 1) % STRIKES == if n % STRIKES == STRIKES - 1 then 0 else n % STRIKES + 1
    ensures 0 <= n % STRIKES < STRIKES
  {
  }

  lemma {:induction false} TellsStep(l: Ledger, op: Timed, known: seq<Category>, model: string)
    requires TrackerTells(l, known, model)
    ensures var mine := op.op.Failure? && op.op.model == model;
            TrackerTells(Apply(l, op),
                         if model !in Apply(l, op).tracker then []
                         else if mine then known + [op.op.category] else known,
                         model)
  {
    TrackerStep(l, op, model);
    if op.op.Failure? && op.op.model == model {
      NextStrike(l, known, model, op.op.category);
    }
  }

  /**
   * In every run, the tracked count of a model is the length of its trailing run
   * of same-category failures modulo three.
   */
  lemma {:induction false} CountIsTrailingRun(ops: seq<Timed>, model: string)
    ensures TrackerTells(Run(ops), Remembered(ops, model), model)
    decreases |ops|
  {
    if ops != [] {
      var front, op := ops[..|ops| - 1], ops[|ops| - 1];
      CountIsTrailingRun(front, model);
      TellsStep(Run(front), op, Remembered(front, model), model);
    }
  }

  /** Every third failure of a run of the same category trips the cooldown, and no other failure does by striking. */
  lemma {:induction false} EveryThirdTrips(ops: seq<Timed>, model: string, category: Category)
    ensures Strike(Run(ops), model, category) >= STRIKES
            <==> TrailingRun(Remembered(ops, model) + [category]) % 3 == 0
  {
    CountIsTrailingRun(ops, model);
    NextStrike(Run(ops), Remembered(ops, model), model, category);
  }

  // ----- when nothing is forgotten --------------------------------------------

  function Models(ops: seq<Timed>): set<string> {
    set op | op in ops :: op.op.model
  }

  function AllFailures(ops: seq<Timed>, model: string): seq<Category>
    decreases |ops|
  {
    if ops == [] then []
    else
      var before, last := AllFailures(ops[..|ops| - 1], model), ops[|ops| - 1].op;
      if last.Failure? && last.model == model then before + [last.category] else before
  }

  lemma {:induction false} Subset<T>(a: set<T>, b: set<T>)
    requires a <= b
    ensures |a| <= |b|
    decreases b
  {
    if a != {} {
      var x :| x in a;
      Subset(a - {x}, b - {x});
    }
  }

  lemma {:induction false} StepBelowBound(l: Ledger, op: Timed, known: set<string>, model: string)
    requires l.tracker.Keys <= known && op.op.model in known && |known| <= MAX_TRACKED_FAILURES
    ensures Apply(l, op).tracker.Keys <= known
    ensures model in l.tracker ==> model in Apply(l, op).tracker
  {
    if op.op.Failure? {
      var l' := Struck(l, op.op.model, op.op.category, op.at);
      assert l'.tracker.Keys <= known;
      Subset(l'.tracker.Keys, known);
      assert |l'.tracker| == |l'.tracker.Keys|;
    }
  }

  lemma {:induction false} ModelsAppend(front: seq<Timed>, last: Timed)
    ensures Models(front + [last]) == Models(front) + {last.op.model}
  {
    assert forall op :: op in front + [last] <==> op in front || op == last;
  }

  /** With no more than two hundred models around, the tracker forgets nothing. */
  lemma {:induction false} NothingForgotten(ops: seq<Timed>, model: string)
    requires |Models(ops)| <= MAX_TRACKED_FAILURES
    ensures Remembered(ops, model) == AllFailures(ops, model)
    ensures Run(ops).tracker.Keys <= Models(ops)
    decreases |ops|
  {
    if ops != [] {
      var front, op := ops[..|ops| - 1], ops[|ops| - 1];
      ModelsAppend(front, op);
      assert front + [op] == ops;
      Subset(Models(front), Models(ops));
      NothingForgotten(front, model);
      CountIsTrailingRun(front, model);
      StepBelowBound(Run(front), op, Models(ops), model);
      TrackerStep(Run(front), op, model);
    }
  }

  // ----- what the cooldown answers mean -----------------------------------------

  predicate Rising(ops: seq<Timed>) {
    forall i :: 0 <= i < |ops| ==> ops[i].at >= 0 && (i > 0 ==> ops[i - 1].at <= ops[i].at)
  }

  /** Whether a failure starts a cooldown: the third strike, or a first non-retriable failure. */
  predicate Starts(l: Ledger, op: Timed, model: string) {
    && op.op.Failure? && op.op.model == model
    && (Strike(l, model, op.op.category) >= STRIKES || (!op.op.retriable && !OnCooldown(l, model, op.at)))
  }

  function LastStart(ops: seq<Timed>, model: string): Option<int>
    decreases |ops|
  {
    if ops == [] then None
    else
      var front, op := ops[..|ops| - 1], ops[|ops| - 1];
      if Starts(Run(front), op, model) then Some(op.at) else LastStart(front, model)
  }

  /** The stored expiry is that of the last cooldown started, until that has run out. */
  ghost predicate CooldownTells(l: Ledger, start: Option<int>, model: string, now: int) {
    if model in l.cooldown then start == Some(l.cooldown[model] - SIX_HOURS_MS) && start.value >= 0
    else start.Some? ==> now >= start.value + SIX_HOURS_MS
  }

  lemma {:induction false} CooldownStruck(l: Ledger, category: Category, start: Option<int>, model: string,
                                          other: string, now: int)
    requires CooldownTells(l, start, model, now) && now >= 0
    ensures CooldownTells(Struck(l, other, category, now),
                          if other == model && Strike(l, model, category) >= STRIKES then Some(now) else start,
                          model, now)
  {
  }

  lemma {:induction false} CooldownKept(l: Ledger, start: Option<int>, model: string, other: string, now: int)
    requires CooldownTells(l, start, model, now)
    ensures CooldownTells(Prune(l, now), start, model, now) && CooldownTells(Asked(l, other, now), start, model, now)
  {
  }

  lemma {:induction false} CooldownRecorded(l: Ledger, category: Category, start: Option<int>, model: string,
                                            other: string, now: int)
    requires CooldownTells(l, start, model, now) && now >= 0
    ensures var l' := Record(l, other, category, now);
            && CooldownTells(l', if other == model && Strike(l, model, category) >= STRIKES then Some(now) else start,
                             model, now)
            && (OnCooldown(l', model, now) <==>
                  OnCooldown(l, model, now) || (other == model && Strike(l, model, category) >= STRIKES))
  {
    CooldownStruck(l, category, start, model, other, now);
    var start' := if other == model && Strike(l, model, category) >= STRIKES then Some(now) else start;
    CooldownKept(Struck(l, other, category, now), start', model, other, now);
  }

  lemma {:induction false} CooldownStep(l: Ledger, op: Timed, start: Option<int>, model: string)
    requires CooldownTells(l, start, model, op.at) && op.at >= 0
    ensures CooldownTells(Apply(l, op), if Starts(l, op, model) then Some(op.at) else start, model, op.at)
  {
    match op.op
    case Failure(other, category, retriable) => CooldownRecorded(l, category, start, model, other, op.at);
    case Question(other) => CooldownKept(l, start, model, other, op.at);
  }

  /**
   * With a clock that never runs backwards, a model is on cooldown at a time from
   * the last operation on exactly when its last cooldown started less than six
   * hours before - whatever was pruned, asked or forgotten in between.
   */
  lemma {:induction false} CooldownLastsSixHours(ops: seq<Timed>, model: string, now: int)
    requires Rising(ops) && (ops != [] ==> now >= ops[|ops| - 1].at)
    ensures OnCooldown(Run(ops), model, now)
            <==> LastStart(ops, model).Some? && now < LastStart(ops, model).value + 21_600_000
  {
    CooldownAlways(ops, model, now);
  }

  /**
   * What starts a cooldown, told by the history: a failure that makes the trailing
   * run of its category a multiple of three, or one that is not retriable and comes
   * six hours or more after the last start.
   */
  lemma {:induction false} StartsIs(ops: seq<Timed>, op: Timed, model: string)
    requires Rising(ops + [op])
    ensures Starts(Run(ops), op, model) <==>
              && op.op.Failure? && op.op.model == model
              && (|| TrailingRun(Remembered(ops, model) + [op.op.category]) % 3 == 0
                  || (!op.op.retriable &&
                      (LastStart(ops, model).Some? ==> op.at >= LastStart(ops, model).value + 21_600_000)))
  {
    var all := ops + [op];
    assert all[|ops|] == op && forall i :: 0 <= i < |ops| ==> all[i] == ops[i];
    CooldownLastsSixHours(ops, model, op.at);
    if op.op.Failure? {
      EveryThirdTrips(ops, model, op.op.category);
    }
  }

  /** The history starts with nothing, and goes on one operation at a time. */
  lemma {:induction false} LastStartNext(ops: seq<Timed>, op: Timed, model: string)
    requires Rising(ops + [op])
    ensures LastStart([], model) == None
    ensures LastStart(ops + [op], model) ==
              if && op.op.Failure? && op.op.model == model
                 && (|| TrailingRun(Remembered(ops, model) + [op.op.category]) % 3 == 0
                     || (!op.op.retriable &&
                         (LastStart(ops, model).Some? ==> op.at >= LastStart(ops, model).value + 21_600_000)))
              then Some(op.at) else LastStart(ops, model)
  {
    StartsIs(ops, op, model);
    assert (ops + [op])[..|ops|] == ops;
  }

  lemma {:induction false} CooldownAlways(ops: seq<Timed>, model: string, now: int)
    requires Rising(ops) && (ops != [] ==> now >= ops[|ops| - 1].at)
    ensures CooldownTells(Run(ops), LastStart(ops, model), model, now)
    decreases |ops|
  {
    if ops != [] {
      var front, op := ops[..|ops| - 1], ops[|ops| - 1];
      CooldownAlways(front, model, op.at);
      CooldownStep(Run(front), op, LastStart(front, model), model);
    }
  }

  /** A non-retriable failure shuts its model out at once, first strike or not. */
  lemma {:induction false} NonRetriableQuarantines(l: Ledger, model: string, category: Category, now: int)
    requires now >= 0
    ensures OnCooldown(Failed(l, model, category, false, now), model, now)
  {
  }
}
