// Terminal writes and automatic retries (src/services/queue-service.ts and the
// scheduler's writeTerminal and failEntry).
//
// A daemon that claims or adopts a queue entry holds a fresh lease token, and its
// terminal write is applied only while the entry still carries that token. The
// first half of the module models that write as the read / compare-and-set loop
// it is, against arbitrary interference; the second half runs any number of
// daemons over the queue with atomic steps.
module QueueFence {
  import opened Prelude

  datatype Status = Pending | Deploying | Benchmarking | Completed | FailedStatus | Cancelled

  predicate IsTerminal(status: Status) {
    status == Completed || status == FailedStatus || status == Cancelled
  }

  predicate InFlight(status: Status) {
    status == Deploying || status == Benchmarking
  }

  // ---------------------------------------------------------------------
  // One document
  // ---------------------------------------------------------------------

  datatype Doc = Doc(status: Status, token: Option<nat>, heartbeat: Option<int>, seqNo: nat)

  /** What other daemons, heartbeats and operators do to the document. */
  datatype Write =
    | Claim(token: nat)
    | AdoptDoc(token: nat)
    | ReclaimDoc
    | BeatDoc(token: nat, at: int)
    | SetStatus(status: Status)
    | CancelPendingDoc
    | RequeueFailed
    | Progress

  /** The scripts: each checks the document and either changes it or is a no-op that leaves the version alone. */
  function Apply(doc: Doc, write: Write): Doc {
    var next := doc.(seqNo := doc.seqNo + 1);
    match write
    case Claim(token) => if doc.status == Pending then next.(status := Deploying, token := Some(token)) else doc
    case AdoptDoc(token) => if InFlight(doc.status) then next.(token := Some(token)) else doc
    case ReclaimDoc => if InFlight(doc.status) then next.(status := Pending, token := None, heartbeat := None) else doc
    case BeatDoc(token, at) =>
      if doc.token == Some(token) && InFlight(doc.status) then next.(heartbeat := Some(at)) else doc
    case SetStatus(status) => next.(status := status, token := if IsTerminal(status) then None else doc.token)
    case CancelPendingDoc => if doc.status == Pending then next.(status := Cancelled) else doc
    case RequeueFailed =>
      if doc.status == FailedStatus then next.(status := Pending, token := None, heartbeat := None) else doc
    case Progress => next
  }

  function ApplyAll(doc: Doc, writes: seq<Write>): Doc
    decreases |writes|
  {
    if writes == [] then doc else ApplyAll(Apply(doc, writes[0]), writes[1..])
  }

  lemma {:induction false} VersionsGrow(doc: Doc, writes: seq<Write>)
    ensures ApplyAll(doc, writes).seqNo >= doc.seqNo
    ensures ApplyAll(doc, writes).seqNo == doc.seqNo ==> ApplyAll(doc, writes) == doc
    decreases |writes|
  {
    if writes != [] {
      VersionsGrow(Apply(doc, writes[0]), writes[1..]);
    }
  }

  datatype WriteResult = Applied | LeaseMismatch | AlreadyTerminal | NotFound | Conflict

  const MAX_ATTEMPTS := 3

  /**
   * The write the fence is meant to be, one indivisible check and update: applied
   * for the holder of the token the entry carries, and over an open status only.
   */
  function FinishAtomically(doc: Doc, status: Status, token: nat): (r: (Doc, WriteResult))
    ensures r.1 == Applied <==> doc.token == Some(token) && doc.status in {Pending, Deploying, Benchmarking}
    ensures r.1 == LeaseMismatch <==> doc.token != Some(token)
    ensures r.1 == AlreadyTerminal <==> doc.token == Some(token) && doc.status in {Completed, FailedStatus, Cancelled}
    ensures r.0 == if r.1 == Applied then Doc(status, None, doc.heartbeat, doc.seqNo + 1) else doc
  {
    if doc.token != Some(token) then (doc, LeaseMismatch)
    else if IsTerminal(doc.status) then (doc, AlreadyTerminal)
    else (doc.(status := status, token := None, seqNo := doc.seqNo + 1), Applied)
  }

  class QueueIndex {
    var doc: Option<Doc>

    constructor (doc: Option<Doc>)
      ensures this.doc == doc
    {
      this.doc := doc;
    }

    /**
     * The fenced terminal write. `rivals(k)` reach the document between the read
     * and the write of attempt k. The loop is indivisible in effect: having lost
     * `lost` races, its result and the document it leaves are those of the atomic
     * write on the document as the rivals of exactly those attempts left it. It
     * writes only if that document is also the one it read - nothing the rivals of
     * its own attempt did took effect - and gives up, having written nothing, only
     * when every attempt was overtaken.
     */
    method WriteTerminalFenced(status: Status, token: nat, rivals: nat -> seq<Write>)
      returns (result: WriteResult, ghost lost: nat)
      modifies this
      ensures old(doc).None? ==> result == NotFound && doc == None
      ensures old(doc).Some? ==> doc.Some? && lost <= MAX_ATTEMPTS
      ensures old(doc).Some? ==> forall k :: 0 <= k < lost ==> Overtaken(old(doc).value, rivals, k)
      ensures old(doc).Some? ==>
                var reached := ApplyAll(old(doc).value, Through(rivals, lost));
                && (result == Conflict <==> lost == MAX_ATTEMPTS)
                && (result == Conflict ==> doc.value == reached)
                && (result != Conflict ==> (doc.value, result) == FinishAtomically(reached, status, token))
                && (result == Applied ==> ApplyAll(reached, rivals(lost)) == reached)
    {
      lost := 0;
      var attempt := 0;
      while attempt < MAX_ATTEMPTS
        invariant 0 <= attempt <= MAX_ATTEMPTS && lost == attempt
        invariant old(doc).None? ==> doc == None && attempt == 0
        invariant old(doc).Some? ==> doc == Some(ApplyAll(old(doc).value, Through(rivals, attempt)))
        invariant old(doc).Some? ==> forall k :: 0 <= k < attempt ==> Overtaken(old(doc).value, rivals, k)
      {
        var current := doc;
        if current.None? {
          return NotFound, lost;
        }
        if current.value.token != Some(token) {
          return LeaseMismatch, lost;
        }
        if IsTerminal(current.value.status) {
          return AlreadyTerminal, lost;
        }
        VersionsGrow(doc.value, rivals(attempt));
        AfterAttempt(old(doc).value, rivals, attempt);
        doc := Some(ApplyAll(doc.value, rivals(attempt)));
        if doc.value.seqNo == current.value.seqNo {
          doc := Some(doc.value.(status := status, token := None, seqNo := doc.value.seqNo + 1));
          return Applied, lost;
        }
        attempt, lost := attempt + 1, lost + 1;
      }
      return Conflict, lost;
    }
  }

  lemma {:induction false} AfterAttempt(doc: Doc, rivals: nat -> seq<Write>, k: nat)
    ensures ApplyAll(doc, Through(rivals, k + 1)) == ApplyAll(ApplyAll(doc, Through(rivals, k)), rivals(k))
  {
    ApplyAllAppend(doc, Through(rivals, k), rivals(k));
  }

  /** The rivals of attempt `k` changed the document between its read and its write. */
  predicate Overtaken(doc: Doc, rivals: nat -> seq<Write>, k: nat) {
    ApplyAll(doc, Through(rivals, k + 1)).seqNo != ApplyAll(doc, Through(rivals, k)).seqNo
  }

  function Through(rivals: nat -> seq<Write>, n: nat): seq<Write> {
    if n == 0 then [] else Through(rivals, n - 1) + rivals(n - 1)
  }

  lemma {:induction false} ApplyAllAppend(doc: Doc, a: seq<Write>, b: seq<Write>)
    ensures ApplyAll(doc, a + b) == ApplyAll(ApplyAll(doc, a), b)
    decreases |a|
  {
    if a == [] {
      assert a + b == b;
    } else {
      assert (a + b)[0] == a[0] && (a + b)[1..] == a[1..] + b;
      ApplyAllAppend(Apply(doc, a[0]), a[1..], b);
    }
  }

  // ---------------------------------------------------------------------
  // The queue and its daemons
  // ---------------------------------------------------------------------

  datatype Category = TransientInfra | ResourceFit | ModelArch | Unknown

  datatype RetryConfig = RetryConfig(enabled: bool, maxInfraRetries: nat, maxResourceFitRetries: nat)

  /**
   * A queue entry, and its history: how often it went from open to terminal and
   * back, how many fenced terminal writes were applied, how many failures were
   * written without a token, the retries spawned and those still to be enqueued.
   */
  datatype Entry = Entry(model: string, status: Status, token: Option<nat>, retryCount: nat, parent: Option<nat>,
                         finished: nat, revived: nat, fenced: nat, untokened: nat, children: nat, owed: nat)

  /** Entry ids are positions; `spent` are the tokens whose fenced write was applied, in order. */
  datatype World = World(entries: seq<Entry>, nextToken: nat, spent: seq<nat>)

  datatype Step =
    | Enqueue(model: string)
    | Dequeue(id: nat)
    | Adopt(id: nat)
    | Reclaim(id: nat)
    | SetActive(id: nat, benchmarking: bool)
    | SetTerminal(id: nat, status: Status)
    | Finish(id: nat, status: Status, token: nat)
    | FailEntry(id: nat, held: Option<nat>, category: Category, retriable: bool)
    | Respawn(id: nat)
    | DropRetry(id: nat)
    | CancelPending(id: nat)
    | Requeue(id: nat)

  predicate ModelActive(entries: seq<Entry>, model: string) {
    exists i :: 0 <= i < |entries| && entries[i].model == model && !IsTerminal(entries[i].status)
  }

  function NewEntry(model: string, retryCount: nat, parent: Option<nat>): Entry {
    Entry(model, Pending, None, retryCount, parent, 0, 0, 0, 0, 0, 0)
  }

  /** `enqueue` finds an active entry of the model, or appends a new one. */
  function EnqueueEntry(entries: seq<Entry>, entry: Entry): seq<Entry> {
    if ModelActive(entries, entry.model) then entries else entries + [entry]
  }

  function Move(e: Entry, status: Status, token: Option<nat>): Entry {
    e.(status := status, token := token,
       finished := if IsTerminal(status) && !IsTerminal(e.status) then e.finished + 1 else e.finished,
       revived := if !IsTerminal(status) && IsTerminal(e.status) then e.revived + 1 else e.revived)
  }

  function Budget(config: RetryConfig, category: Category): nat {
    if category == ResourceFit then config.maxResourceFitRetries else config.maxInfraRetries
  }

  predicate WillRetry(config: RetryConfig, e: Entry, category: Category, retriable: bool) {
    config.enabled && retriable && e.retryCount < Budget(config, category)
  }

  predicate FencePasses(e: Entry, token: nat) {
    e.token == Some(token) && !IsTerminal(e.status)
  }

  function Put(w: World, id: nat, e: Entry): World
    requires id < |w.entries|
  {
    w.(entries := w.entries[id := e])
  }

  function ApplyFenced(w: World, id: nat, status: Status, token: nat): World
    requires id < |w.entries| && IsTerminal(status)
  {
    var e := w.entries[id];
    Put(w, id, Move(e, status, None).(fenced := e.fenced + 1)).(spent := w.spent + [token])
  }

  function Next(w: World, step: Step, config: RetryConfig): World {
    if step.Enqueue? then w.(entries := EnqueueEntry(w.entries, NewEntry(step.model, 0, None)))
    else if step.id >= |w.entries| then w
    else
      var id := step.id;
      var e := w.entries[id];
      match step
      case Dequeue(_) =>
        if e.status == Pending
        then Put(w, id, e.(status := Deploying, token := Some(w.nextToken))).(nextToken := w.nextToken + 1) else w
      case Adopt(_) =>
        if InFlight(e.status) then Put(w, id, e.(token := Some(w.nextToken))).(nextToken := w.nextToken + 1) else w
      case Reclaim(_) => if InFlight(e.status) then Put(w, id, e.(status := Pending, token := None)) else w
      case SetActive(_, benchmarking) => Put(w, id, Move(e, if benchmarking then Benchmarking else Deploying, e.token))
      case SetTerminal(_, status) => if IsTerminal(status) then Put(w, id, Move(e, status, None)) else w
      case Finish(_, status, token) =>
        if IsTerminal(status) && FencePasses(e, token) then ApplyFenced(w, id, status, token) else w
      case FailEntry(_, held, category, retriable) =>
        var owed := if WillRetry(config, e, category, retriable) then 1 else 0;
        if held.None? then
          var e' := Move(e, FailedStatus, None);
          Put(w, id, e'.(untokened := e.untokened + 1, owed := e.owed + owed))
        else if FencePasses(e, held.value) then
          var w' := ApplyFenced(w, id, FailedStatus, held.value);
          Put(w', id, w'.entries[id].(owed := e.owed + owed))
        else w
      case Respawn(_) =>
        if e.owed == 0 then w
        else
          var paid := w.entries[id := e.(owed := e.owed - 1)];
          if ModelActive(paid, e.model) then w.(entries := paid)
          else w.(entries := w.entries[id := e.(owed := e.owed - 1, children := e.children + 1)]
                             + [NewEntry(e.model, e.retryCount + 1, Some(id))])
      case DropRetry(_) => if e.owed == 0 then w else Put(w, id, e.(owed := e.owed - 1))
      case CancelPending(_) => if e.status == Pending then Put(w, id, Move(e, Cancelled, e.token)) else w
      case Requeue(_) => if e.status == FailedStatus then Put(w, id, Move(e, Pending, None)) else w
  }

  const EMPTY := World([], 0, [])

  function Run(steps: seq<Step>, config: RetryConfig): World
    decreases |steps|
  {
    if steps == [] then EMPTY else Next(Run(steps[..|steps| - 1], config), steps[|steps| - 1], config)
  }

  /** What a failure leaves, with the retry enqueued or dropped. */
  function AfterFail(w: World, id: nat, token: Option<nat>, category: Category, retriable: bool, config: RetryConfig,
                     enqueueWorks: bool): World
    requires id < |w.entries|
  {
    var failed := Next(w, FailEntry(id, token, category, retriable), config);
    var applied := token.None? || FencePasses(w.entries[id], token.value);
    if applied && WillRetry(config, w.entries[id], category, retriable)
    then Next(failed, if enqueueWorks then Respawn(id) else DropRetry(id), config)
    else failed
  }

  /** No other entry of the model is still open. */
  predicate NoOtherActive(entries: seq<Entry>, id: nat)
    requires id < |entries|
  {
    forall i :: 0 <= i < |entries| && i != id && entries[i].model == entries[id].model ==>
      entries[i].status in {Completed, FailedStatus, Cancelled}
  }

  lemma {:induction false} OnlyOthersCount(entries: seq<Entry>, id: nat, closed: Entry)
    requires id < |entries| && closed.model == entries[id].model && closed.status == FailedStatus
    ensures ModelActive(entries[id := closed], closed.model) <==> !NoOtherActive(entries, id)
  {
    var after := entries[id := closed];
    if !NoOtherActive(entries, id) {
      var i :| 0 <= i < |entries| && i != id && entries[i].model == entries[id].model &&
               entries[i].status !in {Completed, FailedStatus, Cancelled};
      assert after[i].model == closed.model && !IsTerminal(after[i].status);
    }
    if ModelActive(after, closed.model) {
      var i :| 0 <= i < |after| && after[i].model == closed.model && !IsTerminal(after[i].status);
      assert i != id && entries[i] == after[i];
    }
  }

  /** A retry that is owed is enqueued exactly when no other entry of the model is open. */
  lemma {:induction false} RespawnInPlainTerms(w: World, id: nat, config: RetryConfig)
    requires id < |w.entries| && w.entries[id].owed > 0 && w.entries[id].status == FailedStatus
    ensures var w', e := Next(w, Respawn(id), config), w.entries[id];
            && w'.entries[id].status == FailedStatus && w'.entries[id].token == e.token
            && if NoOtherActive(w.entries, id)
               then && |w'.entries| == |w.entries| + 1
                    && w'.entries[|w.entries|] ==
                       Entry(e.model, Pending, None, e.retryCount + 1, Some(id), 0, 0, 0, 0, 0, 0)
               else |w'.entries| == |w.entries|
  {
    var e := w.entries[id];
    OnlyOthersCount(w.entries, id, e.(owed := e.owed - 1));
  }

  /** Closing the failed entry does not change which other entries are open. */
  lemma {:induction false} OthersUntouched(entries: seq<Entry>, id: nat, closed: Entry)
    requires id < |entries| && closed.model == entries[id].model
    ensures NoOtherActive(entries[id := closed], id) <==> NoOtherActive(entries, id)
  {
    var after := entries[id := closed];
    assert forall i :: 0 <= i < |entries| && i != id ==> after[i] == entries[i];
  }

  /** The write of a failure: applied without a token, or with the one an open entry carries. */
  lemma {:induction false} CloseInPlainTerms(w: World, id: nat, token: Option<nat>, category: Category, retriable: bool,
                                             config: RetryConfig)
    requires id < |w.entries|
    ensures var failed, e := Next(w, FailEntry(id, token, category, retriable), config), w.entries[id];
            var limit := if category == ResourceFit then config.maxResourceFitRetries else config.maxInfraRetries;
            if token.None? || (e.token == token && e.status in {Pending, Deploying, Benchmarking})
            then && |failed.entries| == |w.entries| && failed.entries == w.entries[id := failed.entries[id]]
                 && failed.entries[id].status == FailedStatus && failed.entries[id].token == None
                 && failed.entries[id].model == e.model && failed.entries[id].retryCount == e.retryCount
                 && failed.entries[id].owed ==
                    e.owed + if config.enabled && retriable && e.retryCount < limit then 1 else 0
            else failed == w
  {
  }

  /** A failure, told without the functions that specify it. */
  lemma {:induction false} FailInPlainTerms(w: World, id: nat, token: Option<nat>, category: Category, retriable: bool,
                                            config: RetryConfig, enqueueWorks: bool)
    requires id < |w.entries|
    ensures var w', e := AfterFail(w, id, token, category, retriable, config, enqueueWorks), w.entries[id];
            var limit := if category == ResourceFit then config.maxResourceFitRetries else config.maxInfraRetries;
            if token.None? || (e.token == token && e.status in {Pending, Deploying, Benchmarking})
            then && |w'.entries| >= |w.entries|
                 && w'.entries[id].status == FailedStatus && w'.entries[id].token == None
                 && (|w'.entries| > |w.entries| <==>
                       && enqueueWorks && config.enabled && retriable && NoOtherActive(w.entries, id)
                       && e.retryCount < limit)
                 && (|w'.entries| > |w.entries| ==>
                       w'.entries[|w.entries|] ==
                       Entry(e.model, Pending, None, e.retryCount + 1, Some(id), 0, 0, 0, 0, 0, 0))
            else w' == w
  {
    CloseInPlainTerms(w, id, token, category, retriable, config);
    var failed := Next(w, FailEntry(id, token, category, retriable), config);
    if token.None? || FencePasses(w.entries[id], token.value) {
      OthersUntouched(w.entries, id, failed.entries[id]);
      if WillRetry(config, w.entries[id], category, retriable) {
        RespawnInPlainTerms(failed, id, config);
      }
    }
  }

  // ----- the scheduler's own code ----------------------------------------

  class Queue {
    var world: World

    constructor ()
      ensures world == EMPTY
    {
      world := EMPTY;
    }

    /**
     * Applied whatever the entry's status and token are: it ends up closed and
     * unclaimed, counted as finished once more only if it was open, and nothing
     * else in the queue changes.
     */
    method UpdateStatus(id: nat, status: Status) returns (applied: bool)
      requires id < |world.entries| && IsTerminal(status)
      modifies this
      ensures applied && |world.entries| == |old(world).entries|
      ensures var e, e' := old(world).entries[id], world.entries[id];
              && e'.status == status && e'.token == None
              && e'.finished == e.finished + (if IsTerminal(e.status) then 0 else 1)
              && e'.revived == e.revived && e'.fenced == e.fenced && e'.untokened == e.untokened
              && e'.model == e.model && e'.retryCount == e.retryCount && e'.parent == e.parent
              && e'.children == e.children && e'.owed == e.owed
      ensures forall i :: 0 <= i < |world.entries| && i != id ==> world.entries[i] == old(world).entries[i]
      ensures world.nextToken == old(world).nextToken && world.spent == old(world).spent
    {
      var e := world.entries[id];
      world := Put(world, id, Move(e, status, None));
      return true;
    }

    method WriteFenced(id: nat, status: Status, token: nat) returns (applied: bool)
      requires id < |world.entries| && IsTerminal(status)
      modifies this
      ensures applied <==> FencePasses(old(world).entries[id], token)
      ensures world == if applied then ApplyFenced(old(world), id, status, token) else old(world)
    {
      var e := world.entries[id];
      if e.token != Some(token) || IsTerminal(e.status) {
        return false;
      }
      world := ApplyFenced(world, id, status, token);
      return true;
    }

    /** Fenced by the held token; unfenced only for an entry that never had one. */
    method WriteTerminal(id: nat, status: Status, token: Option<nat>) returns (applied: bool)
      requires id < |world.entries| && IsTerminal(status)
      modifies this
      ensures applied <==> token.None? || FencePasses(old(world).entries[id], token.value)
      ensures world == if !applied then old(world)
                       else if token.None? then Put(old(world), id, Move(old(world).entries[id], status, None))
                       else ApplyFenced(old(world), id, status, token.value)
    {
      if token.None? {
        applied := UpdateStatus(id, status);
        return;
      }
      applied := WriteFenced(id, status, token.value);
    }

    /**
     * The failure chokepoint: classify, write, and re-enqueue within budget. A
     * fenced-out failure stops before it records or re-enqueues anything;
     * `enqueueWorks` is false when the re-enqueue throws.
     */
    method Fail(id: nat, token: Option<nat>, category: Category, retriable: bool, config: RetryConfig,
                enqueueWorks: bool)
      returns (applied: bool)
      requires id < |world.entries|
      modifies this
      ensures applied <==> token.None? || FencePasses(old(world).entries[id], token.value)
      ensures var failed := Next(old(world), FailEntry(id, token, category, retriable), config);
              world == (if applied && WillRetry(config, old(world).entries[id], category, retriable)
                        then Next(failed, if enqueueWorks then Respawn(id) else DropRetry(id), config)
                        else failed)
      ensures !applied ==> world == old(world)
      // In plain terms: applied without a token, or with the one an open entry carries.
      ensures applied <==> token.None? || (old(world).entries[id].token == token &&
                                           old(world).entries[id].status in {Pending, Deploying, Benchmarking})
      ensures applied ==> |world.entries| >= |old(world).entries| &&
                          world.entries[id].status == FailedStatus && world.entries[id].token == None
      // A retry is enqueued exactly when the failure was applied and may be retried, the
      // budget of its own category has room, and no other entry of the model is open.
      ensures |world.entries| > |old(world).entries| <==>
                && applied && enqueueWorks && config.enabled && retriable && NoOtherActive(old(world).entries, id)
                && old(world).entries[id].retryCount <
                   if category == ResourceFit then config.maxResourceFitRetries else config.maxInfraRetries
      ensures |world.entries| > |old(world).entries| ==>
                var e, child := old(world).entries[id], world.entries[|old(world).entries|];
                && child.model == e.model && child.retryCount == e.retryCount + 1 && child.parent == Some(id)
                && child.status == Pending && child.token == None
    {
      applied := WriteFailure(id, token, category, retriable, config, enqueueWorks);
      FailInPlainTerms(old(world), id, token, category, retriable, config, enqueueWorks);
    }

    method WriteFailure(id: nat, token: Option<nat>, category: Category, retriable: bool, config: RetryConfig,
                        enqueueWorks: bool)
      returns (applied: bool)
      requires id < |world.entries|
      modifies this
      ensures applied <==> token.None? || FencePasses(old(world).entries[id], token.value)
      ensures world == AfterFail(old(world), id, token, category, retriable, config, enqueueWorks)
    {
      var e := world.entries[id];
      var retryCount := e.retryCount;
      var budget := if category == ResourceFit then config.maxResourceFitRetries else config.maxInfraRetries;
      var willRetry := config.enabled && retriable && retryCount < budget;
      applied := WriteTerminal(id, FailedStatus, token);
      if !applied {
        return;
      }
      if token.None? {
        world := Put(world, id, world.entries[id].(untokened := e.untokened + 1));
      }
      ghost var failed := Next(old(world), FailEntry(id, token, category, retriable), config);
      assert willRetry ==> failed.entries[id := world.entries[id]] == world.entries;
      if willRetry && enqueueWorks && !ModelActive(world.entries, e.model) {
        var entries := world.entries[id := world.entries[id].(children := e.children + 1)];
        assert entries == failed.entries[id := entries[id]];
        world := world.(entries := entries + [NewEntry(e.model, retryCount + 1, Some(id))]);
      }
    }
  }

  // ----- invariants over every run ----------------------------------------

  /** Every change from open to terminal is undone or stands: nothing is lost or counted twice. */
  predicate Balanced(e: Entry) {
    && e.finished == e.revived + (if IsTerminal(e.status) then 1 else 0)
    && e.fenced <= e.finished
    && e.children + e.owed <= e.fenced + e.untokened
  }

  predicate AllBalanced(entries: seq<Entry>) {
    forall i :: 0 <= i < |entries| ==> Balanced(entries[i])
  }

  lemma {:induction false} StepBalanced(w: World, step: Step, config: RetryConfig)
    requires AllBalanced(w.entries)
    ensures AllBalanced(Next(w, step, config).entries)
  {
    var w' := Next(w, step, config);
    if !step.Enqueue? && step.id < |w.entries| {
      assert Balanced(w.entries[step.id]);
    }
    forall i | 0 <= i < |w'.entries|
      ensures Balanced(w'.entries[i])
    {
      assert i < |w.entries| ==> Balanced(w.entries[i]);
    }
  }

  lemma {:induction false} RunBalanced(steps: seq<Step>, config: RetryConfig)
    ensures AllBalanced(Run(steps, config).entries)
    decreases |steps|
  {
    if steps != [] {
      RunBalanced(steps[..|steps| - 1], config);
      StepBalanced(Run(steps[..|steps| - 1], config), steps[|steps| - 1], config);
    }
  }

  /**
   * Across all daemons and all runs, an entry is finished at most once more than
   * it was revived - by an unfenced status write or a requeue, the only two ways
   * back - so an entry nobody revives gets at most one applied terminal write, and
   * when every failure carries its token, at most one automatic retry.
   */
  lemma {:induction false} OneTerminalWriteOneRetry(steps: seq<Step>, config: RetryConfig, id: nat)
    requires id < |Run(steps, config).entries|
    ensures var e := Run(steps, config).entries[id];
            && e.fenced <= e.finished == e.revived + (if IsTerminal(e.status) then 1 else 0)
            && e.children + e.owed <= e.revived + 1 + e.untokened
            && (e.revived == 0 ==> e.finished <= 1 && (e.untokened == 0 ==> e.children + e.owed <= 1))
  {
    RunBalanced(steps, config);
    assert Balanced(Run(steps, config).entries[id]);
  }

  // ----- tokens --------------------------------------------------------------

  /** Live tokens were issued, to one entry each, and have not been spent; spent ones were spent once. */
  predicate TokensSound(w: World) {
    && (forall i :: 0 <= i < |w.entries| && w.entries[i].token.Some? ==>
      w.entries[i].token.value < w.nextToken && w.entries[i].token.value !in w.spent)
    && (forall i, j :: 0 <= i < j < |w.entries| && w.entries[i].token.Some? ==>
      w.entries[i].token != w.entries[j].token)
    && (forall k :: 0 <= k < |w.spent| ==> w.spent[k] < w.nextToken)
    && (forall k, l :: 0 <= k < l < |w.spent| ==> w.spent[k] != w.spent[l])
  }

  /** How a step may treat tokens: keep, drop, issue the next one, or spend a live one. */
  ghost predicate TokenStep(w: World, w': World, id: nat) {
    && id < |w.entries| <= |w'.entries|
    && (forall i :: 0 <= i < |w.entries| && i != id ==> w'.entries[i].token == w.entries[i].token)
    && (forall i :: |w.entries| <= i < |w'.entries| ==> w'.entries[i].token == None)
    && var before, after := w.entries[id].token, w'.entries[id].token;
       || (after in {before, None} && w'.nextToken == w.nextToken && w'.spent == w.spent)
       || (after == Some(w.nextToken) && w'.nextToken == w.nextToken + 1 && w'.spent == w.spent)
       || (before.Some? && after == None && w'.nextToken == w.nextToken && w'.spent == w.spent + [before.value])
  }

  lemma {:induction false} TokenStepSound(w: World, w': World, id: nat)
    requires TokensSound(w) && TokenStep(w, w', id)
    ensures TokensSound(w')
  {
    forall i | 0 <= i < |w'.entries| && w'.entries[i].token.Some?
      ensures w'.entries[i].token.value < w'.nextToken && w'.entries[i].token.value !in w'.spent
    {
      assert w'.entries[i].token == Some(w.nextToken) || w'.entries[i].token == w.entries[i].token;
    }
    forall i, j | 0 <= i < j < |w'.entries| && w'.entries[i].token.Some?
      ensures w'.entries[i].token != w'.entries[j].token
    {
      assert w'.entries[i].token == Some(w.nextToken) || w'.entries[i].token == w.entries[i].token;
      assert j < |w.entries| ==> w'.entries[j].token in {Some(w.nextToken), None, w.entries[j].token};
    }
  }

  lemma {:induction false} StepTokens(w: World, step: Step, config: RetryConfig)
    requires TokensSound(w)
    ensures TokensSound(Next(w, step, config))
  {
    if !step.Enqueue? && step.id < |w.entries| {
      TokenStepSound(w, Next(w, step, config), step.id);
    }
  }

  lemma {:induction false} RunTokens(steps: seq<Step>, config: RetryConfig)
    ensures TokensSound(Run(steps, config))
    decreases |steps|
  {
    if steps != [] {
      RunTokens(steps[..|steps| - 1], config);
      StepTokens(Run(steps[..|steps| - 1], config), steps[|steps| - 1], config);
    }
  }

  /**
   * Whatever else happens - revivals included - every claim pays for at most one
   * terminal write: once a fenced write with a token has been applied, no step of
   * any daemon presenting that token, to any entry, is ever applied again.
   */
  lemma {:induction false} SpentTokensAreDead(steps: seq<Step>, config: RetryConfig, k: nat, id: nat)
    requires k < |Run(steps, config).spent| && id < |Run(steps, config).entries|
    ensures !FencePasses(Run(steps, config).entries[id], Run(steps, config).spent[k])
    ensures forall l :: 0 <= l < |Run(steps, config).spent| && l != k ==>
              Run(steps, config).spent[l] != Run(steps, config).spent[k]
  {
    RunTokens(steps, config);
  }

  /** A token that was issued and that no entry carries. */
  predicate Displaced(w: World, token: nat) {
    && token < w.nextToken
    && forall i :: 0 <= i < |w.entries| ==> w.entries[i].token != Some(token)
  }

  lemma {:induction false} StepKeepsDisplaced(w: World, step: Step, config: RetryConfig, token: nat)
    requires Displaced(w, token)
    ensures Displaced(Next(w, step, config), token)
  {
    if !step.Enqueue? && step.id < |w.entries| {
      assert w.entries[step.id].token != Some(token);
    }
  }

  lemma {:induction false} RunMore(steps: seq<Step>, more: seq<Step>, config: RetryConfig)
    requires more != []
    ensures Run(steps + more, config) == Next(Run(steps + more[..|more| - 1], config), more[|more| - 1], config)
  {
    assert (steps + more)[..|steps + more| - 1] == steps + more[..|more| - 1];
  }

  lemma {:induction false} RunKeepsDisplaced(steps: seq<Step>, more: seq<Step>, config: RetryConfig, token: nat)
    requires Displaced(Run(steps, config), token)
    ensures Displaced(Run(steps + more, config), token)
    decreases |more|
  {
    if more == [] {
      assert steps + more == steps;
    } else {
      var front, last := more[..|more| - 1], more[|more| - 1];
      RunKeepsDisplaced(steps, front, config, token);
      RunMore(steps, more, config);
      StepKeepsDisplaced(Run(steps + front, config), last, config, token);
    }
  }

  /** Reclaiming or adopting an in-flight entry displaces the token it carried, everywhere. */
  lemma {:induction false} TakingDisplaces(steps: seq<Step>, take: Step, config: RetryConfig, token: nat)
    requires (take.Reclaim? || take.Adopt?) && take.id < |Run(steps, config).entries|
    requires var e := Run(steps, config).entries[take.id]; InFlight(e.status) && e.token == Some(token)
    ensures Displaced(Run(steps + [take], config), token)
  {
    RunTokens(steps, config);
    RunSnoc(steps, take, config);
  }

  /**
   * A daemon whose in-flight entry was reclaimed or adopted - a zombie - is fenced
   * out for good: whatever anybody does from then on, claims of the same entry by
   * others included, its token passes no fence on any entry, and neither its
   * terminal write nor its failure with its retry changes anything.
   */
  lemma {:induction false} ZombiesAreFenced(steps: seq<Step>, take: Step, more: seq<Step>, config: RetryConfig,
                                            token: nat, id: nat)
    requires (take.Reclaim? || take.Adopt?) && take.id < |Run(steps, config).entries|
    requires var e := Run(steps, config).entries[take.id]; InFlight(e.status) && e.token == Some(token)
    requires id < |Run(steps + [take] + more, config).entries|
    ensures var w := Run(steps + [take] + more, config);
            && !FencePasses(w.entries[id], token)
            && (forall status :: Next(w, Finish(id, status, token), config) == w)
            && (forall category, retriable :: Next(w, FailEntry(id, Some(token), category, retriable), config) == w)
  {
    TakingDisplaces(steps, take, config, token);
    RunKeepsDisplaced(steps + [take], more, config, token);
  }

  // ----- claims and open entries -------------------------------------------------

  /** Whoever is deploying or benchmarking holds a token, and nobody else does. */
  predicate AllHeld(entries: seq<Entry>) {
    forall i :: 0 <= i < |entries| ==> (entries[i].token.Some? <==> entries[i].status in {Deploying, Benchmarking})
  }

  /** The step marks an entry deploying or benchmarking that nobody has claimed. */
  predicate MarksUnclaimed(w: World, step: Step) {
    step.SetActive? && step.id < |w.entries| && w.entries[step.id].status !in {Deploying, Benchmarking}
  }

  /** No other step ever parts the claims from the statuses. */
  lemma {:induction false} StepHeld(w: World, step: Step, config: RetryConfig)
    requires AllHeld(w.entries)
    ensures AllHeld(Next(w, step, config).entries) <==> !MarksUnclaimed(w, step)
  {
    var w' := Next(w, step, config);
    if !step.Enqueue? && step.id < |w.entries| {
      var id := step.id;
      assert forall i :: 0 <= i < |w.entries| && i != id ==> w'.entries[i] == w.entries[i];
      if MarksUnclaimed(w, step) {
        assert w'.entries[id].token == None && w'.entries[id].status in {Deploying, Benchmarking};
      }
    }
  }

  /** At most one entry of each model is open. */
  predicate OneOpen(entries: seq<Entry>) {
    forall i, j :: 0 <= i < j < |entries| && entries[i].model == entries[j].model ==>
      entries[i].status in {Completed, FailedStatus, Cancelled} ||
      entries[j].status in {Completed, FailedStatus, Cancelled}
  }

  /** The step opens a closed entry again: the sweep of failed ones, or an unfenced status write. */
  predicate Revives(w: World, step: Step) {
    && (step.Requeue? || step.SetActive?) && step.id < |w.entries|
    && w.entries[step.id].status in (if step.Requeue? then {FailedStatus} else {Completed, FailedStatus, Cancelled})
  }

  lemma {:induction false} PutOneOpen(entries: seq<Entry>, id: nat, e: Entry)
    requires OneOpen(entries) && id < |entries| && e.model == entries[id].model
    ensures OneOpen(entries[id := e]) <==>
              e.status in {Completed, FailedStatus, Cancelled} || NoOtherActive(entries, id)
  {
    var after := entries[id := e];
    assert after[id] == e && forall i :: 0 <= i < |entries| && i != id ==> after[i] == entries[i];
    if !NoOtherActive(entries, id) && !IsTerminal(e.status) {
      var i :| 0 <= i < |entries| && i != id && entries[i].model == entries[id].model && !IsTerminal(entries[i].status);
      assert !IsTerminal(after[i].status) && !IsTerminal(after[id].status);
    }
  }

  lemma {:induction false} AppendOneOpen(entries: seq<Entry>, e: Entry)
    requires OneOpen(entries)
    ensures OneOpen(EnqueueEntry(entries, e))
  {
  }

  lemma {:induction false} SameActive(a: seq<Entry>, b: seq<Entry>, model: string)
    requires |a| == |b| && forall i :: 0 <= i < |a| ==> a[i].model == b[i].model && a[i].status == b[i].status
    ensures ModelActive(a, model) ==> ModelActive(b, model)
  {
    if ModelActive(a, model) {
      var i :| 0 <= i < |a| && a[i].model == model && !IsTerminal(a[i].status);
      assert b[i].model == model && !IsTerminal(b[i].status);
    }
  }

  lemma {:induction false} RespawnOneOpen(w: World, id: nat, config: RetryConfig)
    requires OneOpen(w.entries)
    ensures OneOpen(Next(w, Respawn(id), config).entries)
  {
    if id < |w.entries| && w.entries[id].owed > 0 {
      var e := w.entries[id];
      var paid, more := e.(owed := e.owed - 1), e.(owed := e.owed - 1, children := e.children + 1);
      PutOneOpen(w.entries, id, paid);
      PutOneOpen(w.entries, id, more);
      assert IsTerminal(e.status) || NoOtherActive(w.entries, id) by {
        PutOneOpen(w.entries, id, e);
        assert w.entries[id := e] == w.entries;
      }
      var entries := w.entries[id := paid];
      if !ModelActive(entries, e.model) {
        SameActive(w.entries[id := more], entries, e.model);
        AppendOneOpen(w.entries[id := more], NewEntry(e.model, e.retryCount + 1, Some(id)));
      }
    }
  }

  /** One open entry per model stays one, unless a closed entry is opened again beside an open one. */
  lemma {:induction false} StepOneOpen(w: World, step: Step, config: RetryConfig)
    requires OneOpen(w.entries)
    ensures OneOpen(Next(w, step, config).entries) <==>
              !(Revives(w, step) && !NoOtherActive(w.entries, step.id))
  {
    if step.Enqueue? {
      AppendOneOpen(w.entries, NewEntry(step.model, 0, None));
    } else if step.Respawn? {
      RespawnOneOpen(w, step.id, config);
    } else if step.id < |w.entries| {
      var id := step.id;
      var e := Next(w, step, config).entries[id];
      assert Next(w, step, config).entries == w.entries[id := e];
      PutOneOpen(w.entries, id, e);
      PutOneOpen(w.entries, id, w.entries[id]);
      assert w.entries[id := w.entries[id]] == w.entries;
    }
  }

  /** Every step that opens a closed entry again finds no other one of its model open. */
  predicate RevivesAlone(steps: seq<Step>, config: RetryConfig)
    decreases |steps|
  {
    steps != [] ==>
      var front, last := steps[..|steps| - 1], steps[|steps| - 1];
      && RevivesAlone(front, config)
      && (Revives(Run(front, config), last) ==> NoOtherActive(Run(front, config).entries, last.id))
  }

  /** In every run whose revivals find no other entry of the model open, each model has at most one open entry. */
  lemma {:induction false} RunOneOpen(steps: seq<Step>, config: RetryConfig)
    requires RevivesAlone(steps, config)
    ensures OneOpen(Run(steps, config).entries)
    decreases |steps|
  {
    if steps != [] {
      RunOneOpen(steps[..|steps| - 1], config);
      StepOneOpen(Run(steps[..|steps| - 1], config), steps[|steps| - 1], config);
    }
  }

  /** Which it need not: the sweep of failed entries revives one whose automatic retry is already waiting. */
  lemma {:induction false} SweepDoublesTheModel(config: RetryConfig)
    requires config.enabled && config.maxInfraRetries > 0
    ensures var w := Run(FailedOnce() + [Respawn(0)] + [Requeue(0)], config);
            && |w.entries| == 2 && w.entries[0].model == w.entries[1].model == "m"
            && w.entries[0].status == Pending && w.entries[1].status == Pending && !OneOpen(w.entries)
  {
    FailedOnceOwesRetry(config);
    RunSnoc(FailedOnce(), Respawn(0), config);
    RespawnInPlainTerms(Run(FailedOnce(), config), 0, config);
    RunSnoc(FailedOnce() + [Respawn(0)], Requeue(0), config);
  }

  function FailedOnce(): seq<Step> {
    [Enqueue("m")] + [Dequeue(0)] + [FailEntry(0, Some(0), TransientInfra, true)]
  }

  lemma {:induction false} FailedOnceOwesRetry(config: RetryConfig)
    requires config.enabled && config.maxInfraRetries > 0
    ensures Run(FailedOnce(), config) == World([Entry("m", FailedStatus, None, 0, None, 1, 0, 1, 0, 0, 1)], 1, [0])
  {
    RunSnoc([], Enqueue("m"), config);
    assert [] + [Enqueue("m")] == [Enqueue("m")];
    RunSnoc([Enqueue("m")], Dequeue(0), config);
    RunSnoc([Enqueue("m")] + [Dequeue(0)], FailEntry(0, Some(0), TransientInfra, true), config);
  }

  // ----- retry lineages --------------------------------------------------------

  /** How many automatic retries lie between an entry and the enqueue its lineage started with. */
  function Depth(entries: seq<Entry>, id: nat): nat
    requires Rooted(entries) && id < |entries|
    decreases id
  {
    if entries[id].parent.None? then 0 else Depth(entries, entries[id].parent.value) + 1
  }

  predicate Rooted(entries: seq<Entry>) {
    forall i :: 0 <= i < |entries| && entries[i].parent.Some? ==> entries[i].parent.value < i
  }

  function MaxBudget(config: RetryConfig): nat {
    if config.maxInfraRetries >= config.maxResourceFitRetries
    then config.maxInfraRetries else config.maxResourceFitRetries
  }

  /** A retry carries one more than its parent, and a parent owes one only below the budget. */
  predicate LineageOk(entries: seq<Entry>, i: nat, config: RetryConfig)
    requires Rooted(entries) && i < |entries|
  {
    var e := entries[i];
    && (if e.parent.None? then e.retryCount == 0 else e.retryCount == entries[e.parent.value].retryCount + 1)
    && e.retryCount <= MaxBudget(config)
    && (e.owed > 0 ==> e.retryCount < MaxBudget(config))
  }

  predicate Lineages(entries: seq<Entry>, config: RetryConfig) {
    Rooted(entries) && forall i :: 0 <= i < |entries| ==> LineageOk(entries, i, config)
  }

  /** Steps change no retry count and no parent of an existing entry. */
  lemma {:induction false} LineageIsImmutable(w: World, step: Step, config: RetryConfig)
    ensures var w' := Next(w, step, config);
            && |w'.entries| >= |w.entries|
            && forall i :: 0 <= i < |w.entries| ==>
              w'.entries[i].retryCount == w.entries[i].retryCount && w'.entries[i].parent == w.entries[i].parent
  {
  }

  lemma {:induction false} StepLineages(w: World, step: Step, config: RetryConfig)
    requires Lineages(w.entries, config)
    ensures Lineages(Next(w, step, config).entries, config)
  {
    var w' := Next(w, step, config);
    LineageIsImmutable(w, step, config);
    if !step.Enqueue? && step.id < |w.entries| {
      assert LineageOk(w.entries, step.id, config);
    }
    assert Rooted(w'.entries);
    forall i | 0 <= i < |w'.entries|
      ensures LineageOk(w'.entries, i, config)
    {
      assert i < |w.entries| ==> LineageOk(w.entries, i, config);
    }
  }

  lemma {:induction false} RunLineages(steps: seq<Step>, config: RetryConfig)
    ensures Lineages(Run(steps, config).entries, config)
    decreases |steps|
  {
    if steps != [] {
      RunLineages(steps[..|steps| - 1], config);
      StepLineages(Run(steps[..|steps| - 1], config), steps[|steps| - 1], config);
    }
  }

  lemma {:induction false} CountIsDepth(entries: seq<Entry>, config: RetryConfig, id: nat)
    requires Lineages(entries, config) && id < |entries|
    ensures entries[id].retryCount == Depth(entries, id)
    decreases id
  {
    assert LineageOk(entries, id, config);
    if entries[id].parent.Some? {
      CountIsDepth(entries, config, entries[id].parent.value);
    }
  }

  /**
   * Every lineage of automatic retries is finite and short: whatever the
   * classifier answers, on any daemon, an entry is at most as many retries away
   * from the enqueue that started its lineage as the larger of the two budgets.
   */
  lemma {:induction false} LineagesAreBounded(steps: seq<Step>, config: RetryConfig, id: nat)
    requires id < |Run(steps, config).entries|
    ensures Rooted(Run(steps, config).entries)
    ensures Depth(Run(steps, config).entries, id) <= MaxBudget(config)
  {
    RunLineages(steps, config);
    CountIsDepth(Run(steps, config).entries, config, id);
    assert LineageOk(Run(steps, config).entries, id, config);
  }

  // ----- the one hole --------------------------------------------------------------

  lemma {:induction false} RunSnoc(steps: seq<Step>, step: Step, config: RetryConfig)
    ensures Run(steps + [step], config) == Next(Run(steps, config), step, config)
  {
    assert (steps + [step])[..|steps|] == steps;
  }

  /** Claimed by one daemon, reclaimed from it, claimed and completed by another. */
  function CompletedByAnother(): seq<Step> {
    [Enqueue("m")] + [Dequeue(0)] + [Reclaim(0)] + [Dequeue(0)] + [Finish(0, Completed, 1)]
  }

  lemma {:induction false} CompletedOnce(config: RetryConfig)
    ensures Run(CompletedByAnother(), config) == World([Entry("m", Completed, None, 0, None, 1, 0, 1, 0, 0, 0)], 2, [1])
  {
    RunSnoc([], Enqueue("m"), config);
    assert [] + [Enqueue("m")] == [Enqueue("m")];
    RunSnoc([Enqueue("m")], Dequeue(0), config);
    RunSnoc([Enqueue("m")] + [Dequeue(0)], Reclaim(0), config);
    RunSnoc([Enqueue("m")] + [Dequeue(0)] + [Reclaim(0)], Dequeue(0), config);
    RunSnoc([Enqueue("m")] + [Dequeue(0)] + [Reclaim(0)] + [Dequeue(0)], Finish(0, Completed, 1), config);
  }

  /**
   * Fencing covers terminal writes only. The scheduler marks an entry deploying or
   * benchmarking without its token, so a daemon that stalled long enough to lose
   * its claim reopens an entry that another one completed - and the entry is
   * adopted and finished a second time.
   */
  lemma {:induction false} UnfencedStatusReopens(config: RetryConfig)
    ensures var w := Run(CompletedByAnother() + [SetActive(0, false)] + [Adopt(0)] + [Finish(0, FailedStatus, 2)],
                         config);
            |w.entries| == 1 && w.entries[0].fenced == 2 && w.entries[0].revived == 1 && w.spent == [1, 2]
  {
    CompletedOnce(config);
    var steps := CompletedByAnother();
    RunSnoc(steps, SetActive(0, false), config);
    RunSnoc(steps + [SetActive(0, false)], Adopt(0), config);
    RunSnoc(steps + [SetActive(0, false)] + [Adopt(0)], Finish(0, FailedStatus, 2), config);
  }
}
