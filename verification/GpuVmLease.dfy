// The cross-host lease on the shared GPU VM (src/services/gpu-vm-lease.ts).
//
// One Elasticsearch document records who owns the VM and when that owner last
// reported in. Daemons race for it with compare-and-set writes; heartbeats and
// releases are not fenced. The first half of the module models one daemon's
// calls as a class over the shared document. The second half models N daemons, with
// the steps of everybody's acquires, heartbeats and releases interleaved arbitrarily,
// and every request landing at any time after it was sent, or never.
module GpuVmLease {
  import opened Prelude

  /** A daemon's identity: the host it runs on and its process id. */
  datatype Owner = Owner(host: string, pid: int)

  /** `heartbeatAt` is None when the stored text does not parse as a date. */
  datatype Lease = Lease(owner: Owner, acquiredAt: int, heartbeatAt: Option<int>)

  datatype Stored = Stored(lease: Lease, seqNo: nat)

  /** The lease document, and the sequence number its next write receives. */
  datatype Index = Index(doc: Option<Stored>, nextSeqNo: nat)

  // ---------------------------------------------------------------------
  // What Elasticsearch does. None stands for the error status.
  // ---------------------------------------------------------------------

  function Put(ix: Index, lease: Lease): Index {
    Index(Some(Stored(lease, ix.nextSeqNo)), ix.nextSeqNo + 1)
  }

  /** `index` with `if_seq_no`; None is a 409. */
  function IndexIfSeqNo(ix: Index, seqNo: nat, lease: Lease): Option<Index> {
    if ix.doc.Some? && ix.doc.value.seqNo == seqNo then Some(Put(ix, lease)) else None
  }

  /** `create`; None is a 409. */
  function CreateDoc(ix: Index, lease: Lease): Option<Index> {
    if ix.doc.None? then Some(Put(ix, lease)) else None
  }

  /** `update` of the heartbeat alone, whoever owns the document; None is a 404. */
  function UpdateHeartbeat(ix: Index, at: int): Option<Index> {
    if ix.doc.Some? then Some(Put(ix, ix.doc.value.lease.(heartbeatAt := Some(at)))) else None
  }

  /** `delete`, whoever owns the document; None is a 404. */
  function DeleteDoc(ix: Index): Option<Index> {
    if ix.doc.Some? then Some(Index(None, ix.nextSeqNo + 1)) else None
  }

  // ---------------------------------------------------------------------
  // What a daemon decides from what it read.
  // ---------------------------------------------------------------------

  predicate IsFresh(lease: Lease, now: int, staleAfterMs: int) {
    match lease.heartbeatAt
    case None => false
    case Some(at) => now - at < staleAfterMs
  }

  /** `holderAlive` is what the local process table says of the holder's pid. */
  predicate IsSameHostDeadOwner(lease: Lease, self: Owner, holderAlive: bool) {
    lease.owner.host == self.host && lease.owner.pid != self.pid && !holderAlive
  }

  predicate ShouldRefuse(lease: Lease, self: Owner, holderAlive: bool, now: int, staleAfterMs: int) {
    && IsFresh(lease, now, staleAfterMs)
    && lease.owner != self
    && !IsSameHostDeadOwner(lease, self, holderAlive)
  }

  /** The document an acquire writes: the acquisition time survives only when the lease was already ours. */
  function BuildDoc(seen: Option<Stored>, self: Owner, now: int): Lease {
    var acquiredAt := if seen.Some? && seen.value.lease.owner == self then seen.value.lease.acquiredAt else now;
    Lease(self, acquiredAt, Some(now))
  }

  /** The compare-and-set an acquire sends after reading `seen`. */
  function CompareAndSet(ix: Index, seen: Option<Stored>, lease: Lease): Option<Index> {
    if seen.Some? then IndexIfSeqNo(ix, seen.value.seqNo, lease) else CreateDoc(ix, lease)
  }

  // ---------------------------------------------------------------------
  // One daemon
  // ---------------------------------------------------------------------

  datatype AcquireResult =
    | Acquired
    | HeldBy(holder: Lease, ageMs: int, staleAfterMs: int)
    | Contended
    | Errored

  /** How a call to Elasticsearch ends: answered, failed before it applied, or applied with the answer lost. */
  datatype Call = Answered | Failed | AnswerLost

  /** A write some other process applies to the document. */
  datatype RivalWrite = RivalPut(lease: Lease) | RivalBeat(at: int) | RivalDelete

  function RivalApply(ix: Index, write: RivalWrite): Index {
    match write
    case RivalPut(lease) => Put(ix, lease)
    case RivalBeat(at) => UpdateHeartbeat(ix, at).GetOr(ix)
    case RivalDelete => DeleteDoc(ix).GetOr(ix)
  }

  function RivalApplyAll(ix: Index, writes: seq<RivalWrite>): Index
    decreases |writes|
  {
    if writes == [] then ix else RivalApplyAll(RivalApply(ix, writes[0]), writes[1..])
  }

  /** Rival writes never bring a version back: the document read is either untouched or gone for good. */
  lemma {:induction false} RivalsLeaveOrReplace(ix: Index, writes: seq<RivalWrite>)
    ensures RivalApplyAll(ix, writes).nextSeqNo >= ix.nextSeqNo
    ensures RivalApplyAll(ix, writes).nextSeqNo == ix.nextSeqNo ==> RivalApplyAll(ix, writes) == ix
    ensures RivalApplyAll(ix, writes).doc.Some? && RivalApplyAll(ix, writes).doc.value.seqNo < ix.nextSeqNo
            ==> RivalApplyAll(ix, writes) == ix
    decreases |writes|
  {
    if writes != [] {
      RivalsLeaveOrReplace(RivalApply(ix, writes[0]), writes[1..]);
    }
  }

  /** Nobody's lease, or one that need not be refused. */
  predicate MayTake(seen: Option<Stored>, self: Owner, holderAlive: bool, now: int, staleAfterMs: int) {
    seen.Some? ==> !ShouldRefuse(seen.value.lease, self, holderAlive, now, staleAfterMs)
  }

  /** The lease read is still the one there, untouched; a lease found missing is still missing. */
  predicate Unraced(read: Index, raced: Index) {
    if read.doc.Some? then raced == read else raced.doc.None?
  }

  class LeaseIndex {
    var ix: Index

    constructor ()
      ensures ix == Index(None, 0)
    {
      ix := Index(None, 0);
    }
  }

  class GpuVmLeaseService {
    const store: LeaseIndex
    const self: Owner
    const staleAfterMs: int
    var owns: bool

    constructor (store: LeaseIndex, self: Owner, staleAfterMs: int)
      ensures this.store == store && this.self == self && this.staleAfterMs == staleAfterMs && !owns
    {
      this.store := store;
      this.self := self;
      this.staleAfterMs := staleAfterMs;
      owns := false;
    }

    /**
     * One acquire. `rivals` are the writes that reach the document between this
     * daemon's read and its write; `now` is the clock when the decision is made
     * and `later` the clock when a lost race is looked at again.
     */
    method Acquire(now: int, later: int, holderAlive: bool, laterAlive: bool, read: bool, write: Call,
                   reread: bool, rivals: seq<RivalWrite>) returns (result: AcquireResult)
      requires store.ix.doc.Some? ==> store.ix.doc.value.seqNo < store.ix.nextSeqNo
      modifies this, store
      ensures owns == (old(owns) || result == Acquired)
      ensures !read ==> result == Errored && store.ix == old(store.ix)
      // A fresh lease of a live rival is left alone, and reported with its age.
      ensures read && !MayTake(old(store.ix).doc, self, holderAlive, now, staleAfterMs) ==>
                && store.ix == old(store.ix)
                && result.HeldBy? && result.holder == old(store.ix).doc.value.lease
                && result.ageMs == now - result.holder.heartbeatAt.value && result.staleAfterMs == staleAfterMs
      // Otherwise its write replaces the very version that was read - or the lease
      // still missing - and nothing else: after a lost race nothing is written.
      ensures read && MayTake(old(store.ix).doc, self, holderAlive, now, staleAfterMs) ==>
                var raced := RivalApplyAll(old(store.ix), rivals);
                && store.ix == (if write != Failed && Unraced(old(store.ix), raced)
                                then Put(raced, BuildDoc(old(store.ix).doc, self, now)) else raced)
                && (result == Acquired <==> write == Answered && Unraced(old(store.ix), raced))
                // A lost race names the winner if that one is fresh and not us.
                && (result.HeldBy? <==>
                      && write == Answered && !Unraced(old(store.ix), raced)
                      && reread && !MayTake(raced.doc, self, laterAlive, later, staleAfterMs))
                && (result.HeldBy? ==> result.holder == raced.doc.value.lease && result.staleAfterMs == staleAfterMs)
                && (result == Contended <==>
                      && write == Answered && !Unraced(old(store.ix), raced)
                      && reread && MayTake(raced.doc, self, laterAlive, later, staleAfterMs))
      // In plain terms: undisturbed, it succeeds exactly when there is no lease, or
      // the lease is ours, unreadable, old enough, or left by a dead process here.
      ensures read && write == Answered && rivals == [] && old(store.ix).doc.Some? ==>
                var lease := old(store.ix).doc.value.lease;
                (result == Acquired <==>
                   || lease.owner == self
                   || lease.heartbeatAt.None?
                   || now - lease.heartbeatAt.value >= staleAfterMs
                   || (lease.owner.host == self.host && !holderAlive))
      ensures read && write == Answered && rivals == [] && old(store.ix).doc.None? ==> result == Acquired
      // The lease written is ours, beats now, and dates from now unless it was ours before.
      ensures result == Acquired ==>
                && store.ix.doc.Some? && store.ix.doc.value.lease.owner == self
                && store.ix.doc.value.lease.heartbeatAt == Some(now)
                && store.ix.doc.value.lease.acquiredAt ==
                   (if old(store.ix).doc.Some? && old(store.ix).doc.value.lease.owner == self
                    then old(store.ix).doc.value.lease.acquiredAt else now)
    {
      if !read {
        return Errored;
      }
      var seen := store.ix.doc;
      if seen.Some? && ShouldRefuse(seen.value.lease, self, holderAlive, now, staleAfterMs) {
        var age := now - seen.value.lease.heartbeatAt.value;
        return HeldBy(seen.value.lease, age, staleAfterMs);
      }
      var lease := BuildDoc(seen, self, now);
      RivalsLeaveOrReplace(store.ix, rivals);
      store.ix := RivalApplyAll(store.ix, rivals);
      if write == Failed {
        return Errored;
      }
      var applied := CompareAndSet(store.ix, seen, lease);
      if applied.None? {
        if write == AnswerLost {
          return Errored;
        }
        result := RefuseAfterConflict(later, laterAlive, reread);
        return;
      }
      store.ix := applied.value;
      if write == AnswerLost {
        return Errored;
      }
      owns := true;
      return Acquired;
    }

    /** After a 409: name the winner if it is fresh and not us, otherwise just report the race. Never a success. */
    method RefuseAfterConflict(now: int, holderAlive: bool, read: bool) returns (result: AcquireResult)
      ensures result != Acquired
      ensures result.HeldBy? <==>
                && read && store.ix.doc.Some?
                && ShouldRefuse(store.ix.doc.value.lease, self, holderAlive, now, staleAfterMs)
      ensures result.HeldBy? ==> result.holder == store.ix.doc.value.lease && result.staleAfterMs == staleAfterMs
      ensures result.Errored? <==> !read
    {
      if !read {
        return Errored;
      }
      var current := store.ix.doc;
      if current.Some? && ShouldRefuse(current.value.lease, self, holderAlive, now, staleAfterMs) {
        return HeldBy(current.value.lease, now - current.value.lease.heartbeatAt.value, staleAfterMs);
      }
      return Contended;
    }

    /** Not fenced: an owner that lost the document without noticing refreshes its successor's heartbeat. */
    method Heartbeat(now: int, call: Call)
      modifies store
      ensures !owns || call == Failed || old(store.ix).doc.None? ==> store.ix == old(store.ix)
      ensures owns && call != Failed && old(store.ix).doc.Some? ==>
                && store.ix.doc == Some(Stored(old(store.ix).doc.value.lease.(heartbeatAt := Some(now)),
                                               old(store.ix).nextSeqNo))
                && store.ix.nextSeqNo == old(store.ix).nextSeqNo + 1
    {
      if !owns {
        return;
      }
      if call != Failed {
        store.ix := UpdateHeartbeat(store.ix, now).GetOr(store.ix);
      }
    }

    /** Not fenced either. A 404 counts as released; any other failure leaves `owns` set. */
    method Release(call: Call)
      modifies this, store
      ensures !old(owns) ==> !owns && store.ix == old(store.ix)
      ensures old(owns) && call == Answered ==> !owns && store.ix.doc == None
      ensures old(owns) && call == Failed ==> owns && store.ix == old(store.ix)
      ensures old(owns) && call == AnswerLost ==> owns && store.ix.doc == None
    {
      if !owns {
        return;
      }
      if call == Failed {
        return;
      }
      store.ix := DeleteDoc(store.ix).GetOr(store.ix);
      if call == Answered {
        owns := false;
      }
    }
  }

  // ---------------------------------------------------------------------
  // N daemons
  // ---------------------------------------------------------------------

  /**
   * A write under way to Elasticsearch. It may land at any time after it was sent,
   * or never, and its sender may have given up on it, or died, by then.
   */
  datatype Request =
    | TakeOver(who: Owner, based: Option<Stored>, lease: Lease)
    | SetHeartbeat(at: int)
    | DeleteLease(who: Owner)

  /** Where a daemon stands in an acquire or a release. */
  datatype Phase =
    | Resting
    | HasRead(seen: Option<Stored>)
    | Sending(based: Option<Stored>, lease: Lease)
    | Applied
    | Releasing(landed: bool)

  datatype Daemon = Daemon(owns: bool, alive: bool, phase: Phase)

  datatype World = World(clock: int, index: Index, daemons: map<Owner, Daemon>, wire: multiset<Request>)

  datatype Step =
    | Tick(ms: nat)
    | Read(who: Owner)
    | DecideNow(who: Owner)
    | Beat(who: Owner)
    | LetGo(who: Owner)
    | Land(request: Request)
    | Answer(who: Owner)
    | GiveUp(who: Owner)
    | Crash(who: Owner)

  predicate Alive(w: World, who: Owner) {
    who in w.daemons && w.daemons[who].alive
  }

  function With(w: World, who: Owner, d: Daemon): World
    requires who in w.daemons
  {
    w.(daemons := w.daemons[who := d])
  }

  function Send(w: World, request: Request): World {
    w.(wire := w.wire + multiset{request})
  }

  /** A request lands; its sender moves on only if it is alive and still waiting for it. */
  function LandRequest(w: World, request: Request): World
    requires request in w.wire
  {
    var sent := w.(wire := w.wire - multiset{request});
    match request
    case TakeOver(who, based, lease) =>
      var applied := CompareAndSet(w.index, based, lease);
      var waiting := Alive(w, who) && w.daemons[who].phase == Sending(based, lease);
      var landed := sent.(index := applied.GetOr(w.index));
      if !waiting then landed
      else With(landed, who, w.daemons[who].(phase := if applied.Some? then Applied else Resting))
    case SetHeartbeat(at) => sent.(index := UpdateHeartbeat(w.index, at).GetOr(w.index))
    case DeleteLease(who) =>
      var landed := sent.(index := DeleteDoc(w.index).GetOr(w.index));
      if WaitsForDelete(w, who) then With(landed, who, w.daemons[who].(phase := Releasing(true))) else landed
  }

  predicate WaitsForDelete(w: World, who: Owner) {
    Alive(w, who) && w.daemons[who].phase == Releasing(false)
  }

  /** One step; a step that is not enabled changes nothing. */
  function Next(w: World, step: Step, staleAfterMs: int): World {
    if step.Tick? then w.(clock := w.clock + step.ms)
    else if step.Land? then if step.request in w.wire then LandRequest(w, step.request) else w
    else if !Alive(w, step.who) then w
    else
      var who, d := step.who, w.daemons[step.who];
      match step
      case Read(_) =>
        if d.phase.Resting? then With(w, who, d.(phase := HasRead(w.index.doc))) else w
      case DecideNow(_) => if d.phase.HasRead? then Decide(w, who, d, d.phase.seen, staleAfterMs) else w
      // The clock is read when the request is sent, not when it lands.
      case Beat(_) => if d.owns then Send(w, SetHeartbeat(w.clock)) else w
      case LetGo(_) =>
        if d.owns && d.phase.Resting? then Send(With(w, who, d.(phase := Releasing(false))), DeleteLease(who)) else w
      case Answer(_) =>
        if d.phase.Applied? then With(w, who, d.(phase := Resting, owns := true))
        else if d.phase == Releasing(true) then With(w, who, d.(phase := Resting, owns := false))
        else w
      // An error, a timeout or a lost answer: `owns` stays as it is, whatever became of the request.
      case GiveUp(_) => if d.phase.HasRead? then w else With(w, who, d.(phase := Resting))
      case Crash(_) => With(w, who, d.(alive := false))
  }

  /** Refuse a fresh lease of a live rival, or send the compare-and-set for the version read. */
  function Decide(w: World, who: Owner, d: Daemon, seen: Option<Stored>, staleAfterMs: int): World
    requires who in w.daemons
  {
    if seen.Some? && ShouldRefuse(seen.value.lease, who, Alive(w, seen.value.lease.owner), w.clock, staleAfterMs)
    then With(w, who, d.(phase := Resting))
    else
      var lease := BuildDoc(seen, who, w.clock);
      Send(With(w, who, d.(phase := Sending(seen, lease))), TakeOver(who, seen, lease))
  }

  function Run(w: World, steps: seq<Step>, staleAfterMs: int): World
    decreases |steps|
  {
    if steps == [] then w
    else Next(Run(w, steps[..|steps| - 1], staleAfterMs), steps[|steps| - 1], staleAfterMs)
  }

  /** Nobody holds anything yet and nothing is under way; an old lease document may be lying around. */
  predicate Start(w: World) {
    && (w.index.doc.Some? ==> w.index.doc.value.seqNo < w.index.nextSeqNo)
    && w.wire == multiset{}
    && forall who | who in w.daemons :: !w.daemons[who].owns && w.daemons[who].phase.Resting?
  }

  predicate LiveOwner(w: World, who: Owner) {
    Alive(w, who) && w.daemons[who].owns
  }

  // ----- what holds in every run, whatever the timing ------------------

  predicate KnownVersion(ix: Index, v: Option<Stored>) {
    v.Some? ==>
      && v.value.seqNo < ix.nextSeqNo
      && (ix.doc.Some? && ix.doc.value.seqNo == v.value.seqNo ==> ix.doc == v)
  }

  /** What a decision to take over rests on: nobody there, ourselves, a dead local process, or a silent holder. */
  predicate MayDisplace(w: World, seen: Option<Stored>, who: Owner, staleAfterMs: int) {
    seen.Some? ==>
      || seen.value.lease.owner == who
      || !IsFresh(seen.value.lease, w.clock, staleAfterMs)
      || (seen.value.lease.owner.host == who.host && !Alive(w, seen.value.lease.owner))
  }

  /** A version read is a version that was there, and a daemon releasing is one that owns. */
  predicate DaemonOk(w: World, d: Daemon) {
    && (d.phase.HasRead? ==> KnownVersion(w.index, d.phase.seen))
    && (d.phase.Releasing? ==> d.owns)
  }

  /** A takeover under way is based on a version its sender may displace. */
  predicate RequestOk(w: World, request: Request, staleAfterMs: int) {
    request.TakeOver? ==>
      && KnownVersion(w.index, request.based)
      && MayDisplace(w, request.based, request.who, staleAfterMs)
      && request.lease.owner == request.who && request.lease.heartbeatAt.Some?
  }

  predicate Consistent(w: World, staleAfterMs: int) {
    && KnownVersion(w.index, w.index.doc)
    && (forall who | who in w.daemons :: DaemonOk(w, w.daemons[who]))
    && (forall request | request in w.wire :: RequestOk(w, request, staleAfterMs))
  }

  /** The document is left alone or gets a version nobody has seen. */
  predicate NewVersion(ix: Index, ix': Index) {
    ix' == ix || (ix'.nextSeqNo == ix.nextSeqNo + 1 && (ix'.doc.Some? ==> ix'.doc.value.seqNo == ix.nextSeqNo))
  }

  /** The world moves on: time passes, versions are new, the dead stay dead. */
  ghost predicate MovesOn(w: World, w': World) {
    && w'.clock >= w.clock && w'.daemons.Keys == w.daemons.Keys
    && (forall who :: Alive(w', who) ==> Alive(w, who))
    && NewVersion(w.index, w'.index)
  }

  lemma {:induction false} LandingMovesOn(w: World, request: Request)
    requires request in w.wire
    ensures MovesOn(w, LandRequest(w, request))
  {
    var who := if request.SetHeartbeat? then None else Some(request.who);
    assert who.Some? && Alive(w, who.value) ==> who.value in w.daemons;
  }

  lemma {:induction false} StepMovesOn(w: World, step: Step, staleAfterMs: int)
    ensures MovesOn(w, Next(w, step, staleAfterMs))
  {
    if step.Land? && step.request in w.wire {
      LandingMovesOn(w, step.request);
    }
  }

  /** What was known of a version, and what entitles to displace it, stays true as the world moves on. */
  lemma {:induction false} StaysOk(w: World, w': World, request: Request, staleAfterMs: int)
    requires MovesOn(w, w') && RequestOk(w, request, staleAfterMs)
    ensures RequestOk(w', request, staleAfterMs)
  {
  }

  lemma {:induction false} DaemonStaysOk(w: World, w': World, d: Daemon)
    requires MovesOn(w, w') && DaemonOk(w, d)
    ensures DaemonOk(w', d)
  {
  }

  lemma {:induction false} LandingKeepsDaemon(w: World, request: Request, who: Owner, staleAfterMs: int)
    requires Consistent(w, staleAfterMs) && who in w.daemons && request in w.wire
    ensures who in LandRequest(w, request).daemons
    ensures DaemonOk(LandRequest(w, request), LandRequest(w, request).daemons[who])
  {
    LandingMovesOn(w, request);
    DaemonStaysOk(w, LandRequest(w, request), w.daemons[who]);
  }

  lemma {:induction false} StepKeepsDaemon(w: World, step: Step, who: Owner, staleAfterMs: int)
    requires Consistent(w, staleAfterMs) && who in w.daemons
    ensures who in Next(w, step, staleAfterMs).daemons
    ensures DaemonOk(Next(w, step, staleAfterMs), Next(w, step, staleAfterMs).daemons[who])
  {
    if step.Land? && step.request in w.wire {
      LandingKeepsDaemon(w, step.request, who, staleAfterMs);
    } else {
      assert DaemonOk(w, w.daemons[who]);
    }
  }

  lemma {:induction false} StepKeepsRequest(w: World, step: Step, request: Request, staleAfterMs: int)
    requires Consistent(w, staleAfterMs) && request in Next(w, step, staleAfterMs).wire
    ensures RequestOk(Next(w, step, staleAfterMs), request, staleAfterMs)
  {
    StepMovesOn(w, step, staleAfterMs);
    if request in w.wire {
      StaysOk(w, Next(w, step, staleAfterMs), request, staleAfterMs);
    } else if step.DecideNow? {
      assert DaemonOk(w, w.daemons[step.who]);
    }
  }

  lemma {:induction false} StepKeepsConsistent(w: World, step: Step, staleAfterMs: int)
    requires Consistent(w, staleAfterMs)
    ensures Consistent(Next(w, step, staleAfterMs), staleAfterMs)
  {
    var w' := Next(w, step, staleAfterMs);
    StepMovesOn(w, step, staleAfterMs);
    forall who | who in w'.daemons
      ensures DaemonOk(w', w'.daemons[who])
    {
      StepKeepsDaemon(w, step, who, staleAfterMs);
    }
    forall request | request in w'.wire
      ensures RequestOk(w', request, staleAfterMs)
    {
      StepKeepsRequest(w, step, request, staleAfterMs);
    }
  }

  lemma {:induction false} ConsistentRun(w: World, steps: seq<Step>, staleAfterMs: int)
    requires Consistent(w, staleAfterMs)
    ensures Consistent(Run(w, steps, staleAfterMs), staleAfterMs)
    decreases |steps|
  {
    if steps != [] {
      ConsistentRun(w, steps[..|steps| - 1], staleAfterMs);
      StepKeepsConsistent(Run(w, steps[..|steps| - 1], staleAfterMs), steps[|steps| - 1], staleAfterMs);
    }
  }

  lemma {:induction false} RunConsistent(w: World, steps: seq<Step>, staleAfterMs: int)
    requires Start(w)
    ensures Consistent(Run(w, steps, staleAfterMs), staleAfterMs)
  {
    ConsistentRun(w, steps, staleAfterMs);
  }

  /**
   * In every run of any number of daemons, with no assumption on timing: when a
   * takeover lands and replaces a lease, the lease replaced is the very version
   * that was read, and its holder is the sender, a dead process of the sender's
   * host, or silent for at least the staleness window at that moment.
   */
  lemma {:induction false} TakeoverDisplacesOnlyTheSilent(w: World, steps: seq<Step>, request: Request,
                                                          staleAfterMs: int)
    requires Start(w) && request.TakeOver?
    requires var before := Run(w, steps, staleAfterMs);
             && request in before.wire && before.index.doc.Some?
             && Next(before, Land(request), staleAfterMs).index != before.index
    ensures var before := Run(w, steps, staleAfterMs);
            var after, old_ := Next(before, Land(request), staleAfterMs), before.index.doc.value.lease;
            && request.based == before.index.doc
            && after.index.doc.Some? && after.index.doc.value.lease.owner == request.who
            && (|| old_.owner == request.who
                || (old_.owner.host == request.who.host && !Alive(before, old_.owner))
                || old_.heartbeatAt.None?
                || before.clock - old_.heartbeatAt.value >= staleAfterMs)
  {
    RunConsistent(w, steps, staleAfterMs);
    assert RequestOk(Run(w, steps, staleAfterMs), request, staleAfterMs);
  }

  /** From a point on, the version read is either still there untouched, or never comes back. */
  lemma {:induction false} VersionNeverReturns(w: World, steps: seq<Step>, v: Stored, staleAfterMs: int)
    requires v.seqNo < w.index.nextSeqNo
    ensures var w' := Run(w, steps, staleAfterMs);
            && w'.index.nextSeqNo >= w.index.nextSeqNo
            && (w'.index.nextSeqNo == w.index.nextSeqNo ==> w'.index == w.index)
            && (w'.index.doc == Some(v) ==> w'.index == w.index)
    decreases |steps|
  {
    if steps != [] {
      var front := steps[..|steps| - 1];
      VersionNeverReturns(w, front, v, staleAfterMs);
      StepMovesOn(Run(w, front, staleAfterMs), steps[|steps| - 1], staleAfterMs);
    }
  }

  lemma {:induction false} NextSeqNoGrows(w: World, steps: seq<Step>, k: nat, staleAfterMs: int)
    requires k <= |steps|
    ensures Run(w, steps[..k], staleAfterMs).index.nextSeqNo <= Run(w, steps, staleAfterMs).index.nextSeqNo
    decreases |steps|
  {
    if k < |steps| {
      var front := steps[..|steps| - 1];
      assert front[..k] == steps[..k];
      NextSeqNoGrows(w, front, k, staleAfterMs);
      StepMovesOn(Run(w, front, staleAfterMs), steps[|steps| - 1], staleAfterMs);
    } else {
      assert steps[..k] == steps;
    }
  }

  /**
   * The compare-and-set really guards the whole window between read and write:
   * if a takeover based on a lease that a daemon has read still goes through after
   * `between`, then no write of anybody - heartbeat, release or rival takeover -
   * reached the document at any point in between.
   */
  lemma {:induction false} AppliedWriteSawNoOtherWrite(w: World, reader: Owner, between: seq<Step>, request: Request,
                                                       staleAfterMs: int)
    requires Consistent(w, staleAfterMs)
    requires reader in w.daemons && w.daemons[reader].phase.HasRead? && w.daemons[reader].phase.seen.Some?
    requires var w' := Run(w, between, staleAfterMs);
             && request in w'.wire && request.TakeOver? && request.based == w.daemons[reader].phase.seen
             && Next(w', Land(request), staleAfterMs).index != w'.index
    ensures forall k :: 0 <= k <= |between| ==> Run(w, between[..k], staleAfterMs).index == w.index
  {
    var v := w.daemons[reader].phase.seen.value;
    assert DaemonOk(w, w.daemons[reader]);
    VersionNeverReturns(w, between, v, staleAfterMs);
    ConsistentRun(w, between, staleAfterMs);
    assert RequestOk(Run(w, between, staleAfterMs), request, staleAfterMs);
    forall k | 0 <= k <= |between|
      ensures Run(w, between[..k], staleAfterMs).index == w.index
    {
      NextSeqNoGrows(w, between, k, staleAfterMs);
      VersionNeverReturns(w, between[..k], v, staleAfterMs);
    }
  }

  // ----- mutual exclusion ----------------------------------------------

  /**
   * A live daemon whose takeover has landed - answered or not - and whose release
   * has not. Between the landing of a delete and its answer a daemon still
   * believes, but holds nothing.
   */
  predicate Holder(w: World, who: Owner) {
    && Alive(w, who)
    && (w.daemons[who].owns || w.daemons[who].phase.Applied?)
    && w.daemons[who].phase != Releasing(true)
  }

  /** The timing hypothesis: while somebody holds the lease, the document shows a fresh heartbeat. */
  predicate OnTime(w: World, staleAfterMs: int) {
    (exists who :: who in w.daemons && Holder(w, who)) ==>
      w.index.doc.Some? ==> IsFresh(w.index.doc.value.lease, w.clock, staleAfterMs)
  }

  /** No delete takes effect unheard of: it lands while its sender waits for it, and its answer is not lost. */
  predicate Heard(w: World, step: Step) {
    match step
    case Land(DeleteLease(who)) => WaitsForDelete(w, who)
    case GiveUp(who) => Alive(w, who) ==> w.daemons[who].phase != Releasing(true)
    case _ => true
  }

  predicate Recorded(w: World, who: Owner) {
    w.index.doc.Some? && w.index.doc.value.lease.owner == who
  }

  predicate HoldersRecorded(w: World) {
    forall who | who in w.daemons && Holder(w, who) :: Recorded(w, who)
  }

  /** A takeover that lands displaces no holder but its own sender. */
  lemma {:induction false} TakeoverSparesHolders(w: World, request: Request, who: Owner, staleAfterMs: int)
    requires Consistent(w, staleAfterMs) && HoldersRecorded(w) && OnTime(w, staleAfterMs)
    requires request in w.wire && request.TakeOver?
    requires who in w.daemons && Holder(w, who) && who != request.who
    ensures CompareAndSet(w.index, request.based, request.lease).None?
  {
    assert RequestOk(w, request, staleAfterMs);
    assert Recorded(w, who);
  }

  /** A delete that lands while its sender waits for it was its sender's to send, and leaves no holder. */
  lemma {:induction false} DeleteLeavesNobody(w: World, sender: Owner, who: Owner, staleAfterMs: int)
    requires Consistent(w, staleAfterMs) && HoldersRecorded(w)
    requires DeleteLease(sender) in w.wire && WaitsForDelete(w, sender)
    ensures !Holder(LandRequest(w, DeleteLease(sender)), who)
  {
    assert DaemonOk(w, w.daemons[sender]);
    assert Holder(w, sender) && Recorded(w, sender);
  }

  lemma {:induction false} LandingKeepsHolder(w: World, request: Request, who: Owner, staleAfterMs: int)
    requires Consistent(w, staleAfterMs) && HoldersRecorded(w)
    requires OnTime(w, staleAfterMs) && request in w.wire && Heard(w, Land(request))
    ensures Holder(LandRequest(w, request), who) ==> Recorded(LandRequest(w, request), who)
  {
    match request
    case TakeOver(sender, based, lease) =>
      assert RequestOk(w, request, staleAfterMs);
      if Holder(w, who) && who != sender {
        TakeoverSparesHolders(w, request, who, staleAfterMs);
      }
    case SetHeartbeat(_) =>
    case DeleteLease(sender) => DeleteLeavesNobody(w, sender, who, staleAfterMs);
  }

  lemma {:induction false} StepKeepsHolder(w: World, step: Step, who: Owner, staleAfterMs: int)
    requires Consistent(w, staleAfterMs) && HoldersRecorded(w)
    requires OnTime(w, staleAfterMs) && Heard(w, step)
    ensures Holder(Next(w, step, staleAfterMs), who) ==> Recorded(Next(w, step, staleAfterMs), who)
  {
    if step.Land? && step.request in w.wire {
      LandingKeepsHolder(w, step.request, who, staleAfterMs);
    }
  }

  lemma {:induction false} StepKeepsHolders(w: World, step: Step, staleAfterMs: int)
    requires Consistent(w, staleAfterMs) && HoldersRecorded(w)
    requires OnTime(w, staleAfterMs) && Heard(w, step)
    ensures HoldersRecorded(Next(w, step, staleAfterMs))
  {
    var w' := Next(w, step, staleAfterMs);
    forall who | who in w'.daemons && Holder(w', who)
      ensures Recorded(w', who)
    {
      StepKeepsHolder(w, step, who, staleAfterMs);
    }
  }

  /** The document was fresh, and every delete heard of, at every step of the run. */
  predicate WellBehaved(w: World, steps: seq<Step>, staleAfterMs: int) {
    forall k :: 0 <= k < |steps| ==>
      OnTime(Run(w, steps[..k], staleAfterMs), staleAfterMs) && Heard(Run(w, steps[..k], staleAfterMs), steps[k])
  }

  lemma {:induction false} WellBehavedFront(w: World, steps: seq<Step>, staleAfterMs: int)
    requires steps != [] && WellBehaved(w, steps, staleAfterMs)
    ensures var front, last := steps[..|steps| - 1], steps[|steps| - 1];
            && WellBehaved(w, front, staleAfterMs)
            && OnTime(Run(w, front, staleAfterMs), staleAfterMs) && Heard(Run(w, front, staleAfterMs), last)
  {
    var front := steps[..|steps| - 1];
    forall k | 0 <= k < |front|
      ensures OnTime(Run(w, front[..k], staleAfterMs), staleAfterMs)
      ensures Heard(Run(w, front[..k], staleAfterMs), front[k])
    {
      assert front[..k] == steps[..k];
    }
  }

  lemma {:induction false} RunKeepsHolders(w: World, steps: seq<Step>, staleAfterMs: int)
    requires Start(w) && WellBehaved(w, steps, staleAfterMs)
    ensures HoldersRecorded(Run(w, steps, staleAfterMs))
    decreases |steps|
  {
    if steps != [] {
      var front := steps[..|steps| - 1];
      WellBehavedFront(w, steps, staleAfterMs);
      RunKeepsHolders(w, front, staleAfterMs);
      RunConsistent(w, front, staleAfterMs);
      StepKeepsHolders(Run(w, front, staleAfterMs), steps[|steps| - 1], staleAfterMs);
    }
  }

  /**
   * Mutual exclusion over every interleaving of any number of daemons, with
   * requests that land late, after their sender gave up, released or died. As long
   * as the document is fresh whenever somebody holds it and no delete takes effect
   * unheard of, at most one live daemon that believes it owns the VM has not had
   * its delete applied, and the document names that daemon.
   */
  lemma {:induction false} MutualExclusion(w: World, steps: seq<Step>, staleAfterMs: int, a: Owner, b: Owner)
    requires Start(w) && WellBehaved(w, steps, staleAfterMs)
    requires var end := Run(w, steps, staleAfterMs);
             && LiveOwner(end, a) && end.daemons[a].phase != Releasing(true)
             && LiveOwner(end, b) && end.daemons[b].phase != Releasing(true)
    ensures a == b && Recorded(Run(w, steps, staleAfterMs), a)
  {
    RunKeepsHolders(w, steps, staleAfterMs);
    var end := Run(w, steps, staleAfterMs);
    assert Holder(end, a) && Holder(end, b);
  }

  /** So of two live owners, one is only waiting to hear that its delete has been applied. */
  lemma {:induction false} TwoOwnersMeansOneIsLeaving(w: World, steps: seq<Step>, staleAfterMs: int, a: Owner, b: Owner)
    requires Start(w) && WellBehaved(w, steps, staleAfterMs) && a != b
    requires LiveOwner(Run(w, steps, staleAfterMs), a) && LiveOwner(Run(w, steps, staleAfterMs), b)
    ensures var end := Run(w, steps, staleAfterMs);
            end.daemons[a].phase == Releasing(true) || end.daemons[b].phase == Releasing(true)
  {
    var end := Run(w, steps, staleAfterMs);
    if end.daemons[a].phase != Releasing(true) && end.daemons[b].phase != Releasing(true) {
      MutualExclusion(w, steps, staleAfterMs, a, b);
    }
  }

  // ----- what keeps the document fresh -----------------------------------

  /** The clock when a heartbeat or a takeover last reached the document. */
  function LastWrite(w: World, steps: seq<Step>, staleAfterMs: int): Option<int>
    decreases |steps|
  {
    if steps == [] then None
    else
      var before, last := Run(w, steps[..|steps| - 1], staleAfterMs), steps[|steps| - 1];
      if Writes(before, last) then Some(before.clock) else LastWrite(w, steps[..|steps| - 1], staleAfterMs)
  }

  /** The step puts a new heartbeat into the document. */
  predicate Writes(w: World, step: Step) {
    && step.Land? && step.request in w.wire && !step.request.DeleteLease?
    && LandRequest(w, step.request).index != w.index
  }

  /** A request that carries a heartbeat is not older than `latency` when it lands; older ones are lost. */
  predicate LandsPromptly(w: World, step: Step, latency: int) {
    match step
    case Land(SetHeartbeat(at)) => w.clock - at <= latency
    case Land(TakeOver(_, _, lease)) => lease.heartbeatAt.Some? && w.clock - lease.heartbeatAt.value <= latency
    case _ => true
  }

  /** While somebody holds the lease, writes reach the document at most `gap` apart. */
  predicate WrittenOften(w: World, steps: seq<Step>, gap: int, staleAfterMs: int) {
    var now, last := Run(w, steps, staleAfterMs), LastWrite(w, steps, staleAfterMs);
    (exists who :: who in now.daemons && Holder(now, who)) && last.Some? ==> now.clock - last.value <= gap
  }

  predicate AllLandPromptly(w: World, steps: seq<Step>, latency: int, staleAfterMs: int)
    decreases |steps|
  {
    steps == [] ||
    var front := steps[..|steps| - 1];
    && AllLandPromptly(w, front, latency, staleAfterMs)
    && LandsPromptly(Run(w, front, staleAfterMs), steps[|steps| - 1], latency)
  }

  predicate Prompt(w: World, steps: seq<Step>, gap: int, latency: int, staleAfterMs: int) {
    && (forall k :: 0 <= k <= |steps| ==> WrittenOften(w, steps[..k], gap, staleAfterMs))
    && AllLandPromptly(w, steps, latency, staleAfterMs)
  }

  lemma {:induction false} LandPromptlyUpTo(w: World, steps: seq<Step>, n: nat, latency: int, staleAfterMs: int)
    requires n <= |steps| && AllLandPromptly(w, steps, latency, staleAfterMs)
    ensures AllLandPromptly(w, steps[..n], latency, staleAfterMs)
    decreases |steps|
  {
    if n < |steps| {
      var front := steps[..|steps| - 1];
      LandPromptlyUpTo(w, front, n, latency, staleAfterMs);
      assert front[..n] == steps[..n];
    } else {
      assert steps[..n] == steps;
    }
  }

  /** Whoever holds, or ever owned, had a takeover reach the document; and the document shows a recent heartbeat. */
  predicate Shows(end: World, last: Option<int>, latency: int) {
    && (last.None? ==> forall who :: who in end.daemons ==> !end.daemons[who].owns && !end.daemons[who].phase.Applied?)
    && (last.Some? && end.index.doc.Some? ==>
          && end.index.doc.value.lease.heartbeatAt.Some?
          && end.index.doc.value.lease.heartbeatAt.value >= last.value - latency)
  }

  lemma {:induction false} StepShows(w: World, step: Step, last: Option<int>, latency: int, staleAfterMs: int)
    requires Shows(w, last, latency) && LandsPromptly(w, step, latency)
    ensures Shows(Next(w, step, staleAfterMs), if Writes(w, step) then Some(w.clock) else last, latency)
  {
    if step.Land? && step.request in w.wire {
      LandingShows(w, step.request, last, latency);
    }
  }

  lemma {:induction false} LandingShows(w: World, request: Request, last: Option<int>, latency: int)
    requires request in w.wire && Shows(w, last, latency) && LandsPromptly(w, Land(request), latency)
    ensures Shows(LandRequest(w, request), if Writes(w, Land(request)) then Some(w.clock) else last, latency)
  {
  }

  lemma {:induction false} RunShows(w: World, steps: seq<Step>, latency: int, staleAfterMs: int)
    requires Start(w) && AllLandPromptly(w, steps, latency, staleAfterMs)
    ensures Shows(Run(w, steps, staleAfterMs), LastWrite(w, steps, staleAfterMs), latency)
    decreases |steps|
  {
    if steps != [] {
      var front, step := steps[..|steps| - 1], steps[|steps| - 1];
      RunShows(w, front, latency, staleAfterMs);
      var before, last := Run(w, front, staleAfterMs), LastWrite(w, front, staleAfterMs);
      StepShows(before, step, last, latency, staleAfterMs);
    }
  }

  /**
   * What the timing hypothesis asks of the daemons and the network: if writes reach
   * the document at most `gap` apart while it is held, and none of them is older
   * than `latency` when it does, with both together less than the staleness window,
   * then the document is fresh whenever it is held, at every point of the run.
   */
  lemma {:induction false} PromptWritesKeepOnTime(w: World, steps: seq<Step>, gap: int, latency: int, staleAfterMs: int)
    requires Start(w) && Prompt(w, steps, gap, latency, staleAfterMs) && gap + latency < staleAfterMs
    ensures forall k :: 0 <= k <= |steps| ==> OnTime(Run(w, steps[..k], staleAfterMs), staleAfterMs)
  {
    forall k | 0 <= k <= |steps|
      ensures OnTime(Run(w, steps[..k], staleAfterMs), staleAfterMs)
    {
      LandPromptlyUpTo(w, steps, k, latency, staleAfterMs);
      RunShows(w, steps[..k], latency, staleAfterMs);
      assert WrittenOften(w, steps[..k], gap, staleAfterMs);
    }
  }

  /** So prompt writes and deletes that are heard of give mutual exclusion. */
  lemma {:induction false} PromptDaemonsExclude(w: World, steps: seq<Step>, gap: int, latency: int, staleAfterMs: int,
                                                a: Owner, b: Owner)
    requires Start(w) && Prompt(w, steps, gap, latency, staleAfterMs) && gap + latency < staleAfterMs
    requires forall k :: 0 <= k < |steps| ==> Heard(Run(w, steps[..k], staleAfterMs), steps[k])
    requires var end := Run(w, steps, staleAfterMs);
             && LiveOwner(end, a) && end.daemons[a].phase != Releasing(true)
             && LiveOwner(end, b) && end.daemons[b].phase != Releasing(true)
    ensures a == b && Recorded(Run(w, steps, staleAfterMs), a)
  {
    PromptWritesKeepOnTime(w, steps, gap, latency, staleAfterMs);
    assert WellBehaved(w, steps, staleAfterMs);
    MutualExclusion(w, steps, staleAfterMs, a, b);
  }

  // ----- the hypotheses are needed --------------------------------------

  /** An undisturbed acquire by `who`, from this world. */
  function TakeLease(w: World, who: Owner): seq<Step> {
    [Read(who), DecideNow(who), Land(TakeOver(who, w.index.doc, BuildDoc(w.index.doc, who, w.clock))), Answer(who)]
  }

  /** The world it leaves. */
  function Taken(w: World, who: Owner): World {
    w.(daemons := w.daemons[who := Daemon(true, true, Resting)],
       index := Put(w.index, BuildDoc(w.index.doc, who, w.clock)))
  }

  lemma {:induction false} RunAppend(w: World, steps: seq<Step>, more: seq<Step>, staleAfterMs: int)
    ensures Run(w, steps + more, staleAfterMs) == Run(Run(w, steps, staleAfterMs), more, staleAfterMs)
    decreases |more|
  {
    if more == [] {
      assert steps + more == steps;
    } else {
      var front := more[..|more| - 1];
      assert (steps + more)[..|steps + more| - 1] == steps + front;
      RunAppend(w, steps, front, staleAfterMs);
    }
  }

  lemma {:induction false} RunTwo(w: World, first: Step, second: Step, staleAfterMs: int)
    ensures Run(w, [first], staleAfterMs) == Next(w, first, staleAfterMs)
    ensures Run(w, [first, second], staleAfterMs) == Next(Next(w, first, staleAfterMs), second, staleAfterMs)
  {
    assert [first][..0] == [] && [first, second][..1] == [first];
  }

  /** The world once the compare-and-set of an undisturbed acquire is under way. */
  function Asked(w: World, who: Owner): World
    requires who in w.daemons
  {
    var lease := BuildDoc(w.index.doc, who, w.clock);
    Send(With(w, who, w.daemons[who].(phase := Sending(w.index.doc, lease))), TakeOver(who, w.index.doc, lease))
  }

  /** What the lease there must be for a daemon to take it: missing, its own, unreadable, old, or a dead neighbour's. */
  predicate Takeable(w: World, who: Owner, staleAfterMs: int) {
    w.index.doc.Some? ==>
      var lease := w.index.doc.value.lease;
      || lease.owner == who
      || lease.heartbeatAt.None?
      || w.clock - lease.heartbeatAt.value >= staleAfterMs
      || (lease.owner.host == who.host && !Alive(w, lease.owner))
  }

  /** A daemon that reads the lease and decides at once leaves it alone exactly when it is not takeable. */
  lemma {:induction false} RefusesIffNotTakeable(w: World, who: Owner, staleAfterMs: int)
    requires Alive(w, who) && w.daemons[who].phase.Resting?
    ensures var decided := Run(w, [Read(who), DecideNow(who)], staleAfterMs);
            && (Takeable(w, who, staleAfterMs) ==> decided == Asked(w, who))
            && (!Takeable(w, who, staleAfterMs) ==> decided == w)
  {
    RunTwo(w, Read(who), DecideNow(who), staleAfterMs);
    if Takeable(w, who, staleAfterMs) {
      AskWorks(w, who, staleAfterMs);
    } else {
      assert w.daemons[who := w.daemons[who].(phase := HasRead(w.index.doc))][who := w.daemons[who]] == w.daemons;
    }
  }

  lemma {:induction false} AskWorks(w: World, who: Owner, staleAfterMs: int)
    requires Alive(w, who) && w.daemons[who].phase.Resting? && Takeable(w, who, staleAfterMs)
    ensures Run(w, [Read(who), DecideNow(who)], staleAfterMs) == Asked(w, who)
  {
    RunTwo(w, Read(who), DecideNow(who), staleAfterMs);
    var w1 := Next(w, Read(who), staleAfterMs);
    var d := w.daemons[who].(phase := Sending(w.index.doc, BuildDoc(w.index.doc, who, w.clock)));
    assert w1.daemons[who := d] == w.daemons[who := d];
  }

  lemma {:induction false} GrantWorks(w: World, who: Owner, staleAfterMs: int)
    requires Alive(w, who)
    ensures var request := TakeOver(who, w.index.doc, BuildDoc(w.index.doc, who, w.clock));
            Run(Asked(w, who), [Land(request), Answer(who)], staleAfterMs) == Taken(w, who)
  {
    var lease := BuildDoc(w.index.doc, who, w.clock);
    var request := TakeOver(who, w.index.doc, lease);
    var w2 := Asked(w, who);
    RunTwo(w2, Land(request), Answer(who), staleAfterMs);
    var w3 := Next(w2, Land(request), staleAfterMs);
    assert w2.wire - multiset{request} == w.wire;
    assert w3 == With(w2, who, w2.daemons[who].(phase := Applied)).(index := Put(w.index, lease), wire := w.wire);
    assert w3.daemons[who := Daemon(true, true, Resting)] == w.daemons[who := Daemon(true, true, Resting)];
  }

  /** An undisturbed acquire of a lease that may be taken makes the caller the live, recorded owner. */
  lemma {:induction false} TakeLeaseWorks(w: World, who: Owner, staleAfterMs: int)
    requires Alive(w, who) && w.daemons[who].phase.Resting? && Takeable(w, who, staleAfterMs)
    ensures Run(w, TakeLease(w, who), staleAfterMs) == Taken(w, who)
  {
    var request := TakeOver(who, w.index.doc, BuildDoc(w.index.doc, who, w.clock));
    AskWorks(w, who, staleAfterMs);
    GrantWorks(w, who, staleAfterMs);
    RunAppend(w, [Read(who), DecideNow(who)], [Land(request), Answer(who)], staleAfterMs);
    assert [Read(who), DecideNow(who)] + [Land(request), Answer(who)] == TakeLease(w, who);
  }

  /** The steps of a release up to the landing of its delete. */
  function DeleteLands(who: Owner): seq<Step> {
    [LetGo(who), Land(DeleteLease(who))]
  }

  /** It removes whatever lease is there; the sender goes on believing until it is answered. */
  lemma {:induction false} DeleteLandsWorks(w: World, who: Owner, staleAfterMs: int)
    requires LiveOwner(w, who) && w.daemons[who].phase.Resting?
    ensures Run(w, DeleteLands(who), staleAfterMs) ==
              w.(daemons := w.daemons[who := Daemon(true, true, Releasing(true))],
                 index := DeleteDoc(w.index).GetOr(w.index))
  {
    RunTwo(w, LetGo(who), Land(DeleteLease(who)), staleAfterMs);
    var w1 := Next(w, LetGo(who), staleAfterMs);
    assert w1.wire - multiset{DeleteLease(who)} == w.wire;
    assert w1.daemons[who := Daemon(true, true, Releasing(true))] ==
      w.daemons[who := Daemon(true, true, Releasing(true))];
  }

  /**
   * The timing hypothesis cannot be dropped: in any state whatever, once the
   * heartbeat the document shows is too old, any other live daemon can take the
   * lease while its live owner still believes it owns the VM.
   */
  lemma {:induction false} OverdueOwnerIsDisplaced(w: World, a: Owner, b: Owner, staleAfterMs: int)
    requires a != b && LiveOwner(w, a) && Alive(w, b) && w.daemons[b].phase.Resting?
    requires w.index.doc.Some? ==> !IsFresh(w.index.doc.value.lease, w.clock, staleAfterMs)
    ensures var w' := Run(w, TakeLease(w, b), staleAfterMs);
            LiveOwner(w', a) && LiveOwner(w', b) && w'.daemons[a] == w.daemons[a] && w'.daemons[b].phase.Resting?
  {
    TakeLeaseWorks(w, b, staleAfterMs);
  }

  /**
   * And it gets worse, because a release is not fenced: the displaced owner, on
   * leaving, deletes its successor's fresh lease and lets a third daemon in.
   */
  lemma {:induction false} DisplacedOwnerEvictsSuccessor(w: World, a: Owner, b: Owner, c: Owner, staleAfterMs: int)
    requires a != b && b != c && a != c
    requires LiveOwner(w, a) && w.daemons[a].phase.Resting? && LiveOwner(w, b)
    requires Alive(w, c) && w.daemons[c].phase.Resting?
    ensures var w1 := Run(w, DeleteLands(a), staleAfterMs);
            var w' := Run(w, DeleteLands(a) + TakeLease(w1, c), staleAfterMs);
            LiveOwner(w', b) && LiveOwner(w', c) && w'.clock == w.clock && w'.daemons[b] == w.daemons[b]
  {
    var w1 := Run(w, DeleteLands(a), staleAfterMs);
    DeleteLandsWorks(w, a, staleAfterMs);
    RunAppend(w, DeleteLands(a), TakeLease(w1, c), staleAfterMs);
    TakeLeaseWorks(w1, c, staleAfterMs);
  }

  // ----- runs that end with two owners ----------------------------------

  /** Nobody crashes and no request errs or times out. */
  predicate Quiet(steps: seq<Step>) {
    forall k :: 0 <= k < |steps| ==> !steps[k].GiveUp? && !steps[k].Crash?
  }

  /** A cold start with these daemons. */
  function Cold(daemons: set<Owner>): World {
    World(0, Index(None, 0), map who | who in daemons :: Daemon(false, true, Resting), multiset{})
  }

  lemma {:induction false} ThenStep(w: World, steps: seq<Step>, mid: World, step: Step, staleAfterMs: int)
    returns (more: seq<Step>, end: World)
    requires Run(w, steps, staleAfterMs) == mid
    ensures Run(w, more, staleAfterMs) == end == Next(mid, step, staleAfterMs)
    ensures more == steps + [step]
    ensures Quiet(steps) && !step.GiveUp? && !step.Crash? ==> Quiet(more)
  {
    more, end := steps + [step], Next(mid, step, staleAfterMs);
    assert more[..|steps|] == steps;
  }

  lemma {:induction false} QuietAppend(steps: seq<Step>, more: seq<Step>)
    requires Quiet(steps) && Quiet(more)
    ensures Quiet(steps + more)
  {
  }

  lemma {:induction false} TakeRun(w: World, who: Owner, staleAfterMs: int) returns (steps: seq<Step>)
    requires Alive(w, who) && w.daemons[who].phase.Resting?
    requires w.index.doc.Some? ==> !IsFresh(w.index.doc.value.lease, w.clock, staleAfterMs)
    ensures Run(w, steps, staleAfterMs) == Taken(w, who) && Quiet(steps)
  {
    steps := TakeLease(w, who);
    TakeLeaseWorks(w, who, staleAfterMs);
  }

  lemma {:induction false} ThenTake(w: World, steps: seq<Step>, mid: World, who: Owner, staleAfterMs: int)
    returns (more: seq<Step>, end: World)
    requires Run(w, steps, staleAfterMs) == mid
    requires Alive(mid, who) && mid.daemons[who].phase.Resting?
    requires mid.index.doc.Some? ==> !IsFresh(mid.index.doc.value.lease, mid.clock, staleAfterMs)
    ensures Run(w, more, staleAfterMs) == end == Taken(mid, who)
    ensures steps <= more && (Quiet(steps) ==> Quiet(more))
  {
    var taking := TakeRun(mid, who, staleAfterMs);
    more, end := steps + taking, Taken(mid, who);
    RunAppend(w, steps, taking, staleAfterMs);
    if Quiet(steps) {
      QuietAppend(steps, taking);
    }
  }

  lemma {:induction false} ThenDelete(w: World, steps: seq<Step>, mid: World, who: Owner, staleAfterMs: int)
    returns (more: seq<Step>, end: World)
    requires Run(w, steps, staleAfterMs) == mid
    requires LiveOwner(mid, who) && mid.daemons[who].phase.Resting?
    ensures Run(w, more, staleAfterMs) == end
    ensures end == mid.(daemons := mid.daemons[who := Daemon(true, true, Releasing(true))],
                        index := DeleteDoc(mid.index).GetOr(mid.index))
    ensures steps <= more && (Quiet(steps) ==> Quiet(more))
  {
    more := steps + DeleteLands(who);
    RunAppend(w, steps, DeleteLands(who), staleAfterMs);
    DeleteLandsWorks(mid, who, staleAfterMs);
    end := Run(mid, DeleteLands(who), staleAfterMs);
  }

  /**
   * The silence is not hypothetical: a graceful shutdown stops the heartbeat
   * timer first and then drains the scheduler for up to five minutes, against a
   * staleness window of two. Here is such a run from a cold start.
   */
  lemma {:induction false} SilenceBreaksExclusion(a: Owner, b: Owner, staleAfterMs: nat)
    returns (w: World, steps: seq<Step>, end: World)
    requires a != b
    ensures Start(w) && Quiet(steps) && end == Run(w, steps, staleAfterMs)
    ensures LiveOwner(end, a) && LiveOwner(end, b) && end.daemons[a].phase == end.daemons[b].phase == Resting
    ensures end.clock == w.clock + staleAfterMs
  {
    w, steps, end := Cold({a, b}), [], Cold({a, b});
    steps, end := ThenTake(w, steps, end, a, staleAfterMs);
    steps, end := ThenStep(w, steps, end, Tick(staleAfterMs), staleAfterMs);
    steps, end := ThenTake(w, steps, end, b, staleAfterMs);
  }

  lemma {:induction false} HeartbeatSent(a: Owner, daemons: set<Owner>, staleAfterMs: nat)
    returns (w: World, steps: seq<Step>, end: World)
    requires a in daemons
    ensures Start(w) && Quiet(steps) && end == Run(w, steps, staleAfterMs)
    ensures end.clock == 0 && end.wire == multiset{SetHeartbeat(0)}
    ensures end.daemons == Cold(daemons).daemons[a := Daemon(true, true, Resting)]
  {
    w, steps, end := Cold(daemons), [], Cold(daemons);
    steps, end := ThenTake(w, steps, end, a, staleAfterMs);
    steps, end := ThenStep(w, steps, end, Beat(a), staleAfterMs);
  }

  /** `a` took the lease, sent a heartbeat and released; the heartbeat is still under way a window later. */
  lemma {:induction false} HeartbeatLeftBehind(a: Owner, daemons: set<Owner>, staleAfterMs: nat)
    returns (w: World, steps: seq<Step>, end: World)
    requires a in daemons
    ensures Start(w) && Quiet(steps) && end == Run(w, steps, staleAfterMs)
    ensures end.clock == staleAfterMs && end.index.doc == None && end.wire == multiset{SetHeartbeat(0)}
    ensures end.daemons == Cold(daemons).daemons
  {
    w, steps, end := HeartbeatSent(a, daemons, staleAfterMs);
    steps, end := ThenDelete(w, steps, end, a, staleAfterMs);
    steps, end := ThenStep(w, steps, end, Answer(a), staleAfterMs);
    steps, end := ThenStep(w, steps, end, Tick(staleAfterMs), staleAfterMs);
    assert end.daemons == Cold(daemons).daemons;
  }

  /**
   * A heartbeat carries the time it was sent. One that is still under way when its
   * sender has released lands on the successor's document, moves its heartbeat
   * back, and a third daemon displaces an owner that took the lease this instant.
   */
  lemma {:induction false} LateHeartbeatEvictsSuccessor(a: Owner, b: Owner, c: Owner, staleAfterMs: nat)
    returns (w: World, steps: seq<Step>, mid: World, taken: seq<Step>, end: World)
    requires a != b && b != c && a != c
    ensures Start(w) && Quiet(steps) && end == Run(w, steps, staleAfterMs)
    ensures taken <= steps && mid == Run(w, taken, staleAfterMs)
    ensures mid.index.doc.Some? && mid.index.doc.value.lease == Lease(b, end.clock, Some(end.clock))
    ensures !LiveOwner(mid, a)
    ensures LiveOwner(end, b) && LiveOwner(end, c) && end.daemons[b].phase == end.daemons[c].phase == Resting
  {
    w, taken, mid := HeartbeatLeftBehind(a, {a, b, c}, staleAfterMs);
    taken, mid := ThenTake(w, taken, mid, b, staleAfterMs);
    steps, end := ThenStep(w, taken, mid, Land(SetHeartbeat(0)), staleAfterMs);
    steps, end := ThenTake(w, steps, end, c, staleAfterMs);
  }

  /**
   * And there is the release itself: the delete is applied before its sender hears
   * of it and stops believing. In between a second daemon takes the free lease, and
   * both own - with a fresh document, no time passing, and the answer under way.
   */
  lemma {:induction false} ReleaseWindowOverlaps(a: Owner, b: Owner, staleAfterMs: int)
    returns (w: World, steps: seq<Step>, end: World)
    requires a != b && staleAfterMs > 0
    ensures Start(w) && Quiet(steps) && end == Run(w, steps, staleAfterMs) && end.clock == w.clock
    ensures LiveOwner(end, a) && LiveOwner(end, b)
    ensures end.daemons[a].phase == Releasing(true) && end.daemons[b].phase == Resting && OnTime(end, staleAfterMs)
  {
    w, steps, end := Cold({a, b}), [], Cold({a, b});
    steps, end := ThenTake(w, steps, end, a, staleAfterMs);
    steps, end := ThenDelete(w, steps, end, a, staleAfterMs);
    steps, end := ThenTake(w, steps, end, b, staleAfterMs);
  }

  /** When that answer is lost, the first daemon goes on believing for good, and the second owns beside it. */
  lemma {:induction false} LostReleaseBreaksExclusion(a: Owner, b: Owner, staleAfterMs: int)
    returns (w: World, steps: seq<Step>, end: World)
    requires a != b && staleAfterMs > 0
    ensures Start(w) && end == Run(w, steps, staleAfterMs) && OnTime(end, staleAfterMs)
    ensures LiveOwner(end, a) && LiveOwner(end, b) && end.daemons[a].phase == end.daemons[b].phase == Resting
  {
    w, steps, end := ReleaseWindowOverlaps(a, b, staleAfterMs);
    steps, end := ThenStep(w, steps, end, GiveUp(a), staleAfterMs);
  }

  lemma {:induction false} DeleteSent(a: Owner, daemons: set<Owner>, staleAfterMs: int)
    returns (w: World, steps: seq<Step>, end: World)
    requires a in daemons
    ensures Start(w) && end == Run(w, steps, staleAfterMs)
    ensures end.wire == multiset{DeleteLease(a)} && Recorded(end, a) && end.clock == 0
    ensures end.daemons == Cold(daemons).daemons[a := Daemon(true, true, Releasing(false))]
  {
    w, steps, end := Cold(daemons), [], Cold(daemons);
    steps, end := ThenTake(w, steps, end, a, staleAfterMs);
    steps, end := ThenStep(w, steps, end, LetGo(a), staleAfterMs);
  }

  lemma {:induction false} GivenUpDelete(a: Owner, daemons: set<Owner>, staleAfterMs: int)
    returns (w: World, steps: seq<Step>, end: World)
    requires a in daemons
    ensures Start(w) && end == Run(w, steps, staleAfterMs)
    ensures end.wire == multiset{DeleteLease(a)} && Recorded(end, a) && end.clock == 0
    ensures end.daemons == Cold(daemons).daemons[a := Daemon(true, true, Resting)]
  {
    w, steps, end := DeleteSent(a, daemons, staleAfterMs);
    steps, end := ThenStep(w, steps, end, GiveUp(a), staleAfterMs);
  }

  /** Nor may a delete land after its sender gave up on it: it removes a lease its sender still counts on. */
  lemma {:induction false} OrphanDeleteBreaksExclusion(a: Owner, b: Owner, staleAfterMs: int)
    returns (w: World, steps: seq<Step>, mid: World, givenUp: seq<Step>, end: World)
    requires a != b && staleAfterMs > 0
    ensures Start(w) && end == Run(w, steps, staleAfterMs) && OnTime(end, staleAfterMs)
    ensures givenUp <= steps && mid == Run(w, givenUp, staleAfterMs) && Recorded(mid, a) && DeleteLease(a) in mid.wire
    ensures LiveOwner(end, a) && LiveOwner(end, b) && end.daemons[a].phase == end.daemons[b].phase == Resting
  {
    w, givenUp, mid := GivenUpDelete(a, {a, b}, staleAfterMs);
    steps, end := ThenStep(w, givenUp, mid, Land(DeleteLease(a)), staleAfterMs);
    steps, end := ThenTake(w, steps, end, b, staleAfterMs);
  }
}
