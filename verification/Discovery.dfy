// Family supersession and queueing of discovered models
// (src/services/discovery-scheduler.ts).
//
// Family and generation are derived from the model id by pattern matching; the
// derivations are parameters here.
module Discovery {
  import opened Prelude

  /** Thirty days, in milliseconds. */
  const GAP := 30 * 24 * 60 * 60 * 1000

  /** Everything about a scored model is fixed once it is scored, but for the flag. */
  class ScoredModel {
    const id: string
    const family: string
    const created: Option<int>
    const fits: bool
    var superseded: bool

    constructor (id: string, family: string, created: Option<int>, fits: bool)
      ensures this.id == id && this.family == family && this.created == created && this.fits == fits
      ensures !superseded
    {
      this.id, this.family, this.created, this.fits, this.superseded := id, family, created, fits, false;
    }
  }

  type Generation = string -> Option<real>

  /** `newer` is old enough a release, or new enough a generation, to supersede `m`. */
  predicate Outdates(gen: Generation, newer: ScoredModel, m: ScoredModel) {
    var g, h := gen(m.id), gen(newer.id);
    if g.Some? && h.Some? then h.value > g.value
    else m.created.Some? && newer.created.Some? && newer.created.value - m.created.value >= GAP
  }

  /** What the flags should be: no order, no groups, no loop. */
  predicate Superseded(gen: Generation, scored: seq<ScoredModel>, m: ScoredModel) {
    exists other :: other in scored && other.family == m.family && other.fits && Outdates(gen, other, m)
  }

  lemma {:induction false} NothingOutdatesItself(gen: Generation, m: ScoredModel)
    ensures !Outdates(gen, m, m)
  {
    assert GAP > 0;
  }

  // ---------------------------------------------------------------------
  // The marking
  // ---------------------------------------------------------------------

  /** The groups by family: every model in exactly the group of its family, in the order given. */
  function Group(scored: seq<ScoredModel>, family: string): seq<ScoredModel> {
    if scored == [] then []
    else Group(scored[..|scored| - 1], family) +
         if scored[|scored| - 1].family == family then [scored[|scored| - 1]] else []
  }

  lemma {:induction false} GroupHolds(scored: seq<ScoredModel>, family: string)
    ensures forall m :: m in Group(scored, family) ==> m in scored && m.family == family
    ensures forall m :: m in scored && m.family == family ==> m in Group(scored, family)
  {
    if scored != [] {
      GroupHolds(scored[..|scored| - 1], family);
      assert scored == scored[..|scored| - 1] + [scored[|scored| - 1]];
    }
  }

  method ByFamily(scored: seq<ScoredModel>) returns (groups: map<string, seq<ScoredModel>>)
    ensures forall family :: family in groups <==> exists m :: m in scored && m.family == family
    ensures forall family :: family in groups ==> groups[family] == Group(scored, family)
  {
    groups := map[];
    for i := 0 to |scored|
      invariant forall family :: family in groups <==> exists m :: m in scored[..i] && m.family == family
      invariant forall family :: family in groups ==> groups[family] == Group(scored[..i], family)
      invariant forall family :: family !in groups ==> Group(scored[..i], family) == []
    {
      var model := scored[i];
      assert scored[..i + 1][..i] == scored[..i];
      assert scored[..i + 1] == scored[..i] + [model];
      if model.family in groups {
        groups := groups[model.family := groups[model.family] + [model]];
      } else {
        groups := groups[model.family := [model]];
      }
    }
    assert scored[..|scored|] == scored;
  }

  predicate HasNewer(gen: Generation, group: seq<ScoredModel>, m: ScoredModel) {
    exists other :: other in group && other.fits && Outdates(gen, other, m)
  }

  /** A sibling in the group that fits and supersedes `m`, if any. */
  method HasNewerFittingSibling(gen: Generation, group: seq<ScoredModel>, m: ScoredModel) returns (has: bool)
    ensures has <==> HasNewer(gen, group, m)
  {
    for i := 0 to |group|
      invariant forall k :: 0 <= k < i ==> !(group[k].fits && Outdates(gen, group[k], m))
    {
      var other := group[i];
      if other == m || !other.fits {
        NothingOutdatesItself(gen, m);
        continue;
      }
      var modelGen, otherGen := gen(m.id), gen(other.id);
      if modelGen.Some? && otherGen.Some? {
        if otherGen.value > modelGen.value {
          return true;
        }
      } else if m.created.Some? && other.created.Some? && other.created.value - m.created.value >= GAP {
        return true;
      }
    }
    return false;
  }

  method MarkGroup(gen: Generation, group: seq<ScoredModel>)
    modifies group
    ensures forall m :: m in group ==> m.superseded == (old(m.superseded) || HasNewer(gen, group, m))
  {
    if |group| < 2 {
      forall m | m in group
        ensures !HasNewer(gen, group, m)
      {
        NothingOutdatesItself(gen, m);
      }
      return;
    }
    for i := 0 to |group|
      invariant forall m :: m in group ==>
                  m.superseded == (old(m.superseded) || (m in group[..i] && HasNewer(gen, group, m)))
    {
      var has := HasNewerFittingSibling(gen, group, group[i]);
      assert group[..i + 1] == group[..i] + [group[i]];
      if has {
        group[i].superseded := true;
      }
    }
    assert group[..|group|] == group;
  }

  /** Looking only inside the group of its family misses nothing. */
  lemma {:induction false} GroupSuffices(gen: Generation, scored: seq<ScoredModel>, m: ScoredModel)
    ensures HasNewer(gen, Group(scored, m.family), m) <==> Superseded(gen, scored, m)
  {
    var group := Group(scored, m.family);
    GroupHolds(scored, m.family);
    if HasNewer(gen, group, m) {
      var other :| other in group && other.fits && Outdates(gen, other, m);
      assert other in scored;
    }
    if Superseded(gen, scored, m) {
      var other :| other in scored && other.family == m.family && other.fits && Outdates(gen, other, m);
      assert other in group;
    }
  }

  method MarkFamily(gen: Generation, scored: seq<ScoredModel>, family: string, group: seq<ScoredModel>)
    requires group == Group(scored, family)
    modifies scored
    ensures forall m :: m in scored ==>
              m.superseded == (old(m.superseded) || (m.family == family && Superseded(gen, scored, m)))
  {
    GroupHolds(scored, family);
    forall i | 0 <= i < |group|
      ensures group[i] in scored
    {
      assert group[i] in group;
    }
    MarkGroup(gen, group);
    forall m | m in scored && m.family == family
      ensures HasNewer(gen, group, m) == Superseded(gen, scored, m)
    {
      GroupSuffices(gen, scored, m);
    }
  }

  /** In whatever order the families are visited, every flag ends up as `Superseded` says. */
  method MarkSupersededByFamily(gen: Generation, scored: seq<ScoredModel>)
    modifies scored
    ensures forall m :: m in scored ==> m.superseded == (old(m.superseded) || Superseded(gen, scored, m))
    // Generations decide where both are known; otherwise thirty days between the release dates do.
    ensures forall m :: m in scored ==>
              (m.superseded <==>
                 || old(m.superseded)
                 || exists newer :: && newer in scored && newer.family == m.family && newer.fits
                                    && if gen(newer.id).Some? && gen(m.id).Some?
                                       then gen(newer.id).value > gen(m.id).value
                                       else newer.created.Some? && m.created.Some? &&
                                            newer.created.value - m.created.value >= 2_592_000_000)
  {
    var groups := ByFamily(scored);
    var left := groups.Keys;
    while left != {}
      invariant left <= groups.Keys
      invariant forall m :: m in scored ==>
                  m.superseded == (old(m.superseded) || (m.family !in left && Superseded(gen, scored, m)))
      decreases |left|
    {
      var family :| family in left;
      MarkFamily(gen, scored, family, groups[family]);
      left := left - {family};
    }
  }

  // ---------------------------------------------------------------------
  // Does some fitting member of each family survive?
  // ---------------------------------------------------------------------

  predicate Fitting(scored: seq<ScoredModel>, family: string, m: ScoredModel) {
    m in scored && m.family == family && m.fits
  }

  /** A fitting member that nothing supersedes. */
  predicate Survives(gen: Generation, scored: seq<ScoredModel>, family: string, m: ScoredModel) {
    Fitting(scored, family, m) && !Superseded(gen, scored, m)
  }

  /** `m` has the highest known generation among the fitting members. */
  predicate Leads(gen: Generation, scored: seq<ScoredModel>, family: string, m: ScoredModel) {
    && Fitting(scored, family, m) && gen(m.id).Some?
    && forall x :: x in scored && Fitting(scored, family, x) && gen(x.id).Some? ==> gen(x.id).value <= gen(m.id).value
  }

  /** Both dated, at least thirty days apart. */
  predicate MuchNewer(a: ScoredModel, b: ScoredModel) {
    a.created.Some? && b.created.Some? && a.created.value - b.created.value >= GAP
  }

  /**
   * The family runs in a circle: a fitting member of known generation is much newer
   * than every fitting one of unknown generation, and a fitting one of unknown
   * generation is much newer than all those of the highest known generation.
   */
  predicate Circular(gen: Generation, scored: seq<ScoredModel>, family: string) {
    exists k, u :: k in scored && u in scored && ClosesCircle(gen, scored, family, k, u)
  }

  predicate ClosesCircle(gen: Generation, scored: seq<ScoredModel>, family: string, k: ScoredModel, u: ScoredModel) {
    && Fitting(scored, family, k) && gen(k.id).Some?
    && Fitting(scored, family, u) && gen(u.id).None?
    && (forall x :: x in scored && Fitting(scored, family, x) && gen(x.id).None? ==> MuchNewer(k, x))
    && (forall y :: y in scored && Leads(gen, scored, family, y) ==> MuchNewer(u, y))
  }

  /** In a circle everybody is superseded, however many members there are. */
  lemma {:induction false} CircleSparesNobody(gen: Generation, scored: seq<ScoredModel>, family: string, m: ScoredModel)
    requires Circular(gen, scored, family) && Fitting(scored, family, m)
    ensures Superseded(gen, scored, m)
  {
    var k, u :| k in scored && u in scored && ClosesCircle(gen, scored, family, k, u);
    if gen(m.id).None? {
      assert Outdates(gen, k, m);
    } else if Leads(gen, scored, family, m) {
      assert Outdates(gen, u, m);
    } else {
      var x :| x in scored && Fitting(scored, family, x) && gen(x.id).Some? && gen(x.id).value > gen(m.id).value;
      assert Outdates(gen, x, m);
    }
  }

  /** Among the fitting members of known generation, if any, one leads. */
  lemma {:induction false} SomeoneLeads(gen: Generation, scored: seq<ScoredModel>, family: string, n: nat)
    returns (best: ScoredModel)
    requires n <= |scored|
    requires exists m :: m in scored[..n] && Fitting(scored, family, m) && gen(m.id).Some?
    ensures best in scored[..n] && Fitting(scored, family, best) && gen(best.id).Some?
    ensures forall x :: x in scored[..n] && Fitting(scored, family, x) && gen(x.id).Some? ==>
              gen(x.id).value <= gen(best.id).value
  {
    var last := scored[n - 1];
    assert scored[..n] == scored[..n - 1] + [last];
    if exists m :: m in scored[..n - 1] && Fitting(scored, family, m) && gen(m.id).Some? {
      best := SomeoneLeads(gen, scored, family, n - 1);
      if Fitting(scored, family, last) && gen(last.id).Some? && gen(last.id).value > gen(best.id).value {
        best := last;
      }
    } else {
      best := last;
    }
  }

  /** Among the fitting members of unknown generation, all dated, one is the latest. */
  lemma {:induction false} SomeoneIsLatest(gen: Generation, scored: seq<ScoredModel>, family: string, n: nat)
    returns (best: ScoredModel)
    requires n <= |scored|
    requires exists m :: m in scored[..n] && Fitting(scored, family, m) && gen(m.id).None?
    requires forall m :: m in scored && Fitting(scored, family, m) && gen(m.id).None? ==> m.created.Some?
    ensures best in scored[..n] && Fitting(scored, family, best) && gen(best.id).None?
    ensures forall x :: x in scored[..n] && Fitting(scored, family, x) && gen(x.id).None? ==>
              x.created.value <= best.created.value
  {
    var last := scored[n - 1];
    assert scored[..n] == scored[..n - 1] + [last];
    if exists m :: m in scored[..n - 1] && Fitting(scored, family, m) && gen(m.id).None? {
      best := SomeoneIsLatest(gen, scored, family, n - 1);
      if Fitting(scored, family, last) && gen(last.id).None? && last.created.value > best.created.value {
        best := last;
      }
    } else {
      best := last;
    }
  }

  lemma {:induction false} Leader(gen: Generation, scored: seq<ScoredModel>, family: string, m: ScoredModel)
    returns (best: ScoredModel)
    requires m in scored && Fitting(scored, family, m) && gen(m.id).Some?
    ensures best in scored && Leads(gen, scored, family, best)
  {
    assert scored[..|scored|] == scored;
    best := SomeoneLeads(gen, scored, family, |scored|);
  }

  lemma {:induction false} LeaderWithoutUnknownsSurvives(gen: Generation, scored: seq<ScoredModel>, family: string,
                                                         best: ScoredModel)
    requires best in scored && Leads(gen, scored, family, best)
    requires forall m :: m in scored && Fitting(scored, family, m) ==> gen(m.id).Some?
    ensures !Superseded(gen, scored, best)
  {
    forall other | other in scored && other.family == best.family && other.fits
      ensures !Outdates(gen, other, best)
    {
      assert Fitting(scored, family, other);
    }
  }

  ghost predicate NobodySurvives(gen: Generation, scored: seq<ScoredModel>, family: string) {
    forall m :: m in scored && Fitting(scored, family, m) ==> Superseded(gen, scored, m)
  }

  /** Whatever supersedes the latest of unknown generation has a known one. */
  lemma {:induction false} OnlyKnownOutdatesLatest(gen: Generation, scored: seq<ScoredModel>, family: string,
                                                   u: ScoredModel)
    returns (k: ScoredModel)
    requires u in scored && Fitting(scored, family, u) && gen(u.id).None? && Superseded(gen, scored, u)
    requires forall x :: x in scored && Fitting(scored, family, x) && gen(x.id).None? ==>
               x.created.Some? && u.created.Some? && x.created.value <= u.created.value
    ensures k in scored && Fitting(scored, family, k) && gen(k.id).Some?
    ensures forall x :: x in scored && Fitting(scored, family, x) && gen(x.id).None? ==> MuchNewer(k, x)
  {
    k :| k in scored && k.family == u.family && k.fits && Outdates(gen, k, u);
    assert Fitting(scored, family, k);
  }

  /** Whatever supersedes a leader has an unknown generation, so the latest of those does. */
  lemma {:induction false} LatestOutdatesLeader(gen: Generation, scored: seq<ScoredModel>, family: string,
                                                u: ScoredModel, y: ScoredModel)
    requires forall x :: x in scored && Fitting(scored, family, x) && gen(x.id).None? ==>
               x.created.Some? && u.created.Some? && x.created.value <= u.created.value
    requires y in scored && Leads(gen, scored, family, y) && Superseded(gen, scored, y)
    ensures MuchNewer(u, y)
  {
    var x :| x in scored && x.family == y.family && x.fits && Outdates(gen, x, y);
    assert Fitting(scored, family, x);
  }

  /** When nobody survives, the latest of unknown generation and whatever supersedes it close the circle. */
  lemma {:induction false} NoSurvivorMeansCircle(gen: Generation, scored: seq<ScoredModel>, family: string)
    requires exists m :: m in scored && Fitting(scored, family, m)
    requires NobodySurvives(gen, scored, family)
    ensures Circular(gen, scored, family)
  {
    if m :| m in scored && Fitting(scored, family, m) && gen(m.id).None? {
      UnknownsCloseCircle(gen, scored, family, m);
    } else {
      var m :| m in scored && Fitting(scored, family, m);
      var best := Leader(gen, scored, family, m);
      LeaderWithoutUnknownsSurvives(gen, scored, family, best);
    }
  }

  lemma {:induction false} UnknownsCloseCircle(gen: Generation, scored: seq<ScoredModel>, family: string,
                                               m: ScoredModel)
    requires NobodySurvives(gen, scored, family)
    requires m in scored && Fitting(scored, family, m) && gen(m.id).None?
    ensures Circular(gen, scored, family)
  {
    assert scored[..|scored|] == scored;
    forall x | x in scored && Fitting(scored, family, x) && gen(x.id).None?
      ensures x.created.Some?
    {
      assert Superseded(gen, scored, x);
    }
    var u := SomeoneIsLatest(gen, scored, family, |scored|);
    var k := OnlyKnownOutdatesLatest(gen, scored, family, u);
    forall y | y in scored && Leads(gen, scored, family, y)
      ensures MuchNewer(u, y)
    {
      LatestOutdatesLeader(gen, scored, family, u, y);
    }
    assert ClosesCircle(gen, scored, family, k, u);
  }

  /** Some fitting member of a family is left to benchmark, if there was one at all, iff the family is not circular. */
  lemma {:induction false} SomeoneSurvivesIffNoCircle(gen: Generation, scored: seq<ScoredModel>, family: string)
    requires exists m :: m in scored && Fitting(scored, family, m)
    ensures (exists m :: m in scored && Survives(gen, scored, family, m)) <==> !Circular(gen, scored, family)
  {
    if Circular(gen, scored, family) {
      forall m | m in scored && Fitting(scored, family, m)
        ensures Superseded(gen, scored, m)
      {
        CircleSparesNobody(gen, scored, family, m);
      }
    } else if !exists m :: m in scored && Survives(gen, scored, family, m) {
      assert NobodySurvives(gen, scored, family) by {
        forall m | m in scored && Fitting(scored, family, m)
          ensures Superseded(gen, scored, m)
        {
          assert !Survives(gen, scored, family, m);
        }
      }
      NoSurvivorMeansCircle(gen, scored, family);
    }
  }

  /** With all the generations known, or none, there is no circle. */
  lemma {:induction false} UniformFamiliesSurvive(gen: Generation, scored: seq<ScoredModel>, family: string)
    requires exists m :: m in scored && Fitting(scored, family, m)
    requires
      || (forall m :: m in scored && Fitting(scored, family, m) ==> gen(m.id).Some?)
      || (forall m :: m in scored && Fitting(scored, family, m) ==> gen(m.id).None?)
    ensures exists m :: m in scored && Survives(gen, scored, family, m)
  {
    SomeoneSurvivesIffNoCircle(gen, scored, family);
  }

  lemma {:induction false} CloserComesLate(gen: Generation, scored: seq<ScoredModel>, family: string,
                                         k: ScoredModel, u: ScoredModel, y: ScoredModel)
    requires ClosesCircle(gen, scored, family, k, u) && y in scored && Leads(gen, scored, family, y)
    ensures gen(k.id).value < gen(y.id).value
    ensures k.created.Some? && y.created.Some? && k.created.value - y.created.value >= 2 * GAP
  {
    assert MuchNewer(k, u) && MuchNewer(u, y);
    assert !MuchNewer(u, k);
    assert !Leads(gen, scored, family, k);
  }

  /** A circle takes a lower generation released at least sixty days after the highest one. */
  lemma {:induction false} CirclesNeedALateLowGeneration(gen: Generation, scored: seq<ScoredModel>, family: string)
    returns (k: ScoredModel, y: ScoredModel)
    requires Circular(gen, scored, family)
    ensures k in scored && y in scored && Fitting(scored, family, k) && Leads(gen, scored, family, y)
    ensures Outdates(gen, y, k)
    ensures k.created.Some? && y.created.Some? && k.created.value - y.created.value >= 2 * GAP
  {
    var u;
    k, u :| k in scored && u in scored && ClosesCircle(gen, scored, family, k, u);
    y := Leader(gen, scored, family, k);
    CloserComesLate(gen, scored, family, k, u, y);
  }

  /** Generation 3 on day 0, an unknown one on day 40, generation 2 on day 80: all three are superseded. */
  method ThreeModelCircle(gen: Generation) returns (scored: seq<ScoredModel>)
    requires gen("three") == Some(3.0) && gen("unknown") == None && gen("two") == Some(2.0)
    ensures |scored| == 3 && forall m :: m in scored ==> m.fits && m.superseded
  {
    var day := 24 * 60 * 60 * 1000;
    var three := new ScoredModel("three", "family", Some(0), true);
    var unknown := new ScoredModel("unknown", "family", Some(40 * day), true);
    var two := new ScoredModel("two", "family", Some(80 * day), true);
    scored := [three, unknown, two];
    assert Outdates(gen, three, two) && Outdates(gen, unknown, three) && Outdates(gen, two, unknown);
    assert three in scored && unknown in scored && two in scored;
    MarkSupersededByFamily(gen, scored);
  }

  // ---------------------------------------------------------------------
  // autoQueue
  // ---------------------------------------------------------------------

  datatype Evaluated = Yes | No | EvaluatedThrows

  /** What the calls for the model at a position answer; each of them may throw. */
  datatype Replies = Replies(evaluated: Evaluated, enqueueThrows: bool, prefetchThrows: bool)

  datatype Attempt = Attempt(id: string, priority: int)

  datatype Stats = Stats(queued: nat, skipped: nat, errors: nat)

  /** A scored model as autoQueue sees it. */
  datatype Candidate = Candidate(id: string, fits: bool, superseded: bool)

  /** Passed over without taking a place in the order. */
  predicate Skipped(c: Candidate, r: Replies, skip: set<string>) {
    r.evaluated == Yes || (r.evaluated == No && (c.id in skip || c.superseded || !c.fits))
  }

  /** Offered to the queue. */
  predicate Offered(c: Candidate, r: Replies, skip: set<string>) {
    r.evaluated == No && c.id !in skip && !c.superseded && c.fits
  }

  /** How many of the first `i` took a place. */
  function Places(models: seq<Candidate>, replies: nat -> Replies, skip: set<string>, i: nat): (n: nat)
    requires i <= |models|
    ensures n <= i
  {
    if i == 0 then 0 else
      Places(models, replies, skip, i - 1) + if Skipped(models[i - 1], replies(i - 1), skip) then 0 else 1
  }

  function Attempts(models: seq<Candidate>, replies: nat -> Replies, skip: set<string>, i: nat): seq<Attempt>
    requires i <= |models|
  {
    if i == 0 then [] else
      Attempts(models, replies, skip, i - 1) +
      if Offered(models[i - 1], replies(i - 1), skip)
      then [Attempt(models[i - 1].id, |models| - Places(models, replies, skip, i - 1))] else []
  }

  /** Offered, and neither the queue nor the prefetch objected. */
  function Accepted(models: seq<Candidate>, replies: nat -> Replies, skip: set<string>, i: nat): nat
    requires i <= |models|
  {
    if i == 0 then 0 else
      var r := replies(i - 1);
      Accepted(models, replies, skip, i - 1) +
      if Offered(models[i - 1], r, skip) && !r.enqueueThrows && !r.prefetchThrows then 1 else 0
  }

  method AutoQueue(enabled: bool, models: seq<Candidate>, skip: set<string>, replies: nat -> Replies)
    returns (stats: Stats, attempts: seq<Attempt>)
    ensures stats.queued + stats.skipped + stats.errors == |models|
    ensures attempts == if enabled then Attempts(models, replies, skip, |models|) else []
    ensures !enabled ==> stats.skipped == |models|
    ensures enabled ==> stats.skipped == |models| - Places(models, replies, skip, |models|)
    ensures stats.queued == if enabled then Accepted(models, replies, skip, |models|) else 0
    // Queued is what was offered and met no objection; errors are the calls that threw.
    ensures enabled ==> stats.queued == |set k | 0 <= k < |models| && replies(k).evaluated == No &&
                                                  models[k].id !in skip && !models[k].superseded && models[k].fits &&
                                                  !replies(k).enqueueThrows && !replies(k).prefetchThrows|
    ensures enabled ==> stats.skipped == |set k | 0 <= k < |models| &&
                                                   (replies(k).evaluated == Yes ||
                                                    (replies(k).evaluated == No &&
                                                     (models[k].id in skip || models[k].superseded ||
                                                      !models[k].fits)))|
  {
    if !enabled {
      return Stats(0, |models|, 0), [];
    }
    var queued, skipped, errors, index := 0, 0, 0, 0;
    attempts := [];
    for i := 0 to |models|
      invariant queued + skipped + errors == i && skipped == i - index
      invariant index == Places(models, replies, skip, i)
      invariant attempts == Attempts(models, replies, skip, i)
      invariant queued == Accepted(models, replies, skip, i)
    {
      var model, r := models[i], replies(i);
      if r.evaluated == EvaluatedThrows {
        errors := errors + 1;
      } else {
        if r.evaluated == Yes || model.id in skip || model.superseded || !model.fits {
          skipped := skipped + 1;
          continue;
        }
        var priority := |models| - index;
        attempts := attempts + [Attempt(model.id, priority)];
        if r.enqueueThrows || r.prefetchThrows {
          errors := errors + 1;
        } else {
          queued := queued + 1;
        }
      }
      index := index + 1;
    }
    stats := Stats(queued, skipped, errors);
    AcceptedCounted(models, replies, skip, |models|);
    SkippedCounted(models, replies, skip, |models|);
  }

  /** How many of the first `i` positions have a property. */
  function Having(has: nat -> bool, i: nat): set<nat> {
    set k: nat | k < i && has(k)
  }

  lemma {:induction false} HavingNext(has: nat -> bool, i: nat)
    ensures |Having(has, 0)| == 0
    ensures |Having(has, i + 1)| == |Having(has, i)| + if has(i) then 1 else 0
  {
    assert Having(has, 0) == {};
    assert Having(has, i + 1) == Having(has, i) + if has(i) then {i} else {};
  }

  lemma {:induction false} AcceptedCounted(models: seq<Candidate>, replies: nat -> Replies, skip: set<string>, i: nat)
    requires i <= |models|
    ensures Accepted(models, replies, skip, i) ==
              |set k | 0 <= k < i && replies(k).evaluated == No &&
                       models[k].id !in skip && !models[k].superseded && models[k].fits &&
                       !replies(k).enqueueThrows && !replies(k).prefetchThrows|
  {
    var has: nat -> bool := (k: nat) =>
      && k < |models| && replies(k).evaluated == No && models[k].id !in skip && !models[k].superseded && models[k].fits
      && !replies(k).enqueueThrows && !replies(k).prefetchThrows;
    AcceptedHaving(models, replies, skip, i, has);
    assert Having(has, i) ==
             set k | 0 <= k < i && replies(k).evaluated == No &&
                     models[k].id !in skip && !models[k].superseded && models[k].fits &&
                     !replies(k).enqueueThrows && !replies(k).prefetchThrows;
  }

  lemma {:induction false} AcceptedHaving(models: seq<Candidate>, replies: nat -> Replies, skip: set<string>, i: nat,
                                          has: nat -> bool)
    requires i <= |models|
    requires forall k: nat :: k < |models| ==>
               (has(k) <==> Offered(models[k], replies(k), skip) &&
                            !replies(k).enqueueThrows && !replies(k).prefetchThrows)
    ensures Accepted(models, replies, skip, i) == |Having(has, i)|
  {
    if i > 0 {
      AcceptedHaving(models, replies, skip, i - 1, has);
      HavingNext(has, i - 1);
    } else {
      HavingNext(has, 0);
    }
  }

  lemma {:induction false} SkippedCounted(models: seq<Candidate>, replies: nat -> Replies, skip: set<string>, i: nat)
    requires i <= |models|
    ensures i - Places(models, replies, skip, i) ==
              |set k | 0 <= k < i && (replies(k).evaluated == Yes ||
                                      (replies(k).evaluated == No &&
                                       (models[k].id in skip || models[k].superseded || !models[k].fits)))|
  {
    var has: nat -> bool := (k: nat) =>
      && k < |models|
      && (replies(k).evaluated == Yes ||
          (replies(k).evaluated == No && (models[k].id in skip || models[k].superseded || !models[k].fits)));
    SkippedHaving(models, replies, skip, i, has);
    assert Having(has, i) ==
             set k | 0 <= k < i && (replies(k).evaluated == Yes ||
                                    (replies(k).evaluated == No &&
                                     (models[k].id in skip || models[k].superseded || !models[k].fits)));
  }

  lemma {:induction false} SkippedHaving(models: seq<Candidate>, replies: nat -> Replies, skip: set<string>, i: nat,
                                         has: nat -> bool)
    requires i <= |models|
    requires forall k: nat :: k < |models| ==> (has(k) <==> Skipped(models[k], replies(k), skip))
    ensures i - Places(models, replies, skip, i) == |Having(has, i)|
  {
    if i > 0 {
      SkippedHaving(models, replies, skip, i - 1, has);
      HavingNext(has, i - 1);
    } else {
      HavingNext(has, 0);
    }
  }

  /**
   * Who was not evaluated yet, is not to be skipped, is not superseded and fits is
   * offered, and what was skipped before moves it up.
   */
  lemma {:induction false} EligibleIsOffered(models: seq<Candidate>, replies: nat -> Replies, skip: set<string>,
                                             k: nat)
    requires k < |models|
    requires replies(k).evaluated == No && models[k].id !in skip && !models[k].superseded && models[k].fits
    ensures var passed := |set j | 0 <= j < k && (replies(j).evaluated == Yes ||
                                                  (replies(j).evaluated == No &&
                                                   (models[j].id in skip || models[j].superseded || !models[j].fits)))|;
            Attempt(models[k].id, |models| - k + passed) in Attempts(models, replies, skip, |models|)
  {
    SkippedCounted(models, replies, skip, k);
    OfferedAtTheirPlace(models, replies, skip, |models|);
    assert Offered(models[k], replies(k), skip);
  }

  lemma {:induction false} OfferedIsEligible(models: seq<Candidate>, replies: nat -> Replies, skip: set<string>,
                                             a: Attempt)
    returns (k: nat)
    requires a in Attempts(models, replies, skip, |models|)
    ensures k < |models| && a == Attempt(models[k].id, |models| - Places(models, replies, skip, k))
    ensures replies(k).evaluated == No && models[k].id !in skip && !models[k].superseded && models[k].fits
  {
    OfferedAtTheirPlace(models, replies, skip, |models|);
    k :| 0 <= k < |models| && Offered(models[k], replies(k), skip) &&
         a == Attempt(models[k].id, |models| - Places(models, replies, skip, k));
  }

  /** Strictly falling priorities, all above `low` and none above `high`. */
  predicate Falling(all: seq<Attempt>, low: int, high: int) {
    && (forall a, b :: 0 <= a < b < |all| ==> all[a].priority > all[b].priority)
    && (forall a :: 0 <= a < |all| ==> low < all[a].priority <= high)
  }

  lemma {:induction false} FallingOn(all: seq<Attempt>, low: int, high: int, next: Attempt)
    requires Falling(all, low, high) && low <= high && next.priority == low
    ensures Falling(all + [next], low - 1, high)
  {
  }

  /** Priorities fall strictly along the score order and stay within 1..N. */
  lemma {:induction false} PrioritiesFollowTheOrder(models: seq<Candidate>, replies: nat -> Replies,
                                                    skip: set<string>, i: nat)
    requires i <= |models|
    ensures Falling(Attempts(models, replies, skip, i), |models| - Places(models, replies, skip, i), |models|)
  {
    if i > 0 {
      PrioritiesFollowTheOrder(models, replies, skip, i - 1);
      var front, low := Attempts(models, replies, skip, i - 1), |models| - Places(models, replies, skip, i - 1);
      if Offered(models[i - 1], replies(i - 1), skip) {
        FallingOn(front, low, |models|, Attempt(models[i - 1].id, low));
      } else {
        assert Attempts(models, replies, skip, i) == front;
      }
    }
  }

  /** Which models are offered, at what priority: exactly the eligible ones, each at its own place. */
  lemma {:induction false} OfferedAtTheirPlace(models: seq<Candidate>, replies: nat -> Replies, skip: set<string>,
                                               i: nat)
    requires i <= |models|
    ensures forall a :: a in Attempts(models, replies, skip, i) <==>
              exists k :: 0 <= k < i && Offered(models[k], replies(k), skip) &&
                          a == Attempt(models[k].id, |models| - Places(models, replies, skip, k))
  {
    if i > 0 {
      OfferedAtTheirPlace(models, replies, skip, i - 1);
    }
  }
}
