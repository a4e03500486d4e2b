// The per-key rate limiter of the queue API (src/api/queue-server.ts): a fixed
// window that opens with the first request after the previous one has run out.
module RateLimiter {
  import opened Prelude

  const WINDOW_MS := 60_000
  const MAX := 100

  datatype Limit = Limit(count: int, resetAt: int)

  /** A request for one key: its new entry, and whether it is let through. */
  function Hit(entry: Option<Limit>, now: int): (Limit, bool) {
    if entry.None? || now > entry.value.resetAt then (Limit(1, now + WINDOW_MS), true)
    else
      var counted := entry.value.(count := entry.value.count + 1);
      (counted, counted.count <= MAX)
  }

  class ApiMiddleware {
    var rateLimits: map<string, Limit>

    constructor ()
      ensures rateLimits == map[]
    {
      rateLimits := map[];
    }

    /** The limiting part of `auth`; false is a 429. */
    method Admit(keyHash: string, now: int) returns (ok: bool)
      modifies this
      ensures var hit := Hit(Entry(old(rateLimits), keyHash), now);
              ok == hit.1 && rateLimits == old(rateLimits)[keyHash := hit.0]
      // A key that is new, or whose minute is over, starts again; otherwise a hundred are let through.
      ensures keyHash in rateLimits && forall k :: k != keyHash ==>
                (k in rateLimits <==> k in old(rateLimits)) &&
                (k in rateLimits ==> rateLimits[k] == old(rateLimits)[k])
      ensures keyHash !in old(rateLimits) || now > old(rateLimits)[keyHash].resetAt ==>
                ok && rateLimits[keyHash] == Limit(1, now + 60_000)
      ensures keyHash in old(rateLimits) && now <= old(rateLimits)[keyHash].resetAt ==>
                var was, entry := old(rateLimits)[keyHash], rateLimits[keyHash];
                entry == Limit(was.count + 1, was.resetAt) && (ok <==> was.count < 100)
    {
      if keyHash !in rateLimits || now > rateLimits[keyHash].resetAt {
        rateLimits := rateLimits[keyHash := Limit(1, now + WINDOW_MS)];
        return true;
      }
      var entry := rateLimits[keyHash];
      entry := entry.(count := entry.count + 1);
      rateLimits := rateLimits[keyHash := entry];
      return entry.count <= MAX;
    }
  }

  function Entry(limits: map<string, Limit>, key: string): Option<Limit> {
    if key in limits then Some(limits[key]) else None
  }

  // ---------------------------------------------------------------------
  // Histories: one key sees only its own requests
  // ---------------------------------------------------------------------

  datatype Request = Request(key: string, at: int)

  function AfterAll(requests: seq<Request>): map<string, Limit>
    decreases |requests|
  {
    if requests == [] then map[]
    else
      var before, last := AfterAll(requests[..|requests| - 1]), requests[|requests| - 1];
      before[last.key := Hit(Entry(before, last.key), last.at).0]
  }

  function TimesOf(requests: seq<Request>, key: string): seq<int>
    decreases |requests|
  {
    if requests == [] then []
    else
      var last := requests[|requests| - 1];
      TimesOf(requests[..|requests| - 1], key) + if last.key == key then [last.at] else []
  }

  function AfterTimes(times: seq<int>): Option<Limit>
    decreases |times|
  {
    if times == [] then None else Some(Hit(AfterTimes(times[..|times| - 1]), times[|times| - 1]).0)
  }

  lemma {:induction false} KeysAreIndependent(requests: seq<Request>, key: string)
    ensures Entry(AfterAll(requests), key) == AfterTimes(TimesOf(requests, key))
    decreases |requests|
  {
    if requests != [] {
      var front, last := requests[..|requests| - 1], requests[|requests| - 1];
      KeysAreIndependent(front, key);
      if last.key == key {
        var times := TimesOf(requests, key);
        assert times[..|times| - 1] == TimesOf(front, key);
      } else {
        assert TimesOf(requests, key) == TimesOf(front, key);
      }
    }
  }

  // ---------------------------------------------------------------------
  // Windows
  // ---------------------------------------------------------------------

  /** Whether the k-th request of a key is let through. */
  predicate Admitted(times: seq<int>, k: nat)
    requires k < |times|
  {
    Hit(AfterTimes(times[..k]), times[k]).1
  }

  /** Which request opened the window the k-th one falls into. */
  function WindowStart(times: seq<int>, k: nat): (start: nat)
    requires k < |times|
    ensures start <= k
  {
    if k == 0 then 0
    else if times[k] > times[WindowStart(times, k - 1)] + WINDOW_MS then k
    else WindowStart(times, k - 1)
  }

  predicate Rising(times: seq<int>) {
    forall i, j :: 0 <= i < j < |times| ==> times[i] <= times[j]
  }

  /** The stored entry counts the window's requests, refused ones included. */
  lemma {:induction false} EntryCountsWindow(times: seq<int>, k: nat)
    requires k < |times|
    ensures AfterTimes(times[..k + 1]) == Some(Limit(k - WindowStart(times, k) + 1,
                                                     times[WindowStart(times, k)] + WINDOW_MS))
  {
    assert times[..k + 1][..k] == times[..k];
    if k > 0 {
      EntryCountsWindow(times, k - 1);
    }
  }

  /** A request is refused exactly when a hundred of its window came before it. */
  lemma {:induction false} AdmittedIffRoom(times: seq<int>, k: nat)
    requires k < |times|
    ensures Admitted(times, k) <==> k - WindowStart(times, k) < MAX
  {
    if k > 0 {
      EntryCountsWindow(times, k - 1);
    }
  }

  /** Two requests share a window, or their windows opened more than a window length apart. */
  lemma {:induction false} StartsApart(times: seq<int>, x: nat, y: nat)
    requires Rising(times) && x <= y < |times|
    ensures WindowStart(times, x) == WindowStart(times, y)
            || (x < WindowStart(times, y) && times[WindowStart(times, y)] > times[WindowStart(times, x)] + WINDOW_MS)
  {
    if x < y {
      StartsApart(times, x, y - 1);
    }
  }

  /** How many of the requests from `i` up to but excluding `j` are let through. */
  function CountAdmitted(times: seq<int>, i: nat, j: nat): nat
    requires i <= j <= |times|
    decreases j
  {
    if i == j then 0 else CountAdmitted(times, i, j - 1) + if Admitted(times, j - 1) then 1 else 0
  }

  /** Inside one window, only its first hundred requests count. */
  lemma {:induction false} CountInWindow(times: seq<int>, i: nat, j: nat, start: nat)
    requires i <= j <= |times|
    requires forall l :: i <= l < j ==> WindowStart(times, l) == start
    ensures CountAdmitted(times, i, j) <= (if i >= start + MAX then 0 else start + MAX - i)
    ensures j <= start + MAX ==> CountAdmitted(times, i, j) == j - i
    decreases j
  {
    if i < j {
      CountInWindow(times, i, j - 1, start);
      AdmittedIffRoom(times, j - 1);
    }
  }

  lemma {:induction false} CountSplit(times: seq<int>, i: nat, k: nat, j: nat)
    requires i <= k <= j <= |times|
    ensures CountAdmitted(times, i, j) == CountAdmitted(times, i, k) + CountAdmitted(times, k, j)
    decreases j
  {
    if k < j {
      CountSplit(times, i, k, j - 1);
    }
  }

  /** No window lets more than a hundred requests through. */
  lemma {:induction false} WindowAdmitsHundred(times: seq<int>, i: nat, j: nat)
    requires Rising(times) && i < j <= |times|
    requires WindowStart(times, i) == WindowStart(times, j - 1)
    ensures CountAdmitted(times, i, j) <= MAX
  {
    var start := WindowStart(times, i);
    forall l | i <= l < j
      ensures WindowStart(times, l) == start
    {
      StartsApart(times, i, l);
      StartsApart(times, l, j - 1);
    }
    CountInWindow(times, i, j, start);
  }

  lemma {:induction false} StartOpensItself(times: seq<int>, k: nat)
    requires k < |times|
    ensures WindowStart(times, WindowStart(times, k)) == WindowStart(times, k)
  {
    if k > 0 {
      StartOpensItself(times, k - 1);
    }
  }

  /** Within one window length there is room for the end of one window and the start of the next, no more. */
  lemma {:induction false} TwoWindowsAtMost(times: seq<int>, i: nat, j: nat, l: nat)
    requires Rising(times) && i <= l <= j < |times|
    requires times[j] - times[i] <= WINDOW_MS
    requires WindowStart(times, i) != WindowStart(times, j)
    ensures WindowStart(times, i) < i < WindowStart(times, j)
    ensures l < WindowStart(times, j) ==> WindowStart(times, l) == WindowStart(times, i)
  {
    var k := WindowStart(times, j);
    assert times[k] <= times[j];
    StartsApart(times, i, j);
    StartsApart(times, i, l);
    StartsApart(times, l, j);
    assert times[i] <= times[l];
  }

  lemma {:induction false} OldWindowAdmits99(times: seq<int>, i: nat, j: nat)
    requires Rising(times) && i <= j < |times|
    requires times[j] - times[i] <= WINDOW_MS
    requires WindowStart(times, i) != WindowStart(times, j)
    ensures i < WindowStart(times, j)
    ensures CountAdmitted(times, i, WindowStart(times, j)) <= MAX - 1
  {
    TwoWindowsAtMost(times, i, j, i);
    forall l | i <= l < WindowStart(times, j)
      ensures WindowStart(times, l) == WindowStart(times, i)
    {
      TwoWindowsAtMost(times, i, j, l);
    }
    CountInWindow(times, i, WindowStart(times, j), WindowStart(times, i));
  }

  lemma {:induction false} NewWindowAdmitsHundred(times: seq<int>, j: nat)
    requires Rising(times) && j < |times|
    ensures CountAdmitted(times, WindowStart(times, j), j + 1) <= MAX
  {
    StartOpensItself(times, j);
    WindowAdmitsHundred(times, WindowStart(times, j), j + 1);
  }

  /**
   * With a clock that never runs backwards, no stretch of time as long as a
   * window - wherever it starts - lets through twice the limit: 199 at most.
   */
  lemma {:induction false} AnyMinuteAdmits199(times: seq<int>, i: nat, j: nat)
    requires Rising(times) && i <= j < |times|
    requires times[j] - times[i] <= WINDOW_MS
    ensures CountAdmitted(times, i, j + 1) <= 2 * MAX - 1
  {
    var k := WindowStart(times, j);
    if WindowStart(times, i) == k {
      WindowAdmitsHundred(times, i, j + 1);
    } else {
      OldWindowAdmits99(times, i, j);
      NewWindowAdmitsHundred(times, j);
      CountSplit(times, i, k, j + 1);
    }
  }

  /** One early request, 99 at the end of its window, a hundred right after it. */
  predicate Burst(times: seq<int>) {
    && |times| == 2 * MAX
    && (forall l :: 0 <= l < |times| ==> times[l] == if l == 0 then 0 else if l < MAX then WINDOW_MS else WINDOW_MS + 1)
  }

  lemma {:induction false} BurstWindows(times: seq<int>, k: nat)
    requires Burst(times) && k < |times|
    ensures forall l :: 0 <= l <= k ==> WindowStart(times, l) == if l < MAX then 0 else MAX
  {
    if k > 0 {
      BurstWindows(times, k - 1);
    }
  }

  /** And 199 is reached: the bound cannot be improved. */
  lemma {:induction false} Reaches199() returns (times: seq<int>)
    ensures |times| == 2 * MAX && Rising(times) && times[2 * MAX - 1] - times[1] <= WINDOW_MS
    ensures CountAdmitted(times, 1, 2 * MAX) == 2 * MAX - 1
  {
    times := seq(2 * MAX, l => if l == 0 then 0 else if l < MAX then WINDOW_MS else WINDOW_MS + 1);
    BurstWindows(times, 2 * MAX - 1);
    CountInWindow(times, 1, MAX, 0);
    CountInWindow(times, MAX, 2 * MAX, MAX);
    CountSplit(times, 1, MAX, 2 * MAX);
  }
}
