// Array.prototype.sort: stable, by a comparator given here as "goes before".
module Sorting {

  /** `x` goes behind everything it does not go before. */
  function Put<T>(before: (T, T) -> bool, s: seq<T>, x: T): (t: seq<T>)
    ensures |t| == |s| + 1
  {
    if s != [] && before(x, s[|s| - 1]) then Put(before, s[..|s| - 1], x) + [s[|s| - 1]] else s + [x]
  }

  function Sorted<T>(before: (T, T) -> bool, s: seq<T>): (t: seq<T>)
    ensures |t| == |s|
  {
    if s == [] then [] else Put(before, Sorted(before, s[..|s| - 1]), s[|s| - 1])
  }

  ghost predicate Ordered<T>(before: (T, T) -> bool, s: seq<T>) {
    forall i, j :: 0 <= i < j < |s| ==> !before(s[j], s[i])
  }

  /** A comparator that makes sense: nothing goes before itself, and what is not before carries over. */
  ghost predicate WeakOrder<T(!new)>(before: (T, T) -> bool) {
    && (forall a, b :: before(a, b) ==> !before(b, a))
    && (forall a, b, c :: !before(b, a) && !before(c, b) ==> !before(c, a))
  }

  lemma {:induction false} PutHas<T>(before: (T, T) -> bool, s: seq<T>, x: T)
    ensures forall y :: y in Put(before, s, x) <==> y in s || y == x
  {
    if s != [] && before(x, s[|s| - 1]) {
      var front, last := s[..|s| - 1], s[|s| - 1];
      PutHas(before, front, x);
      assert s == front + [last];
    }
  }

  lemma {:induction false} SortedHas<T>(before: (T, T) -> bool, s: seq<T>)
    ensures forall y :: y in Sorted(before, s) <==> y in s
  {
    if s != [] {
      var front, last := s[..|s| - 1], s[|s| - 1];
      SortedHas(before, front);
      PutHas(before, Sorted(before, front), last);
      assert s == front + [last];
    }
  }

  lemma {:induction false} PutOrdered<T(!new)>(before: (T, T) -> bool, s: seq<T>, x: T)
    requires WeakOrder(before) && Ordered(before, s)
    ensures Ordered(before, Put(before, s, x))
  {
    if s != [] {
      var front, last := s[..|s| - 1], s[|s| - 1];
      if before(x, last) {
        PutOrdered(before, front, x);
        PutHas(before, front, x);
        var t := Put(before, front, x);
        forall i | 0 <= i < |t|
          ensures !before(last, t[i])
        {
          assert t[i] in t;
        }
      } else {
        forall i | 0 <= i < |s|
          ensures !before(x, s[i])
        {
          assert i < |s| - 1 ==> !before(last, s[i]);
        }
      }
    }
  }

  lemma {:induction false} SortedOrdered<T(!new)>(before: (T, T) -> bool, s: seq<T>)
    requires WeakOrder(before)
    ensures Ordered(before, Sorted(before, s))
  {
    if s != [] {
      SortedOrdered(before, s[..|s| - 1]);
      PutOrdered(before, Sorted(before, s[..|s| - 1]), s[|s| - 1]);
    }
  }

  lemma {:induction false} PutHead<T(!new)>(before: (T, T) -> bool, s: seq<T>, x: T)
    requires WeakOrder(before) && Ordered(before, s) && s != []
    ensures Put(before, s, x)[0] == if before(x, s[0]) then x else s[0]
  {
    if |s| > 1 {
      var front, last := s[..|s| - 1], s[|s| - 1];
      PutHead(before, front, x);
      assert !before(last, front[0]);
    }
  }

  /** Nothing goes before `s[i]`, and it goes before everything ahead of it. */
  ghost predicate FirstBest<T>(before: (T, T) -> bool, s: seq<T>, i: nat) {
    && i < |s|
    && (forall j :: 0 <= j < |s| ==> !before(s[j], s[i]))
    && (forall j :: 0 <= j < i ==> before(s[i], s[j]))
  }

  /** A newcomer that goes before the best goes before all, and all is behind it. */
  lemma {:induction false} BeatsBest<T(!new)>(before: (T, T) -> bool, best: T, other: T, x: T)
    requires WeakOrder(before) && before(x, best) && !before(other, best)
    ensures before(x, other) && !before(other, x)
  {
  }

  lemma {:induction false} FirstBestNext<T(!new)>(before: (T, T) -> bool, front: seq<T>, last: T, i: nat)
    requires WeakOrder(before) && FirstBest(before, front, i)
    ensures FirstBest(before, front + [last], if before(last, front[i]) then |front| else i)
  {
    var best, all := front[i], front + [last];
    if before(last, best) {
      forall j | 0 <= j < |front|
        ensures before(last, all[j]) && !before(all[j], last)
      {
        BeatsBest(before, best, front[j], last);
      }
    }
  }

  /** What sorting puts first is the first of the best. */
  lemma {:induction false} HeadIsFirstBest<T(!new)>(before: (T, T) -> bool, s: seq<T>) returns (i: nat)
    requires WeakOrder(before) && s != []
    ensures FirstBest(before, s, i) && Sorted(before, s)[0] == s[i]
  {
    var front, last := s[..|s| - 1], s[|s| - 1];
    if front == [] {
      i := 0;
    } else {
      var k := HeadIsFirstBest(before, front);
      SortedOrdered(before, front);
      PutHead(before, Sorted(before, front), last);
      FirstBestNext(before, front, last, k);
      assert front + [last] == s;
      i := if before(last, front[k]) then |front| else k;
    }
  }
}
