// Splitting and joining text, as String.prototype.split and Array.prototype.join do.
module Text {

  lemma {:induction false} PlusAssociates<T>(a: seq<T>, b: seq<T>, c: seq<T>)
    ensures a + (b + c) == a + b + c
  {
  }

  predicate StartsWith(s: string, prefix: string) {
    |s| >= |prefix| && s[..|prefix|] == prefix
  }

  function Concat(parts: seq<string>): string {
    if parts == [] then "" else parts[0] + Concat(parts[1..])
  }

  lemma {:induction false} ConcatAppend(a: seq<string>, b: seq<string>)
    ensures Concat(a + b) == Concat(a) + Concat(b)
  {
    if a == [] {
      assert a + b == b;
    } else {
      assert (a + b)[0] == a[0] && (a + b)[1..] == a[1..] + b;
      ConcatAppend(a[1..], b);
      PlusAssociates(a[0], Concat(a[1..]), Concat(b));
    }
  }

  lemma {:induction false} ConcatNext(before: string, parts: seq<string>, j: nat)
    requires j < |parts|
    ensures before + Concat(parts[j..]) == before + parts[j] + Concat(parts[j + 1..])
  {
    assert parts[j..][1..] == parts[j + 1..];
    PlusAssociates(before, parts[j], Concat(parts[j + 1..]));
  }

  /** One more character at the front of the first piece. */
  function Grow(x: char, pieces: seq<string>): (grown: seq<string>)
    requires pieces != []
    ensures |grown| == |pieces|
  {
    [[x] + pieces[0]] + pieces[1..]
  }

  /** `s.split(c)` for a single character: always at least one piece. */
  function Split(s: string, c: char): (pieces: seq<string>)
    ensures pieces != []
  {
    if s == "" then [""]
    else
      var rest := Split(s[1..], c);
      if s[0] == c then [""] + rest else Grow(s[0], rest)
  }

  /** `pieces.join(c)` */
  function Join(pieces: seq<string>, c: char): string {
    if pieces == [] then ""
    else if |pieces| == 1 then pieces[0]
    else pieces[0] + [c] + Join(pieces[1..], c)
  }

  predicate Without(s: string, c: char) {
    forall i :: 0 <= i < |s| ==> s[i] != c
  }

  lemma {:induction false} SplitPiecesClean(s: string, c: char)
    ensures forall i :: 0 <= i < |Split(s, c)| ==> Without(Split(s, c)[i], c)
  {
    if s != "" {
      SplitPiecesClean(s[1..], c);
    }
  }

  lemma {:induction false} JoinGrow(x: char, pieces: seq<string>, c: char)
    requires pieces != []
    ensures Join(Grow(x, pieces), c) == [x] + Join(pieces, c)
  {
    if |pieces| > 1 {
      assert Grow(x, pieces)[1..] == pieces[1..];
    }
  }

  lemma {:induction false} JoinAfterEmpty(pieces: seq<string>, c: char)
    requires pieces != []
    ensures Join([""] + pieces, c) == [c] + Join(pieces, c)
  {
    assert ([""] + pieces)[1..] == pieces;
  }

  /** Joining what was split gives the text back. */
  lemma {:induction false} JoinSplit(s: string, c: char)
    ensures Join(Split(s, c), c) == s
  {
    if s != "" {
      JoinSplit(s[1..], c);
      var rest := Split(s[1..], c);
      if s[0] == c {
        JoinAfterEmpty(rest, c);
      } else {
        JoinGrow(s[0], rest, c);
      }
      assert s == [s[0]] + s[1..];
    }
  }

  lemma {:induction false} SplitPrefix(piece: string, rest: string, c: char)
    requires Without(piece, c)
    ensures Split(piece + [c] + rest, c) == [piece] + Split(rest, c)
  {
    var s := piece + [c] + rest;
    if piece == "" {
      assert s[1..] == rest;
    } else {
      SplitPrefix(piece[1..], rest, c);
      assert s[1..] == piece[1..] + [c] + rest;
      assert [piece[0]] + piece[1..] == piece;
    }
  }

  lemma {:induction false} SplitWhole(piece: string, c: char)
    requires Without(piece, c)
    ensures Split(piece, c) == [piece]
  {
    if piece != "" {
      SplitWhole(piece[1..], c);
      assert [piece[0]] + piece[1..] == piece;
    }
  }

  /** Splitting what was joined gives the pieces back, when none holds the separator. */
  lemma {:induction false} SplitJoin(pieces: seq<string>, c: char)
    requires pieces != []
    requires forall i :: 0 <= i < |pieces| ==> Without(pieces[i], c)
    ensures Split(Join(pieces, c), c) == pieces
  {
    if |pieces| == 1 {
      SplitWhole(pieces[0], c);
    } else {
      SplitJoin(pieces[1..], c);
      SplitPrefix(pieces[0], Join(pieces[1..], c), c);
    }
  }

  lemma {:induction false} GrowAppend(x: char, front: seq<string>, back: seq<string>)
    requires front != []
    ensures Grow(x, front + back) == Grow(x, front) + back
  {
    assert (front + back)[1..] == front[1..] + back;
    PlusAssociates([[x] + front[0]], front[1..], back);
  }

  lemma {:induction false} SplitAppend(a: string, b: string, c: char)
    ensures Split(a + [c] + b, c) == Split(a, c) + Split(b, c)
  {
    var s := a + [c] + b;
    if a == "" {
      assert s[1..] == b;
    } else {
      SplitAppend(a[1..], b, c);
      assert s[1..] == a[1..] + [c] + b;
      var front, back := Split(a[1..], c), Split(b, c);
      if a[0] == c {
        PlusAssociates([""], front, back);
      } else {
        GrowAppend(a[0], front, back);
      }
    }
  }

  function Digit(d: nat): char
    requires d < 10
  {
    '0' + d as char
  }

  /** A number as a template literal prints it. */
  function Decimal(n: nat): (s: string)
    ensures s != "" && forall i :: 0 <= i < |s| ==> '0' <= s[i] <= '9'
  {
    if n < 10 then [Digit(n)] else Decimal(n / 10) + [Digit(n % 10)]
  }

  lemma {:induction false} DecimalInjective(m: nat, n: nat)
    requires Decimal(m) == Decimal(n)
    ensures m == n
  {
    var s, t := Decimal(m), Decimal(n);
    assert s[|s| - 1] == Digit(m % 10) && t[|t| - 1] == Digit(n % 10);
    assert (m >= 10 <==> |s| > 1) && (n >= 10 <==> |t| > 1);
    if m >= 10 {
      assert Decimal(m / 10) == s[..|s| - 1] == t[..|t| - 1] == Decimal(n / 10);
      DecimalInjective(m / 10, n / 10);
    }
  }
}
