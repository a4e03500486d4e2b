// Picking the served safetensors family out of a repository listing
// (src/services/hf-served-weight-size.ts).
//
// Splitting a file name into family, index and total is pattern matching; the
// parser is a parameter here, and everything holds for any parser.
module ServedWeights {
  import opened Prelude
  import Sorting
  import Text

  datatype File = File(path: string, size: Option<int>, kind: Option<string>)

  /** What the parser finds in a file name. */
  datatype Name = Name(family: string, index: Option<nat>, total: Option<nat>)

  type Parser = string -> Name

  datatype Shard = Shard(path: string, size: nat, groupKey: string, name: Name)

  // ---------------------------------------------------------------------
  // Group keys
  // ---------------------------------------------------------------------

  function TotalText(total: Option<nat>): string {
    match total
    case Some(n) => Text.Decimal(n)
    case None => "single"
  }

  function GroupKey(name: Name): string {
    name.family + ":" + TotalText(name.total)
  }

  predicate NoColon(s: string) {
    forall i :: 0 <= i < |s| ==> s[i] != ':'
  }

  lemma {:induction false} LastColonSplits(a: string, x: string, b: string, y: string)
    requires NoColon(x) && NoColon(y)
    requires a + ":" + x == b + ":" + y
    ensures a == b && x == y
    decreases |x|
  {
    var s, t := a + ":" + x, b + ":" + y;
    assert s[|s| - 1] == if x == "" then ':' else x[|x| - 1];
    assert t[|t| - 1] == if y == "" then ':' else y[|y| - 1];
    if x == "" {
      assert y == "";
      assert a == s[..|s| - 1] && b == t[..|t| - 1];
    } else {
      assert y != "";
      assert a + ":" + x[..|x| - 1] == s[..|s| - 1] && b + ":" + y[..|y| - 1] == t[..|t| - 1];
      LastColonSplits(a, x[..|x| - 1], b, y[..|y| - 1]);
      assert x == x[..|x| - 1] + [s[|s| - 1]] && y == y[..|y| - 1] + [t[|t| - 1]];
    }
  }

  /** One key, one family and one total - even where the family has a colon, or reads like a total. */
  lemma {:induction false} KeyTellsAll(p: Name, q: Name)
    requires GroupKey(p) == GroupKey(q)
    ensures p.family == q.family && p.total == q.total
  {
    LastColonSplits(p.family, TotalText(p.total), q.family, TotalText(q.total));
    assert TotalText(None)[0] == 's';
    assert p.total.Some? <==> TotalText(p.total)[0] != 's';
    assert q.total.Some? <==> TotalText(q.total)[0] != 's';
    if p.total.Some? {
      Text.DecimalInjective(p.total.value, q.total.value);
    }
  }

  // ---------------------------------------------------------------------
  // Candidates
  // ---------------------------------------------------------------------

  const DUPLICATE_PACKAGE_DIRS: set<string> :=
    {"original", "metal", "gguf", "onnx", "mlx", "awq", "gptq", "int4", "fp8", "nvfp4", "mxfp4"}

  /** Lower-casing, as far as it can matter for the names above. */
  function Lower(s: string): string {
    if s == "" then "" else [if 'A' <= s[0] <= 'Z' then s[0] - 'A' + 'a' else s[0]] + Lower(s[1..])
  }

  function RootDirectory(path: string): Option<string> {
    if path == "" then None
    else if path[0] == '/' then Some("")
    else
      match RootDirectory(path[1..])
      case None => None
      case Some(rest) => Some(Lower([path[0]]) + rest)
  }

  predicate EndsWith(s: string, suffix: string) {
    |s| >= |suffix| && s[|s| - |suffix|..] == suffix
  }

  /** A weights file with bytes in it. */
  predicate IsWeights(f: File) {
    && !(f.kind.Some? && f.kind.value != "" && f.kind.value != "file")
    && EndsWith(f.path, ".safetensors")
    && f.size.Some? && f.size.value > 0
  }

  predicate InDuplicatePackage(path: string) {
    var root := RootDirectory(path);
    root.Some? && root.value in DUPLICATE_PACKAGE_DIRS
  }

  function Candidates(files: seq<File>, parse: Parser): seq<Shard> {
    if files == [] then [] else
      var f := files[|files| - 1];
      Candidates(files[..|files| - 1], parse) +
      if IsWeights(f) && !InDuplicatePackage(f.path)
      then [Shard(f.path, f.size.value, GroupKey(parse(f.path)), parse(f.path))] else []
  }

  function Ignored(files: seq<File>): seq<string> {
    if files == [] then [] else
      var f := files[|files| - 1];
      Ignored(files[..|files| - 1]) + if IsWeights(f) && InDuplicatePackage(f.path) then [f.path] else []
  }

  lemma {:induction false} LowerIs(s: string)
    ensures |Lower(s)| == |s|
    ensures forall i :: 0 <= i < |s| ==> Lower(s)[i] == if 'A' <= s[i] <= 'Z' then s[i] + ' ' else s[i]
  {
    if s != "" {
      LowerIs(s[1..]);
    }
  }

  lemma {:induction false} LowerNext(c: char, s: string)
    ensures Lower([c] + s) == Lower([c]) + Lower(s)
  {
    assert ([c] + s)[1..] == s && [c][1..] == "";
  }

  /** The first `n` characters have no slash, and the next one is a slash. */
  predicate SlashAt(path: string, n: nat) {
    n < |path| && path[n] == '/' && '/' !in path[..n]
  }

  /** The first directory of a path, in lower case. */
  lemma {:induction false} RootIs(path: string)
    ensures RootDirectory(path).None? <==> '/' !in path
    ensures forall n: nat :: SlashAt(path, n) ==> RootDirectory(path) == Some(Lower(path[..n]))
  {
    if path != "" {
      var rest := path[1..];
      RootIs(rest);
      assert path == [path[0]] + rest;
      forall n: nat | SlashAt(path, n)
        ensures RootDirectory(path) == Some(Lower(path[..n]))
      {
        if n > 0 {
          assert path[..n] == [path[0]] + rest[..n - 1];
          assert SlashAt(rest, n - 1);
          LowerNext(path[0], rest[..n - 1]);
        }
      }
    }
  }

  /** A `.safetensors` file with bytes in it; a missing or empty kind is a file too. */
  predicate IsServable(f: File) {
    && (f.kind == None || f.kind == Some("") || f.kind == Some("file"))
    && |f.path| >= 12 && f.path[|f.path| - 12..] == ".safetensors"
    && f.size.Some? && f.size.value > 0
  }

  /** Its first directory is not one of the packages. */
  ghost predicate OutsidePackages(path: string) {
    forall n: nat :: SlashAt(path, n) ==> Lower(path[..n]) !in DUPLICATE_PACKAGE_DIRS
  }

  lemma {:induction false} FirstSlash(path: string)
    requires '/' in path
    ensures exists n: nat :: SlashAt(path, n)
  {
    if path[0] == '/' {
      assert SlashAt(path, 0);
    } else {
      assert path == [path[0]] + path[1..];
      FirstSlash(path[1..]);
      var n: nat :| SlashAt(path[1..], n);
      assert path[..n + 1] == [path[0]] + path[1..][..n];
      assert SlashAt(path, n + 1);
    }
  }

  lemma {:induction false} PackagesAre(path: string)
    ensures InDuplicatePackage(path) <==> !OutsidePackages(path)
  {
    RootIs(path);
    if '/' in path {
      FirstSlash(path);
    }
  }

  ghost predicate Gives(f: File, parse: Parser, s: Shard) {
    && IsServable(f) && OutsidePackages(f.path)
    && s == Shard(f.path, f.size.value, GroupKey(parse(f.path)), parse(f.path))
  }

  ghost predicate Drops(f: File, path: string) {
    IsServable(f) && !OutsidePackages(f.path) && path == f.path
  }

  lemma {:induction false} CandidatesNext(files: seq<File>, parse: Parser, s: Shard)
    requires files != []
    ensures var front, last := files[..|files| - 1], files[|files| - 1];
            && (s in Candidates(files, parse) <==> s in Candidates(front, parse) || Gives(last, parse, s))
            && (s.path in Ignored(files) <==> s.path in Ignored(front) || Drops(last, s.path))
  {
    PackagesAre(files[|files| - 1].path);
    assert IsWeights(files[|files| - 1]) <==> IsServable(files[|files| - 1]);
  }

  /** A candidate comes from a servable file outside the packages, an ignored path from one inside. */
  lemma {:induction false} CandidateFrom(files: seq<File>, parse: Parser, s: Shard) returns (i: nat, j: nat)
    ensures s in Candidates(files, parse) ==> i < |files| && Gives(files[i], parse, s)
    ensures s.path in Ignored(files) ==> j < |files| && Drops(files[j], s.path)
  {
    i, j := 0, 0;
    if files != [] {
      var last := |files| - 1;
      i, j := CandidateFrom(files[..last], parse, s);
      CandidatesNext(files, parse, s);
      i := if s in Candidates(files[..last], parse) then i else last;
      j := if s.path in Ignored(files[..last]) then j else last;
    }
  }

  /** Whatever the first `n` files give, all of them give. */
  lemma {:induction false} CandidatesGrow(files: seq<File>, parse: Parser, s: Shard, n: nat)
    requires n <= |files|
    ensures s in Candidates(files[..n], parse) ==> s in Candidates(files, parse)
    ensures s.path in Ignored(files[..n]) ==> s.path in Ignored(files)
  {
    if n == |files| {
      assert files[..n] == files;
    } else {
      CandidatesGrow(files[..|files| - 1], parse, s, n);
      assert files[..|files| - 1][..n] == files[..n];
      CandidatesNext(files, parse, s);
    }
  }

  /** And every such file gives its candidate, or is ignored. */
  lemma {:induction false} CandidateOf(files: seq<File>, parse: Parser, s: Shard, i: nat)
    requires i < |files|
    ensures Gives(files[i], parse, s) ==> s in Candidates(files, parse)
    ensures Drops(files[i], s.path) ==> s.path in Ignored(files)
  {
    CandidatesNext(files[..i + 1], parse, s);
    CandidatesGrow(files, parse, s, i + 1);
  }

  // ---------------------------------------------------------------------
  // Complete sets
  // ---------------------------------------------------------------------

  /** The indices the shards carry, in order. */
  function Indices(shards: seq<Shard>): seq<int> {
    if shards == [] then [] else
      (if shards[0].name.index.Some? then [shards[0].name.index.value] else []) + Indices(shards[1..])
  }

  /** The total of the first shard that declares one. */
  function Declared(shards: seq<Shard>): Option<nat> {
    if shards == [] then None
    else if shards[0].name.total.Some? then shards[0].name.total
    else Declared(shards[1..])
  }

  function Run(first: int, n: nat): seq<int> {
    seq(n, i => first + i)
  }

  /** Every shard carries an index, and they are `first`, `first` + 1, and so on: all of them, so each once. */
  ghost predicate Numbered(shards: seq<Shard>, first: int) {
    |Indices(shards)| == |shards| && forall i :: first <= i < first + |shards| ==> i in Indices(shards)
  }

  /**
   * A lone shard without an index, or shards numbered from 0 or 1 without gap or
   * repeat - up to the declared total, if there is one.
   */
  ghost predicate Complete(shards: seq<Shard>) {
    if Indices(shards) == [] then |shards| == 1
    else
      || (Numbered(shards, 0) && (Declared(shards).Some? ==> |shards| == Declared(shards).value + 1))
      || (Numbered(shards, 1) && (Declared(shards).Some? ==> |shards| == Declared(shards).value))
  }

  const Less: (int, int) -> bool := (a, b) => a < b

  lemma {:induction false} RunHas(first: int, n: nat)
    ensures forall i :: i in Run(first, n) <==> first <= i < first + n
  {
    forall i | first <= i < first + n
      ensures i in Run(first, n)
    {
      assert Run(first, n)[i - first] == i;
    }
  }

  /** `n` values in order that take in a run of length `n` are that run. */
  lemma {:induction false} CoverIsRun(t: seq<int>, first: int)
    requires Sorting.Ordered(Less, t)
    requires forall i :: first <= i < first + |t| ==> i in t
    ensures t == Run(first, |t|)
  {
    if t != [] {
      var front, last := t[..|t| - 1], t[|t| - 1];
      var top := first + |t| - 1;
      assert forall i :: 0 <= i < |t| ==> !Less(last, t[i]);
      assert top in t && last >= top;
      forall i | first <= i < first + |front|
        ensures i in front
      {
        assert i in t;
        var p :| 0 <= p < |t| && t[p] == i;
        assert p < |front| && front[p] == i;
      }
      assert Sorting.Ordered(Less, front);
      CoverIsRun(front, first);
      RunHas(first, |front|);
      assert t == front + [last];
    }
  }

  lemma {:induction false} NumberedIffRun(shards: seq<Shard>, first: int)
    ensures Numbered(shards, first) <==> Sorting.Sorted(Less, Indices(shards)) == Run(first, |shards|)
  {
    var t := Sorting.Sorted(Less, Indices(shards));
    Sorting.SortedHas(Less, Indices(shards));
    if Numbered(shards, first) {
      Sorting.SortedOrdered(Less, Indices(shards));
      CoverIsRun(t, first);
    }
    RunHas(first, |shards|);
  }

  lemma {:induction false} IndexComesFromShard(shards: seq<Shard>, x: int)
    ensures x in Indices(shards) <==> exists s :: s in shards && s.name.index == Some(x)
  {
    if shards != [] {
      IndexComesFromShard(shards[1..], x);
      assert shards == [shards[0]] + shards[1..];
    }
  }

  /** The loop over neighbours finds out exactly whether the set is complete. */
  method IsCompleteShardSet(shards: seq<Shard>) returns (complete: bool)
    ensures complete == Complete(shards)
  {
    var indices := Sorting.Sorted(Less, Indices(shards));
    NumberedIffRun(shards, 0);
    NumberedIffRun(shards, 1);
    if |indices| == 0 {
      return |shards| == 1;
    }
    if |indices| != |shards| {
      return false;
    }
    var first := indices[0];
    if first > 1 {
      return false;
    }
    for i := 1 to |indices|
      invariant forall k :: 0 <= k < i ==> indices[k] == first + k
    {
      if indices[i] != indices[i - 1] + 1 {
        assert Run(0, |shards|)[i] == Run(0, |shards|)[i - 1] + 1 && Run(1, |shards|)[i] == Run(1, |shards|)[i - 1] + 1;
        return false;
      }
    }
    assert indices == Run(first, |shards|);
    assert first >= 0 by {
      Sorting.SortedHas(Less, Indices(shards));
      IndexComesFromShard(shards, first);
      assert first in indices;
    }
    assert Run(0, |shards|)[0] == 0 && Run(1, |shards|)[0] == 1;
    if Declared(shards).Some? {
      var expected := if first == 0 then Declared(shards).value + 1 else Declared(shards).value;
      if |shards| != expected {
        return false;
      }
    }
    return true;
  }

  /** A complete set that declares `-of-N` carries exactly 1..N, or exactly 0..N. */
  lemma {:induction false} DeclaredSetIsWhole(shards: seq<Shard>)
    requires Complete(shards) && Declared(shards).Some? && Indices(shards) != []
    ensures var first := if 0 in Indices(shards) then 0 else 1;
            && |shards| == Declared(shards).value + 1 - first
            && forall i :: i in Indices(shards) <==> first <= i <= Declared(shards).value
  {
    NumberedIffRun(shards, 0);
    NumberedIffRun(shards, 1);
    Sorting.SortedHas(Less, Indices(shards));
    RunHas(0, |shards|);
    RunHas(1, |shards|);
  }

  ghost predicate HasIndex(shards: seq<Shard>, i: int) {
    exists s :: s in shards && s.name.index == Some(i)
  }

  /** Every shard has an index, each from `first` on is there, and a declared total is the last of them. */
  ghost predicate WholeFrom(shards: seq<Shard>, first: nat) {
    && (forall s :: s in shards ==> s.name.index.Some?)
    && (forall i :: first <= i < first + |shards| ==> HasIndex(shards, i))
    && (forall s :: s in shards && s.name.total.Some? ==> |shards| == s.name.total.value + 1 - first)
  }

  /** A lone shard without an index, or shards numbered from 0 or from 1 without a gap. */
  ghost predicate Whole(shards: seq<Shard>) {
    if forall s :: s in shards ==> s.name.index.None? then |shards| == 1
    else WholeFrom(shards, 0) || WholeFrom(shards, 1)
  }

  lemma {:induction false} IndicesCount(shards: seq<Shard>)
    ensures |Indices(shards)| <= |shards|
    ensures |Indices(shards)| == |shards| <==> forall s :: s in shards ==> s.name.index.Some?
  {
    if shards != [] {
      IndicesCount(shards[1..]);
      assert shards == [shards[0]] + shards[1..];
    }
  }

  lemma {:induction false} NumberedFrom(shards: seq<Shard>, first: nat)
    requires OneTotal(shards)
    ensures (Numbered(shards, first) && (Declared(shards).Some? ==> |shards| == Declared(shards).value + 1 - first))
            <==> WholeFrom(shards, first)
  {
    IndicesCount(shards);
    DeclaredIsThere(shards);
    forall i | first <= i < first + |shards|
      ensures i in Indices(shards) <==> HasIndex(shards, i)
    {
      IndexComesFromShard(shards, i);
    }
  }

  /** What the loop decides, told shard by shard and whatever their order. */
  lemma {:induction false} CompleteIffWhole(shards: seq<Shard>)
    requires OneTotal(shards)
    ensures Complete(shards) <==> Whole(shards)
  {
    NumberedFrom(shards, 0);
    NumberedFrom(shards, 1);
    forall s | s in shards && s.name.index.Some?
      ensures Indices(shards) != []
    {
      IndexComesFromShard(shards, s.name.index.value);
    }
    if Indices(shards) != [] {
      assert Indices(shards)[0] in Indices(shards);
      IndexComesFromShard(shards, Indices(shards)[0]);
    }
  }

  // ---------------------------------------------------------------------
  // Groups
  // ---------------------------------------------------------------------

  /** The keys in the order they first turn up. */
  function Keys(cands: seq<Shard>): seq<string> {
    if cands == [] then [] else
      var front, key := Keys(cands[..|cands| - 1]), cands[|cands| - 1].groupKey;
      if key in front then front else front + [key]
  }

  function Members(cands: seq<Shard>, key: string): seq<Shard> {
    if cands == [] then [] else
      var last := cands[|cands| - 1];
      Members(cands[..|cands| - 1], key) + if last.groupKey == key then [last] else []
  }

  lemma {:induction false} MembersNext(cands: seq<Shard>, shard: Shard, key: string)
    ensures Members(cands + [shard], key) == Members(cands, key) + if shard.groupKey == key then [shard] else []
  {
    assert (cands + [shard])[..|cands|] == cands;
  }

  lemma {:induction false} KeysNext(cands: seq<Shard>, shard: Shard)
    ensures var key := shard.groupKey;
            Keys(cands + [shard]) == if key in Keys(cands) then Keys(cands) else Keys(cands) + [key]
  {
    assert (cands + [shard])[..|cands|] == cands;
  }

  lemma {:induction false} MembersHave(cands: seq<Shard>, key: string)
    ensures forall s :: s in Members(cands, key) <==> s in cands && s.groupKey == key
  {
    if cands != [] {
      var front, last := cands[..|cands| - 1], cands[|cands| - 1];
      MembersHave(front, key);
      assert cands == front + [last];
      MembersNext(front, last, key);
    }
  }

  lemma {:induction false} KeysHaveMembersNext(front: seq<Shard>, last: Shard, key: string)
    requires Members(front, key) != [] <==> key in Keys(front)
    ensures Members(front + [last], key) != [] <==> key in Keys(front + [last])
  {
    MembersNext(front, last, key);
    KeysNext(front, last);
  }

  lemma {:induction false} KeysHaveMembers(cands: seq<Shard>, key: string)
    ensures Members(cands, key) != [] <==> key in Keys(cands)
  {
    if cands != [] {
      var front, last := cands[..|cands| - 1], cands[|cands| - 1];
      KeysHaveMembers(front, key);
      KeysHaveMembersNext(front, last, key);
      assert front + [last] == cands;
    }
  }

  ghost predicate DistinctKeys(keys: seq<string>) {
    forall i, j :: 0 <= i < j < |keys| ==> keys[i] != keys[j]
  }

  lemma {:induction false} KeysDistinct(cands: seq<Shard>)
    ensures DistinctKeys(Keys(cands))
  {
    if cands != [] {
      KeysDistinct(cands[..|cands| - 1]);
    }
  }

  method GroupShards(cands: seq<Shard>) returns (keys: seq<string>, families: map<string, seq<Shard>>)
    ensures keys == Keys(cands)
    ensures forall key :: key in families <==> key in keys
    ensures forall key :: key in families ==> families[key] == Members(cands, key)
  {
    keys, families := [], map[];
    for i := 0 to |cands|
      invariant keys == Keys(cands[..i])
      invariant forall key :: key in families <==> key in keys
      invariant forall key :: key in families ==> families[key] == Members(cands[..i], key)
    {
      var shard := cands[i];
      var key := shard.groupKey;
      assert cands[..i + 1][..i] == cands[..i];
      KeysHaveMembers(cands[..i], key);
      var existing := if key in families then families[key] else [];
      if key !in families {
        keys := keys + [key];
      }
      families := families[key := existing + [shard]];
    }
    assert cands[..|cands|] == cands;
  }

  function Bytes(shards: seq<Shard>): nat {
    if shards == [] then 0 else Bytes(shards[..|shards| - 1]) + shards[|shards| - 1].size
  }

  lemma {:induction false} BytesNext(shards: seq<Shard>, shard: Shard)
    ensures Bytes(shards + [shard]) == Bytes(shards) + shard.size
  {
    assert (shards + [shard])[..|shards|] == shards;
  }

  lemma {:induction false} BytesPut(before: (Shard, Shard) -> bool, s: seq<Shard>, x: Shard)
    ensures Bytes(Sorting.Put(before, s, x)) == Bytes(s) + x.size
  {
    if s != [] && before(x, s[|s| - 1]) {
      BytesPut(before, s[..|s| - 1], x);
      BytesNext(Sorting.Put(before, s[..|s| - 1], x), s[|s| - 1]);
    } else {
      BytesNext(s, x);
    }
  }

  lemma {:induction false} BytesSorted(before: (Shard, Shard) -> bool, s: seq<Shard>)
    ensures Bytes(Sorting.Sorted(before, s)) == Bytes(s)
  {
    if s != [] {
      BytesSorted(before, s[..|s| - 1]);
      BytesPut(before, Sorting.Sorted(before, s[..|s| - 1]), s[|s| - 1]);
    }
  }

  /** The bytes of the groups of some keys together. */
  function BytesOfKeys(cands: seq<Shard>, keys: seq<string>): nat {
    if keys == [] then 0 else BytesOfKeys(cands, keys[..|keys| - 1]) + Bytes(Members(cands, keys[|keys| - 1]))
  }

  lemma {:induction false} BytesOfKeysNext(cands: seq<Shard>, keys: seq<string>, key: string)
    ensures BytesOfKeys(cands, keys + [key]) == BytesOfKeys(cands, keys) + Bytes(Members(cands, key))
  {
    assert (keys + [key])[..|keys|] == keys;
  }

  lemma {:induction false} OneMoreShard(cands: seq<Shard>, shard: Shard, keys: seq<string>)
    requires DistinctKeys(keys)
    ensures BytesOfKeys(cands + [shard], keys) ==
            BytesOfKeys(cands, keys) + if shard.groupKey in keys then shard.size else 0
  {
    if keys != [] {
      var front, last := keys[..|keys| - 1], keys[|keys| - 1];
      assert keys == front + [last];
      assert last !in front;
      OneMoreShard(cands, shard, front);
      MembersNext(cands, shard, last);
      if shard.groupKey == last {
        BytesNext(Members(cands, last), shard);
      } else {
        assert Members(cands + [shard], last) == Members(cands, last);
      }
    }
  }

  lemma {:induction false} OneMoreCounted(front: seq<Shard>, last: Shard, keys: seq<string>, total: nat)
    requires DistinctKeys(keys) && (last.groupKey !in keys ==> Members(front, last.groupKey) == [])
    requires BytesOfKeys(front, keys) == total
    ensures BytesOfKeys(front + [last], if last.groupKey in keys then keys else keys + [last.groupKey]) ==
              total + last.size
  {
    OneMoreShard(front, last, keys);
    if last.groupKey !in keys {
      BytesOfKeysNext(front + [last], keys, last.groupKey);
      MembersNext(front, last, last.groupKey);
      BytesNext([], last);
      assert [] + [last] == [last];
    }
  }

  lemma {:induction false} Unfolded(cands: seq<Shard>)
    requires cands != []
    ensures var front, last := cands[..|cands| - 1], cands[|cands| - 1];
            && cands == front + [last]
            && Keys(cands) == (if last.groupKey in Keys(front) then Keys(front) else Keys(front) + [last.groupKey])
            && Bytes(cands) == Bytes(front) + last.size
  {
  }

  /** Grouping loses no byte and counts none twice. */
  lemma {:induction false} GroupsHoldAllBytes(cands: seq<Shard>, keys: seq<string>)
    requires keys == Keys(cands)
    ensures BytesOfKeys(cands, keys) == Bytes(cands)
  {
    if cands != [] {
      Unfolded(cands);
      var front, last := cands[..|cands| - 1], cands[|cands| - 1];
      var before := Keys(front);
      GroupsHoldAllBytes(front, before);
      KeysDistinct(front);
      KeysHaveMembers(front, last.groupKey);
      OneMoreCounted(front, last, before, Bytes(front));
    }
  }

  // ---------------------------------------------------------------------
  // Totals
  // ---------------------------------------------------------------------

  datatype TotalsConflict = TotalsConflict

  ghost predicate OneTotal(shards: seq<Shard>) {
    forall s, t :: s in shards && t in shards && s.name.total.Some? && t.name.total.Some? ==>
      s.name.total == t.name.total
  }

  lemma {:induction false} DeclaredIsThere(shards: seq<Shard>)
    ensures Declared(shards).Some? <==> exists s :: s in shards && s.name.total.Some?
    ensures Declared(shards).Some? ==> exists s :: s in shards && s.name.total == Declared(shards)
  {
    if shards != [] {
      assert shards == [shards[0]] + shards[1..];
      DeclaredIsThere(shards[1..]);
      assert shards[0] in shards;
    }
  }

  method InferExpectedShardCount(shards: seq<Shard>) returns (r: Result<Option<nat>, TotalsConflict>)
    ensures r == if OneTotal(shards) then Success(Declared(shards)) else Failure(TotalsConflict)
  {
    DeclaredIsThere(shards);
    var totals: seq<nat> := [];
    for i := 0 to |shards|
      invariant forall n :: n in totals <==> exists k :: 0 <= k < i && shards[k].name.total == Some(n)
      invariant forall a, b :: 0 <= a < b < |totals| ==> totals[a] != totals[b]
    {
      if shards[i].name.total.Some? && shards[i].name.total.value !in totals {
        totals := totals + [shards[i].name.total.value];
      }
    }
    if |totals| == 0 {
      assert forall k :: 0 <= k < |shards| && shards[k].name.total.Some? ==> shards[k].name.total.value in totals;
      return Success(None);
    }
    assert totals[0] in totals;
    if |totals| > 1 {
      assert totals[1] in totals;
      var j :| 0 <= j < |shards| && shards[j].name.total == Some(totals[0]);
      var k :| 0 <= k < |shards| && shards[k].name.total == Some(totals[1]);
      assert shards[j] in shards && shards[k] in shards;
      return Failure(TotalsConflict);
    }
    forall s | s in shards && s.name.total.Some?
      ensures s.name.total.value == totals[0]
    {
      var k :| 0 <= k < |shards| && shards[k] == s;
      assert s.name.total.value in totals;
    }
    return Success(Some(totals[0]));
  }

  // ---------------------------------------------------------------------
  // Ranking and selection
  // ---------------------------------------------------------------------

  datatype Group = Group(family: string, key: string, shards: seq<Shard>, bytes: nat, expected: Option<nat>,
                         complete: bool)

  /** The comparator: complete sets first, then `model`, then declared sets, then bytes. */
  predicate Better(a: Group, b: Group) {
    if a.complete != b.complete then a.complete
    else if (a.family == "model") != (b.family == "model") then a.family == "model"
    else if a.expected.Some? != b.expected.Some? then a.expected.Some?
    else a.bytes > b.bytes
  }

  lemma {:induction false} BetterIsWeakOrder()
    ensures Sorting.WeakOrder(Better)
  {
  }

  type PathOrder = (Shard, Shard) -> bool

  /** A group as the ranking sees it, its shards in path order. */
  ghost function GroupOf(cands: seq<Shard>, key: string, order: PathOrder): Group {
    var members := Members(cands, key);
    var shards := Sorting.Sorted(order, members);
    var family := if members == [] then "unknown" else members[0].name.family;
    Group(family, key, shards, Bytes(shards), Declared(shards), Complete(shards))
  }

  ghost function GroupsOf(cands: seq<Shard>, keys: seq<string>, order: PathOrder): (gs: seq<Group>)
    ensures |gs| == |keys| && forall i :: 0 <= i < |keys| ==> gs[i] == GroupOf(cands, keys[i], order)
  {
    if keys == [] then [] else GroupsOf(cands, keys[..|keys| - 1], order) + [GroupOf(cands, keys[|keys| - 1], order)]
  }

  ghost function Ranked(cands: seq<Shard>, order: PathOrder): (gs: seq<Group>)
    ensures |gs| == |Keys(cands)|
  {
    Sorting.Sorted(Better, GroupsOf(cands, Keys(cands), order))
  }

  datatype Alternate = Alternate(family: string, shardCount: nat, bytes: nat)

  datatype Summary = Summary(bytes: nat, shardCount: nat, expected: Option<nat>, family: string, paths: seq<string>,
                             alternates: seq<Alternate>, ignored: seq<string>)

  datatype Outcome =
    | NoWeights
    | Served(summary: Summary)
    | Incomplete(family: string, found: nat, expected: Option<nat>)
    | Conflicting

  function PathsOf(shards: seq<Shard>): seq<string> {
    if shards == [] then [] else PathsOf(shards[..|shards| - 1]) + [shards[|shards| - 1].path]
  }

  function AlternatesOf(groups: seq<Group>): seq<Alternate> {
    if groups == [] then [] else
      var last := groups[|groups| - 1];
      AlternatesOf(groups[..|groups| - 1]) + [Alternate(last.family, |last.shards|, last.bytes)]
  }

  /** The best group is served if it is complete, all the others are alternates, and otherwise there is an error. */
  ghost function Selection(ranked: seq<Group>, ignored: seq<string>): Outcome {
    if ranked == [] then NoWeights
    else if !ranked[0].complete then Incomplete(ranked[0].family, |ranked[0].shards|, ranked[0].expected)
    else Served(Summary(ranked[0].bytes, |ranked[0].shards|, ranked[0].expected, ranked[0].family,
                        PathsOf(ranked[0].shards),
                        AlternatesOf(ranked[1..]), ignored))
  }

  // ---------------------------------------------------------------------
  // summarizeServedWeightSize
  // ---------------------------------------------------------------------

  /** Every candidate carries the key of its own name. */
  ghost predicate Keyed(cands: seq<Shard>) {
    forall s :: s in cands ==> s.groupKey == GroupKey(s.name)
  }

  method CollectCandidates(files: seq<File>, parse: Parser) returns (cands: seq<Shard>, ignored: seq<string>)
    ensures cands == Candidates(files, parse) && ignored == Ignored(files)
    ensures Keyed(cands)
  {
    cands, ignored := [], [];
    for i := 0 to |files|
      invariant cands == Candidates(files[..i], parse) && ignored == Ignored(files[..i])
      invariant Keyed(cands)
    {
      var file := files[i];
      assert files[..i + 1][..i] == files[..i];
      if file.kind.Some? && file.kind.value != "" && file.kind.value != "file" {
        continue;
      }
      if !EndsWith(file.path, ".safetensors") {
        continue;
      }
      if file.size.None? || file.size.value <= 0 {
        continue;
      }
      var root := RootDirectory(file.path);
      if root.Some? && root.value in DUPLICATE_PACKAGE_DIRS {
        ignored := ignored + [file.path];
        continue;
      }
      var name := parse(file.path);
      cands := cands + [Shard(file.path, file.size.value, GroupKey(name), name)];
    }
    assert files[..|files|] == files;
  }

  /** The keys tell totals apart, so no group ever mixes two. */
  lemma {:induction false} GroupsAgreeOnTotals(cands: seq<Shard>, key: string, order: PathOrder)
    requires Keyed(cands)
    ensures OneTotal(Sorting.Sorted(order, Members(cands, key)))
  {
    var shards := Sorting.Sorted(order, Members(cands, key));
    Sorting.SortedHas(order, Members(cands, key));
    MembersHave(cands, key);
    forall s, t | s in shards && t in shards
      ensures s.name.total == t.name.total
    {
      KeyTellsAll(s.name, t.name);
    }
  }

  method MakeGroup(cands: seq<Shard>, key: string, members: seq<Shard>, order: PathOrder)
    returns (r: Result<Group, TotalsConflict>)
    requires Keyed(cands) && members == Members(cands, key)
    ensures r == Success(GroupOf(cands, key, order))
  {
    var shards := Sorting.Sorted(order, members);
    GroupsAgreeOnTotals(cands, key, order);
    var expected := InferExpectedShardCount(shards);
    if expected.Failure? {
      return Failure(TotalsConflict);
    }
    var complete := IsCompleteShardSet(shards);
    var family := if members == [] then "unknown" else members[0].name.family;
    r := Success(Group(family, key, shards, Bytes(shards), expected.value, complete));
  }

  predicate DistinctGroups(groups: seq<Group>) {
    forall i, j :: 0 <= i < j < |groups| ==> groups[i].key != groups[j].key
  }

  lemma {:induction false} PutDistinct(s: seq<Group>, x: Group)
    requires DistinctGroups(s) && forall g :: g in s ==> g.key != x.key
    ensures DistinctGroups(Sorting.Put(Better, s, x))
  {
    if s != [] && Better(x, s[|s| - 1]) {
      var front, last := s[..|s| - 1], s[|s| - 1];
      assert last in s && forall g :: g in front ==> g in s && g.key != last.key;
      PutDistinct(front, x);
      Sorting.PutHas(Better, front, x);
      var t := Sorting.Put(Better, front, x);
      assert forall i :: 0 <= i < |t| ==> t[i] in t;
    }
  }

  lemma {:induction false} SortedDistinct(s: seq<Group>)
    requires DistinctGroups(s)
    ensures DistinctGroups(Sorting.Sorted(Better, s))
  {
    if s != [] {
      var front, last := s[..|s| - 1], s[|s| - 1];
      SortedDistinct(front);
      Sorting.SortedHas(Better, front);
      PutDistinct(Sorting.Sorted(Better, front), last);
    }
  }

  lemma {:induction false} AlternatesNext(groups: seq<Group>, g: Group)
    ensures AlternatesOf(groups + [g]) == AlternatesOf(groups) + [Alternate(g.family, |g.shards|, g.bytes)]
  {
    assert (groups + [g])[..|groups|] == groups;
  }

  /** Those of the first `i` groups that are not the very first. */
  function Others(ranked: seq<Group>, i: nat): seq<Group>
    requires i <= |ranked|
  {
    if i == 0 then [] else ranked[1..i]
  }

  lemma {:induction false} OthersNext(ranked: seq<Group>, i: nat)
    requires 0 < i < |ranked|
    ensures Others(ranked, i + 1) == Others(ranked, i) + [ranked[i]]
  {
  }

  method OtherFamilies(ranked: seq<Group>) returns (alternates: seq<Alternate>)
    requires ranked != [] && DistinctGroups(ranked)
    ensures alternates == AlternatesOf(ranked[1..])
  {
    alternates := [];
    for i := 0 to |ranked|
      invariant alternates == AlternatesOf(Others(ranked, i))
    {
      if ranked[i].key != ranked[0].key {
        OthersNext(ranked, i);
        AlternatesNext(Others(ranked, i), ranked[i]);
        alternates := alternates + [Alternate(ranked[i].family, |ranked[i].shards|, ranked[i].bytes)];
      }
    }
    assert Others(ranked, |ranked|) == ranked[1..];
  }

  method RankGroups(cands: seq<Shard>, order: PathOrder) returns (r: Result<seq<Group>, TotalsConflict>)
    requires Keyed(cands)
    ensures r == Success(Ranked(cands, order)) && DistinctGroups(Ranked(cands, order))
  {
    var keys, families := GroupShards(cands);
    var groups: seq<Group> := [];
    for i := 0 to |keys|
      invariant groups == GroupsOf(cands, keys[..i], order)
    {
      assert keys[..i + 1][..i] == keys[..i];
      var group := MakeGroup(cands, keys[i], families[keys[i]], order);
      if group.Failure? {
        return Failure(TotalsConflict);
      }
      groups := groups + [group.value];
    }
    assert keys[..|keys|] == keys;
    KeysDistinct(cands);
    SortedDistinct(groups);
    r := Success(Sorting.Sorted(Better, groups));
  }

  /** The whole summary; the "conflicting totals" error cannot come up. */
  method SummarizeServedWeightSize(files: seq<File>, parse: Parser, order: PathOrder) returns (r: Outcome)
    ensures r == Selection(Ranked(Candidates(files, parse), order), Ignored(files))
    ensures r != Conflicting
    ensures r == NoWeights <==> Candidates(files, parse) == []
    // Something whole is served if there is something whole: `model` before all others,
    // then what declares its total, then what has the most bytes.
    ensures forall s :: s in Candidates(files, parse) && Whole(Members(Candidates(files, parse), s.groupKey)) ==>
              && r.Served? && (s.name.family == "model" ==> r.summary.family == "model")
              && ((s.name.family == "model") == (r.summary.family == "model") ==>
                    && (s.name.total.Some? ==> r.summary.expected.Some?)
                    && (s.name.total.Some? == r.summary.expected.Some? ==>
                          Bytes(Members(Candidates(files, parse), s.groupKey)) <= r.summary.bytes))
  {
    var cands, ignored := CollectCandidates(files, parse);
    if |cands| == 0 {
      return NoWeights;
    }
    MembersHave(cands, cands[0].groupKey);
    KeysHaveMembers(cands, cands[0].groupKey);
    assert cands[0] in Members(cands, cands[0].groupKey);
    var ranking := RankGroups(cands, order);
    if ranking.Failure? {
      return Conflicting;
    }
    var ranked := ranking.value;
    WholeIsServed(cands, order, ignored);
    var selected := ranked[0];
    if !selected.complete {
      return Incomplete(selected.family, |selected.shards|, selected.expected);
    }
    var alternates := OtherFamilies(ranked);
    r := Served(Summary(selected.bytes, |selected.shards|, selected.expected, selected.family,
                        PathsOf(selected.shards), alternates, ignored));
  }

  // ---------------------------------------------------------------------
  // What the summary says
  // ---------------------------------------------------------------------

  /** The selected group is the first, in listing order, that no group beats. */
  lemma {:induction false} SelectedIsFirstBest(cands: seq<Shard>, order: PathOrder) returns (i: nat)
    requires cands != []
    ensures i < |Keys(cands)| && |Ranked(cands, order)| > 0
    ensures Ranked(cands, order)[0] == GroupOf(cands, Keys(cands)[i], order)
    ensures forall j :: 0 <= j < |Keys(cands)| ==>
              !Better(GroupOf(cands, Keys(cands)[j], order), GroupOf(cands, Keys(cands)[i], order))
    ensures forall j :: 0 <= j < i ==>
              Better(GroupOf(cands, Keys(cands)[i], order), GroupOf(cands, Keys(cands)[j], order))
  {
    BetterIsWeakOrder();
    MembersHave(cands, cands[0].groupKey);
    KeysHaveMembers(cands, cands[0].groupKey);
    assert cands[0] in Members(cands, cands[0].groupKey);
    var groups := GroupsOf(cands, Keys(cands), order);
    i := Sorting.HeadIsFirstBest(Better, groups);
    forall j | 0 <= j < |Keys(cands)|
      ensures !Better(GroupOf(cands, Keys(cands)[j], order), GroupOf(cands, Keys(cands)[i], order))
      ensures j < i ==> Better(GroupOf(cands, Keys(cands)[i], order), GroupOf(cands, Keys(cands)[j], order))
    {
      assert groups[j] == GroupOf(cands, Keys(cands)[j], order);
    }
  }

  /** The "incomplete" error comes up iff there are candidates and not one complete group among them. */
  lemma {:induction false} IncompleteIffNoneIsComplete(cands: seq<Shard>, order: PathOrder, ignored: seq<string>)
    ensures Selection(Ranked(cands, order), ignored).Incomplete? <==>
              cands != [] && forall key :: key in Keys(cands) ==> !Complete(Sorting.Sorted(order, Members(cands, key)))
  {
    if cands != [] {
      var i := SelectedIsFirstBest(cands, order);
      var best := GroupOf(cands, Keys(cands)[i], order);
      forall key | key in Keys(cands) && GroupOf(cands, key, order).complete
        ensures best.complete
      {
        var j :| 0 <= j < |Keys(cands)| && Keys(cands)[j] == key;
        assert !Better(GroupOf(cands, Keys(cands)[j], order), best);
      }
      assert Keys(cands)[i] in Keys(cands);
    }
  }

  /** A group of some candidate, told by its members. */
  lemma {:induction false} GroupIs(cands: seq<Shard>, s: Shard, order: PathOrder)
    requires Keyed(cands) && s in cands
    ensures s.groupKey in Keys(cands)
    ensures var g := GroupOf(cands, s.groupKey, order);
            && g.family == s.name.family && g.expected == s.name.total
            && g.bytes == Bytes(Members(cands, s.groupKey)) && |g.shards| == |Members(cands, s.groupKey)|
            && (g.complete <==> Whole(Members(cands, s.groupKey)))
  {
    var members := Members(cands, s.groupKey);
    var shards := Sorting.Sorted(order, members);
    MembersHave(cands, s.groupKey);
    KeysHaveMembers(cands, s.groupKey);
    Sorting.SortedHas(order, members);
    BytesSorted(order, members);
    GroupsAgreeOnTotals(cands, s.groupKey, order);
    CompleteIffWhole(shards);
    WholeInAnyOrder(shards, members);
    WholeInAnyOrder(members, shards);
    DeclaredIsThere(shards);
    forall t | t in members
      ensures t.name.family == s.name.family && t.name.total == s.name.total
    {
      KeyTellsAll(s.name, t.name);
    }
    assert s in members && members[0] in members && s in shards;
  }

  lemma {:induction false} WholeFromInAnyOrder(a: seq<Shard>, b: seq<Shard>, first: nat)
    requires |a| == |b| && (forall s :: s in a <==> s in b) && WholeFrom(a, first)
    ensures WholeFrom(b, first)
  {
    forall i | first <= i < first + |b|
      ensures HasIndex(b, i)
    {
      assert HasIndex(a, i);
      var s :| s in a && s.name.index == Some(i);
      assert s in b;
    }
  }

  lemma {:induction false} WholeInAnyOrder(a: seq<Shard>, b: seq<Shard>)
    requires |a| == |b| && forall s :: s in a <==> s in b
    ensures Whole(a) ==> Whole(b)
  {
    if WholeFrom(a, 0) {
      WholeFromInAnyOrder(a, b, 0);
    }
    if WholeFrom(a, 1) {
      WholeFromInAnyOrder(a, b, 1);
    }
  }

  lemma {:induction false} PathsAre(shards: seq<Shard>)
    ensures |PathsOf(shards)| == |shards|
    ensures forall s :: s in shards ==> s.path in PathsOf(shards)
  {
    if shards != [] {
      var front, last := shards[..|shards| - 1], shards[|shards| - 1];
      PathsAre(front);
      assert shards == front + [last];
    }
  }

  /**
   * The preference, told shard by shard: against any candidate `other`, the group
   * selected - that of the candidate `best` - is whole if the other's is; then it
   * is `model` if the other's is; then it declares a total if the other's does;
   * and then it has at least as many bytes.
   */
  lemma {:induction false} PreferredIsServed(cands: seq<Shard>, order: PathOrder, ignored: seq<string>, other: Shard)
    returns (best: Shard)
    requires Keyed(cands) && other in cands
    ensures best in cands
    ensures match Selection(Ranked(cands, order), ignored)
            case Served(summary) =>
              && Whole(Members(cands, best.groupKey)) && summary.family == best.name.family
              && summary.expected == best.name.total && summary.bytes == Bytes(Members(cands, best.groupKey))
              && summary.shardCount == |summary.paths| == |Members(cands, best.groupKey)|
              && (forall s :: s in Members(cands, best.groupKey) ==> s.path in summary.paths)
              && summary.ignored == ignored
            case Incomplete(family, found, expected) =>
              && !Whole(Members(cands, best.groupKey)) && family == best.name.family
              && expected == best.name.total && found == |Members(cands, best.groupKey)|
            case _ => false
    ensures Whole(Members(cands, other.groupKey)) ==> Whole(Members(cands, best.groupKey))
    ensures Whole(Members(cands, other.groupKey)) == Whole(Members(cands, best.groupKey)) ==>
              && (other.name.family == "model" ==> best.name.family == "model")
              && ((other.name.family == "model") == (best.name.family == "model") ==>
                    && (other.name.total.Some? ==> best.name.total.Some?)
                    && (other.name.total.Some? == best.name.total.Some? ==>
                          Bytes(Members(cands, other.groupKey)) <= Bytes(Members(cands, best.groupKey))))
  {
    var i := SelectedIsFirstBest(cands, order);
    var key := Keys(cands)[i];
    KeysHaveMembers(cands, key);
    MembersHave(cands, key);
    best := Members(cands, key)[0];
    assert best in Members(cands, key) && key in Keys(cands);
    GroupIs(cands, best, order);
    GroupIs(cands, other, order);
    var j :| 0 <= j < |Keys(cands)| && Keys(cands)[j] == other.groupKey;
    assert !Better(GroupOf(cands, Keys(cands)[j], order), GroupOf(cands, key, order));
    Sorting.SortedHas(order, Members(cands, key));
    PathsAre(Sorting.Sorted(order, Members(cands, key)));
  }

  lemma {:induction false} WholeIsServed(cands: seq<Shard>, order: PathOrder, ignored: seq<string>)
    requires Keyed(cands)
    ensures var r := Selection(Ranked(cands, order), ignored);
            forall s :: s in cands && Whole(Members(cands, s.groupKey)) ==>
              && r.Served? && (s.name.family == "model" ==> r.summary.family == "model")
              && ((s.name.family == "model") == (r.summary.family == "model") ==>
                    && (s.name.total.Some? ==> r.summary.expected.Some?)
                    && (s.name.total.Some? == r.summary.expected.Some? ==>
                          Bytes(Members(cands, s.groupKey)) <= r.summary.bytes))
  {
    forall s | s in cands && Whole(Members(cands, s.groupKey))
      ensures var r := Selection(Ranked(cands, order), ignored);
              && r.Served? && (s.name.family == "model" ==> r.summary.family == "model")
              && ((s.name.family == "model") == (r.summary.family == "model") ==>
                    && (s.name.total.Some? ==> r.summary.expected.Some?)
                    && (s.name.total.Some? == r.summary.expected.Some? ==>
                          Bytes(Members(cands, s.groupKey)) <= r.summary.bytes))
    {
      var _ := PreferredIsServed(cands, order, ignored, s);
    }
  }

  function GroupBytes(groups: seq<Group>): nat {
    if groups == [] then 0 else GroupBytes(groups[..|groups| - 1]) + groups[|groups| - 1].bytes
  }

  function AlternateBytes(alternates: seq<Alternate>): nat {
    if alternates == [] then 0 else AlternateBytes(alternates[..|alternates| - 1]) + alternates[|alternates| - 1].bytes
  }

  lemma {:induction false} GroupBytesNext(groups: seq<Group>, g: Group)
    ensures GroupBytes(groups + [g]) == GroupBytes(groups) + g.bytes
  {
    assert (groups + [g])[..|groups|] == groups;
  }

  lemma {:induction false} GroupBytesPut(s: seq<Group>, x: Group)
    ensures GroupBytes(Sorting.Put(Better, s, x)) == GroupBytes(s) + x.bytes
  {
    if s != [] && Better(x, s[|s| - 1]) {
      GroupBytesPut(s[..|s| - 1], x);
      GroupBytesNext(Sorting.Put(Better, s[..|s| - 1], x), s[|s| - 1]);
    } else {
      GroupBytesNext(s, x);
    }
  }

  lemma {:induction false} GroupBytesSorted(s: seq<Group>)
    ensures GroupBytes(Sorting.Sorted(Better, s)) == GroupBytes(s)
  {
    if s != [] {
      GroupBytesSorted(s[..|s| - 1]);
      GroupBytesPut(Sorting.Sorted(Better, s[..|s| - 1]), s[|s| - 1]);
    }
  }

  lemma {:induction false} GroupBytesHead(groups: seq<Group>)
    requires groups != []
    ensures GroupBytes(groups) == groups[0].bytes + AlternateBytes(AlternatesOf(groups[1..]))
  {
    if |groups| == 1 {
      assert groups[..0] == [];
    } else {
      var front, last := groups[..|groups| - 1], groups[|groups| - 1];
      GroupBytesHead(front);
      assert groups[1..][..|groups| - 2] == front[1..];
      AlternateBytesNext(AlternatesOf(front[1..]), Alternate(last.family, |last.shards|, last.bytes));
    }
  }

  lemma {:induction false} AlternateBytesNext(alternates: seq<Alternate>, a: Alternate)
    ensures AlternateBytes(alternates + [a]) == AlternateBytes(alternates) + a.bytes
  {
    assert (alternates + [a])[..|alternates|] == alternates;
  }

  lemma {:induction false} GroupsOfBytes(cands: seq<Shard>, keys: seq<string>, order: PathOrder)
    ensures GroupBytes(GroupsOf(cands, keys, order)) == BytesOfKeys(cands, keys)
  {
    if keys != [] {
      var front, last := keys[..|keys| - 1], keys[|keys| - 1];
      GroupsOfBytes(cands, front, order);
      BytesSorted(order, Members(cands, last));
      GroupBytesNext(GroupsOf(cands, front, order), GroupOf(cands, last, order));
    }
  }

  /** Conservation: what is served and its alternates add up to all the candidates' bytes. */
  lemma {:induction false} NoByteLost(cands: seq<Shard>, order: PathOrder, ignored: seq<string>)
    ensures var r := Selection(Ranked(cands, order), ignored);
            r.Served? ==> r.summary.bytes + AlternateBytes(r.summary.alternates) == Bytes(cands)
  {
    var ranked := Ranked(cands, order);
    if ranked != [] {
      GroupBytesHead(ranked);
      GroupBytesSorted(GroupsOf(cands, Keys(cands), order));
      GroupsOfBytes(cands, Keys(cands), order);
      GroupsHoldAllBytes(cands, Keys(cands));
    }
  }
}
