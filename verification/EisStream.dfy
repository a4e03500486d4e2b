// Server-sent events from Elastic inference (src/services/eis-llm-client.ts): the
// payload parser, and the loop that parses a response while it streams in.
//
// Both follow the WHATWG HTML Living Standard, sections 9.2.5 and 9.2.6, only in
// part: lines end in LF or CRLF, and only the first `data` line of a block counts.
// Text stands for the decoded bytes; JSON.parse is a parameter.
module EisStream {
  import opened Prelude
  import opened Text

  // ---------------------------------------------------------------------
  // Data
  // ---------------------------------------------------------------------

  datatype RawUsage = RawUsage(prompt: Option<int>, completion: Option<int>, total: Option<int>)
  datatype Usage = Usage(promptTokens: int, completionTokens: int, totalTokens: int)

  /** The fields the client reads of one chunk; `content` and `finishReason` are the first choice's. */
  datatype Chunk = Chunk(errorMessage: Option<string>, model: Option<string>, content: Option<string>,
                         finishReason: Option<string>, usage: Option<RawUsage>)

  /** What JSON.parse makes of a payload. */
  datatype Json = NotJson | NullValue | Value(chunk: Chunk)

  datatype Error = ServerError(message: string) | NullChunk

  datatype Parsed = Parsed(content: string, finishReason: string, model: string, usage: Option<Usage>)

  const UNKNOWN := "unknown"
  const DATA := "data:"
  const DONE := "[DONE]"
  const BOM := '\U{FEFF}'

  const INITIAL := Parsed("", UNKNOWN, "", None)

  /** JavaScript truthiness of an optional string. */
  predicate Truthy(s: Option<string>) {
    s.Some? && s.value != ""
  }

  // ---------------------------------------------------------------------
  // Text: `trim`, and the delimiters \r?\n and \r?\n\r?\n
  // ---------------------------------------------------------------------

  predicate IsSpace(c: char) {
    || c in "\t\n\r " || c == '\U{000B}' || c == '\U{000C}' || c == '\U{00A0}' || c == '\U{1680}'
    || '\U{2000}' <= c <= '\U{200A}' || c in ['\U{2028}', '\U{2029}', '\U{202F}', '\U{205F}', '\U{3000}', BOM]
  }

  function TrimEnd(s: string): string {
    if s != "" && IsSpace(s[|s| - 1]) then TrimEnd(s[..|s| - 1]) else s
  }

  function TrimStart(s: string): string {
    if s != "" && IsSpace(s[0]) then TrimStart(s[1..]) else s
  }

  function Trim(s: string): string {
    TrimStart(TrimEnd(s))
  }

  function StripBom(s: string): string {
    if s == "" then "" else (if s[0] == BOM then "" else [s[0]]) + StripBom(s[1..])
  }

  /** Length of the line ending at `i`: 1 for LF, 2 for CRLF, 0 for none. */
  function NewlineAt(s: string, i: nat): (n: nat) {
    if i < |s| && s[i] == '\n' then 1
    else if i + 1 < |s| && s[i] == '\r' && s[i + 1] == '\n' then 2
    else 0
  }

  /** Length of the block delimiter at `i`, 0 for none. */
  function DelimiterAt(s: string, i: nat): (n: nat)
    ensures n > 0 ==> i + n <= |s|
  {
    var first := NewlineAt(s, i);
    if first == 0 then 0
    else
      var second := NewlineAt(s, i + first);
      if second == 0 then 0 else first + second
  }

  /** `s.search(/\r?\n\r?\n/)` */
  function FirstDelimiter(s: string): (at: Option<nat>)
    ensures at.None? ==> forall i: nat :: DelimiterAt(s, i) == 0
    ensures at.Some? ==> DelimiterAt(s, at.value) > 0 && forall i: nat :: i < at.value ==> DelimiterAt(s, i) == 0
  {
    FirstDelimiterFrom(s, 0)
  }

  function FirstDelimiterFrom(s: string, from: nat): (at: Option<nat>)
    ensures at.None? ==> forall i: nat :: from <= i ==> DelimiterAt(s, i) == 0
    ensures at.Some? ==> from <= at.value && DelimiterAt(s, at.value) > 0
                         && forall i: nat :: from <= i < at.value ==> DelimiterAt(s, i) == 0
    decreases |s| - from
  {
    if from >= |s| then None
    else if DelimiterAt(s, from) > 0 then Some(from)
    else FirstDelimiterFrom(s, from + 1)
  }

  /** The text after the delimiter at `at`. */
  function After(s: string, at: nat): string
    requires DelimiterAt(s, at) > 0
  {
    s[at + DelimiterAt(s, at)..]
  }

  /** `s.split(/\r?\n\r?\n/)` */
  function SplitBlocks(s: string): seq<string>
    decreases |s|
  {
    match FirstDelimiter(s)
    case None => [s]
    case Some(at) => [s[..at]] + SplitBlocks(After(s, at))
  }

  /** `s.split(/\r?\n/)`: a carriage return before a line feed belongs to the line ending. */
  function Lines(s: string): seq<string> {
    ChopAllButLast(Split(s, '\n'))
  }

  function Chop(line: string): string {
    if line != "" && line[|line| - 1] == '\r' then line[..|line| - 1] else line
  }

  function ChopAllButLast(pieces: seq<string>): seq<string> {
    if |pieces| <= 1 then pieces else [Chop(pieces[0])] + ChopAllButLast(pieces[1..])
  }

  /** `lines.find(line => line.startsWith('data:'))`, cut and trimmed. */
  function FirstPayload(lines: seq<string>): Option<string> {
    if lines == [] then None
    else if StartsWith(lines[0], DATA) then Some(Trim(lines[0][|DATA|..]))
    else FirstPayload(lines[1..])
  }

  // ---------------------------------------------------------------------
  // What a list of payloads means
  // ---------------------------------------------------------------------

  /** The chunks a payload contributes, or the exception it raises. */
  function ReadPayload(payload: string, json: string -> Json): Result<seq<Chunk>, Error> {
    if payload == "" || payload == DONE then Success([])
    else
      match json(payload)
      case NotJson => Success([])
      case NullValue => Failure(NullChunk)
      case Value(chunk) =>
        if Truthy(chunk.errorMessage) then Failure(ServerError(chunk.errorMessage.value)) else Success([chunk])
  }

  function ReadAll(payloads: seq<string>, json: string -> Json): Result<seq<Chunk>, Error> {
    if payloads == [] then Success([])
    else
      match ReadPayload(payloads[0], json)
      case Failure(e) => Failure(e)
      case Success(here) =>
        match ReadAll(payloads[1..], json)
        case Failure(e) => Failure(e)
        case Success(rest) => Success(here + rest)
  }

  function Join2(a: Result<seq<Chunk>, Error>, b: Result<seq<Chunk>, Error>): Result<seq<Chunk>, Error> {
    if a.Failure? then a else if b.Failure? then b else Success(a.value + b.value)
  }

  lemma {:induction false} JoinEmpty(b: Result<seq<Chunk>, Error>)
    ensures Join2(Success([]), b) == b == Join2(b, Success([]))
  {
    if b.Success? {
      assert [] + b.value == b.value == b.value + [];
    }
  }

  lemma {:induction false} ReadAllAppend(a: seq<string>, b: seq<string>, json: string -> Json)
    ensures ReadAll(a + b, json) == Join2(ReadAll(a, json), ReadAll(b, json))
  {
    if a == [] {
      assert a + b == b;
      JoinEmpty(ReadAll(b, json));
    } else {
      assert (a + b)[0] == a[0] && (a + b)[1..] == a[1..] + b;
      ReadAllAppend(a[1..], b, json);
      var here, there, last := ReadPayload(a[0], json), ReadAll(a[1..], json), ReadAll(b, json);
      if here.Success? && there.Success? && last.Success? {
        PlusAssociates(here.value, there.value, last.value);
      }
    }
  }

  function Contents(chunks: seq<Chunk>): string {
    if chunks == [] then "" else chunks[0].content.GetOr("") + Contents(chunks[1..])
  }

  function Models(chunks: seq<Chunk>): seq<string> {
    if chunks == [] then []
    else (if Truthy(chunks[0].model) then [chunks[0].model.value] else []) + Models(chunks[1..])
  }

  function Reasons(chunks: seq<Chunk>): seq<string> {
    if chunks == [] then []
    else (if Truthy(chunks[0].finishReason) then [chunks[0].finishReason.value] else []) + Reasons(chunks[1..])
  }

  function ToUsage(raw: RawUsage): Usage {
    Usage(raw.prompt.GetOr(0), raw.completion.GetOr(0), raw.total.GetOr(0))
  }

  function Usages(chunks: seq<Chunk>): seq<Option<Usage>> {
    if chunks == [] then []
    else (if chunks[0].usage.Some? then [Some(ToUsage(chunks[0].usage.value))] else []) + Usages(chunks[1..])
  }

  function LastOr<T>(xs: seq<T>, default: T): T {
    if xs == [] then default else xs[|xs| - 1]
  }

  /** All text in order; of every other field the last one that says anything. */
  function Summary(chunks: seq<Chunk>): Parsed {
    Parsed(Contents(chunks), LastOr(Reasons(chunks), UNKNOWN), LastOr(Models(chunks), ""), LastOr(Usages(chunks), None))
  }

  function Summarize(read: Result<seq<Chunk>, Error>): Result<Parsed, Error> {
    if read.Failure? then Failure(read.error) else Success(Summary(read.value))
  }

  lemma {:induction false} HeadFirst(chunks: seq<Chunk>)
    requires chunks != []
    ensures Models(chunks) == Models([chunks[0]]) + Models(chunks[1..])
    ensures Reasons(chunks) == Reasons([chunks[0]]) + Reasons(chunks[1..])
    ensures Usages(chunks) == Usages([chunks[0]]) + Usages(chunks[1..])
  {
    assert [chunks[0]][1..] == [];
  }

  lemma {:induction false} SummaryAppend(a: seq<Chunk>, b: seq<Chunk>)
    ensures Contents(a + b) == Contents(a) + Contents(b)
    ensures Models(a + b) == Models(a) + Models(b)
    ensures Reasons(a + b) == Reasons(a) + Reasons(b)
    ensures Usages(a + b) == Usages(a) + Usages(b)
  {
    if a == [] {
      assert a + b == b;
    } else {
      assert (a + b)[0] == a[0] && (a + b)[1..] == a[1..] + b;
      var rest := a[1..];
      SummaryAppend(rest, b);
      PlusAssociates(a[0].content.GetOr(""), Contents(rest), Contents(b));
      PlusAssociates(Models([a[0]]), Models(rest), Models(b));
      PlusAssociates(Reasons([a[0]]), Reasons(rest), Reasons(b));
      PlusAssociates(Usages([a[0]]), Usages(rest), Usages(b));
      HeadFirst(a);
      HeadFirst(a + b);
    }
  }

  // ---------------------------------------------------------------------
  // The payloads of a text: the first data line of every group of lines
  // between blank ones. Cutting a text at any blank line cuts its payloads.
  // ---------------------------------------------------------------------

  predicate Blank(piece: string) {
    piece == "" || piece == "\r"
  }

  function Scan(pieces: seq<string>, found: bool): seq<string> {
    if pieces == [] then []
    else if Blank(pieces[0]) then Scan(pieces[1..], false)
    else if !found && StartsWith(pieces[0], DATA) then [Trim(pieces[0][|DATA|..])] + Scan(pieces[1..], true)
    else Scan(pieces[1..], found)
  }

  function Payloads(s: string): seq<string> {
    Scan(Split(s, '\n'), false)
  }

  lemma {:induction false} ScanAtBlank(a: seq<string>, blank: string, b: seq<string>, found: bool)
    requires Blank(blank)
    ensures Scan(a + [blank] + b, found) == Scan(a, found) + Scan(b, false)
  {
    var all := a + [blank] + b;
    if a == [] {
      assert all[1..] == b;
    } else {
      assert all[0] == a[0] && all[1..] == a[1..] + [blank] + b;
      ScanAtBlank(a[1..], blank, b, false);
      ScanAtBlank(a[1..], blank, b, true);
    }
  }

  lemma {:induction false} ReturnIgnored(piece: string)
    ensures StartsWith(piece + "\r", DATA) == StartsWith(piece, DATA)
    ensures StartsWith(piece, DATA) ==> Trim((piece + "\r")[|DATA|..]) == Trim(piece[|DATA|..])
  {
    if |piece| >= 5 {
      assert (piece + "\r")[..5] == piece[..5];
    } else if |piece| == 4 {
      assert (piece + "\r")[4] == '\r';
    }
    if StartsWith(piece, DATA) {
      var rest := piece[5..];
      assert (piece + "\r")[5..] == rest + "\r";
      assert (rest + "\r")[..|rest|] == rest;
      assert TrimEnd(rest + "\r") == TrimEnd(rest);
    }
  }

  lemma {:induction false} ScanTrailingReturn(pieces: seq<string>, last: string, found: bool)
    ensures Scan(pieces + [last + "\r"], found) == Scan(pieces + [last], found)
  {
    var a, b := pieces + [last + "\r"], pieces + [last];
    if pieces == [] {
      ReturnIgnored(last);
      assert a[1..] == [] && b[1..] == [];
    } else {
      assert a[0] == b[0] == pieces[0];
      assert a[1..] == pieces[1..] + [last + "\r"] && b[1..] == pieces[1..] + [last];
      ScanTrailingReturn(pieces[1..], last, false);
      ScanTrailingReturn(pieces[1..], last, true);
    }
  }

  /** `q` is `p` with a carriage return at the very end. */
  predicate EndsInReturn(p: seq<string>, q: seq<string>) {
    && p != [] && |q| == |p|
    && q[|p| - 1] == p[|p| - 1] + "\r"
    && forall i :: 0 <= i < |p| - 1 ==> q[i] == p[i]
  }

  lemma {:induction false} EndsInReturnGrow(x: char, p: seq<string>, q: seq<string>)
    requires EndsInReturn(p, q)
    ensures EndsInReturn(Grow(x, p), Grow(x, q)) && EndsInReturn([""] + p, [""] + q)
  {
    if |p| == 1 {
      PlusAssociates([x], p[0], "\r");
    }
  }

  lemma {:induction false} SplitTrailingReturn(s: string)
    ensures EndsInReturn(Split(s, '\n'), Split(s + "\r", '\n'))
  {
    if s == "" {
      assert s + "\r" == "\r";
      SplitWhole("\r", '\n');
    } else {
      SplitTrailingReturn(s[1..]);
      assert (s + "\r")[1..] == s[1..] + "\r" && (s + "\r")[0] == s[0];
      EndsInReturnGrow(s[0], Split(s[1..], '\n'), Split(s[1..] + "\r", '\n'));
    }
  }

  lemma {:induction false} PayloadsTrailingReturn(s: string)
    ensures Payloads(s + "\r") == Payloads(s)
  {
    SplitTrailingReturn(s);
    var p := Split(s, '\n');
    assert p == p[..|p| - 1] + [p[|p| - 1]];
    assert Split(s + "\r", '\n') == p[..|p| - 1] + [p[|p| - 1] + "\r"];
    ScanTrailingReturn(p[..|p| - 1], p[|p| - 1], false);
  }

  ghost predicate IsDelimiter(d: string) {
    d == "\n\n" || d == "\r\n\n" || d == "\n\r\n" || d == "\r\n\r\n"
  }

  /** Payloads are cut by any blank line, wherever it stands and whichever line endings make it up. */
  lemma {:induction false} PayloadsCut(a: string, d: string, b: string)
    requires IsDelimiter(d)
    ensures Payloads(a + d + b) == Payloads(a) + Payloads(b)
  {
    var a' := if d[0] == '\r' then a + "\r" else a;
    var middle := if d == "\n\n" || d == "\r\n\n" then "" else "\r";
    assert a + d + b == a' + "\n" + (middle + "\n" + b);
    SplitAppend(a', middle + "\n" + b, '\n');
    SplitAppend(middle, b, '\n');
    SplitWhole(middle, '\n');
    PlusAssociates(Split(a', '\n'), [middle], Split(b, '\n'));
    ScanAtBlank(Split(a', '\n'), middle, Split(b, '\n'), false);
    PayloadsTrailingReturn(a);
  }

  lemma {:induction false} CutDelimiter(s: string, at: nat)
    requires DelimiterAt(s, at) > 0
    ensures var d := s[at..at + DelimiterAt(s, at)];
            IsDelimiter(d) && s == s[..at] + d + After(s, at)
  {
    var n := DelimiterAt(s, at);
    var d := s[at..at + n];
    assert s == s[..at] + d + After(s, at);
    if NewlineAt(s, at) == 1 {
      assert d[0] == '\n' && d[1] == s[at + 1];
      assert n == 3 ==> d[2] == s[at + 2];
    } else {
      assert d[0] == '\r' && d[1] == '\n' && d[2] == s[at + 2];
      assert n == 4 ==> d[3] == s[at + 3];
    }
  }

  // ----- a block without delimiter has at most one payload ---------------

  predicate InnerSolid(pieces: seq<string>) {
    forall i :: 1 <= i < |pieces| - 1 ==> !Blank(pieces[i])
  }

  lemma {:induction false} NoDelimiterInnerSolid(s: string)
    requires forall i: nat :: DelimiterAt(s, i) == 0
    ensures InnerSolid(Split(s, '\n'))
    decreases |s|
  {
    var pieces := Split(s, '\n');
    if s != "" && |pieces| > 1 {
      var p := pieces[0];
      FirstPiece(s);
      var rest := s[|p| + 1..];
      forall i: nat
        ensures DelimiterAt(rest, i) == 0
      {
        assert DelimiterAt(s, i + |p| + 1) == 0;
        assert NewlineAt(rest, i) == NewlineAt(s, i + |p| + 1);
        assert NewlineAt(rest, i + NewlineAt(rest, i)) == NewlineAt(s, i + |p| + 1 + NewlineAt(rest, i));
      }
      NoDelimiterInnerSolid(rest);
      assert pieces[1..] == Split(rest, '\n');
      if |pieces| > 2 {
        FirstPiece(rest);
        assert NewlineAt(s, |p|) == 1;
        var q, second := pieces[1], NewlineAt(s, |p| + 1);
        assert rest[..|q|] == q && rest[|q|] == '\n';
        assert Blank(q) ==> second > 0;
        assert DelimiterAt(s, |p|) == 0;
      }
    }
  }

  /** The first piece ends at the first line feed. */
  lemma {:induction false} FirstPiece(s: string)
    requires |Split(s, '\n')| > 1
    ensures var p := Split(s, '\n')[0];
            && |p| < |s| && s[..|p|] == p && s[|p|] == '\n'
            && Split(s, '\n') == [p] + Split(s[|p| + 1..], '\n')
  {
    if s[0] != '\n' {
      FirstPiece(s[1..]);
      var p := Split(s[1..], '\n')[0];
      assert s[1..][|p| + 1..] == s[|p| + 2..];
      assert Split(s, '\n')[0] == [s[0]] + p;
    }
  }

  lemma {:induction false} ScanFound(pieces: seq<string>)
    requires forall i :: 0 <= i < |pieces| - 1 ==> !Blank(pieces[i])
    ensures Scan(pieces, true) == []
  {
    if pieces != [] {
      ScanFound(pieces[1..]);
      if |pieces| == 1 {
        assert Scan(pieces[1..], false) == [];
      }
    }
  }

  function AsSeq(payload: Option<string>): seq<string> {
    if payload.Some? then [payload.value] else []
  }

  lemma {:induction false} ScanIsFind(pieces: seq<string>)
    requires InnerSolid(pieces)
    ensures Scan(pieces, false) == AsSeq(FirstPayload(ChopAllButLast(pieces)))
  {
    if pieces != [] {
      assert InnerSolid(pieces[1..]);
      ScanIsFind(pieces[1..]);
      var p := pieces[0];
      if |pieces| > 1 {
        assert ChopAllButLast(pieces)[1..] == ChopAllButLast(pieces[1..]);
        if Chop(p) != p {
          assert Chop(p) + "\r" == p;
          ReturnIgnored(Chop(p));
        }
      }
      if !Blank(p) && StartsWith(p, DATA) {
        forall i | 0 <= i < |pieces[1..]| - 1
          ensures !Blank(pieces[1..][i])
        {
          assert !Blank(pieces[i + 1]);
        }
        ScanFound(pieces[1..]);
      }
    }
  }

  lemma {:induction false} BlockHasOnePayload(block: string)
    requires forall i: nat :: DelimiterAt(block, i) == 0
    ensures Payloads(block) == AsSeq(FirstPayload(Lines(block)))
  {
    NoDelimiterInnerSolid(block);
    ScanIsFind(Split(block, '\n'));
  }

  function BlockPayloads(blocks: seq<string>): seq<string> {
    if blocks == [] then [] else AsSeq(FirstPayload(Lines(blocks[0]))) + BlockPayloads(blocks[1..])
  }

  lemma {:induction false} BlockIsSolid(s: string, at: nat)
    requires at <= |s| && forall i: nat :: i < at ==> DelimiterAt(s, i) == 0
    ensures forall i: nat :: DelimiterAt(s[..at], i) == 0
  {
    forall i: nat
      ensures DelimiterAt(s[..at], i) == 0
    {
      if i < at {
        assert DelimiterAt(s, i) == 0;
      }
    }
  }

  /** The parser's blocks and first data lines, read by the line-by-line definition. */
  lemma {:induction false} BlocksCarryPayloads(s: string)
    ensures BlockPayloads(SplitBlocks(s)) == Payloads(s)
    decreases |s|
  {
    match FirstDelimiter(s)
    case None =>
      BlockHasOnePayload(s);
      assert SplitBlocks(s)[1..] == [];
    case Some(at) =>
      CutDelimiter(s, at);
      var block, rest := s[..at], After(s, at);
      BlocksCarryPayloads(rest);
      PayloadsCut(block, s[at..at + DelimiterAt(s, at)], rest);
      BlockIsSolid(s, at);
      BlockHasOnePayload(block);
      assert SplitBlocks(s)[1..] == SplitBlocks(rest);
  }

  // ---------------------------------------------------------------------
  // parseEisSsePayload
  // ---------------------------------------------------------------------

  function Meaning(raw: string, json: string -> Json): Result<Parsed, Error> {
    Summarize(ReadAll(Payloads(StripBom(raw)), json))
  }

  lemma {:induction false} SummaryOne(seen: seq<Chunk>, chunk: Chunk)
    ensures var before := Summary(seen);
            Summary(seen + [chunk]) == Parsed(
              before.content + chunk.content.GetOr(""),
              if Truthy(chunk.finishReason) then chunk.finishReason.value else before.finishReason,
              if Truthy(chunk.model) then chunk.model.value else before.model,
              if chunk.usage.Some? then Some(ToUsage(chunk.usage.value)) else before.usage)
  {
    SummaryAppend(seen, [chunk]);
    assert [chunk][1..] == [];
    assert Contents([chunk]) == chunk.content.GetOr("");
  }

  lemma {:induction false} ReadBlock(blocks: seq<string>, json: string -> Json)
    requires blocks != []
    ensures var found, later := FirstPayload(Lines(blocks[0])), ReadAll(BlockPayloads(blocks[1..]), json);
            ReadAll(BlockPayloads(blocks), json) ==
            if found.None? then later else Join2(ReadPayload(found.value, json), later)
  {
    var found, later := FirstPayload(Lines(blocks[0])), ReadAll(BlockPayloads(blocks[1..]), json);
    ReadAllAppend(AsSeq(found), BlockPayloads(blocks[1..]), json);
    JoinEmpty(later);
    if found.Some? {
      assert [found.value][1..] == [];
      JoinEmpty(ReadPayload(found.value, json));
    }
  }

  /** Reading `seen` so far and `later` to come, seen from the whole. */
  ghost predicate ReadSoFar(whole: Result<seq<Chunk>, Error>, seen: seq<Chunk>, later: Result<seq<Chunk>, Error>) {
    whole == Join2(Success(seen), later)
  }

  lemma {:induction false} ReadSoFarOne(whole: Result<seq<Chunk>, Error>, seen: seq<Chunk>, chunk: Chunk,
                                        later: Result<seq<Chunk>, Error>)
    requires ReadSoFar(whole, seen, Join2(Success([chunk]), later))
    ensures ReadSoFar(whole, seen + [chunk], later)
  {
    if later.Success? {
      PlusAssociates(seen, [chunk], later.value);
    }
  }

  /** What the next block does to the reading. */
  lemma {:induction false} ReadNext(whole: Result<seq<Chunk>, Error>, seen: seq<Chunk>, blocks: seq<string>, i: nat,
                                    json: string -> Json)
    requires i < |blocks| && ReadSoFar(whole, seen, ReadAll(BlockPayloads(blocks[i..]), json))
    ensures var found, later := FirstPayload(Lines(blocks[i])), ReadAll(BlockPayloads(blocks[i + 1..]), json);
            if found.None? || ReadPayload(found.value, json) == Success([]) then ReadSoFar(whole, seen, later)
            else
              match ReadPayload(found.value, json)
              case Failure(e) => whole == Failure(e)
              case Success(here) => |here| == 1 && ReadSoFar(whole, seen + here, later)
  {
    ReadBlock(blocks[i..], json);
    assert blocks[i..][1..] == blocks[i + 1..];
    var found, later := FirstPayload(Lines(blocks[i])), ReadAll(BlockPayloads(blocks[i + 1..]), json);
    JoinEmpty(later);
    if found.Some? && ReadPayload(found.value, json).Success? && ReadPayload(found.value, json).value != [] {
      ReadSoFarOne(whole, seen, json(found.value).chunk, later);
    }
  }

  lemma {:induction false} ReadDone(whole: Result<seq<Chunk>, Error>, seen: seq<Chunk>, blocks: seq<string>,
                                    json: string -> Json)
    requires ReadSoFar(whole, seen, ReadAll(BlockPayloads(blocks[|blocks|..]), json))
    ensures Summarize(whole) == Success(Summary(seen))
  {
    assert blocks[|blocks|..] == [];
    assert seen + [] == seen;
  }

  method ParseEisSsePayload(raw: string, json: string -> Json) returns (r: Result<Parsed, Error>)
    ensures r == Meaning(raw, json)
  {
    var content, finishReason, model := "", UNKNOWN, "";
    var usage: Option<Usage> := None;
    var normalized := StripBom(raw);
    var blocks := SplitBlocks(normalized);
    ghost var whole := ReadAll(Payloads(normalized), json);
    ghost var seen: seq<Chunk> := [];
    assert ReadSoFar(whole, seen, ReadAll(BlockPayloads(blocks), json)) by {
      BlocksCarryPayloads(normalized);
      JoinEmpty(whole);
    }
    assert blocks[0..] == blocks;
    var i := 0;
    while i < |blocks|
      invariant 0 <= i <= |blocks|
      invariant Parsed(content, finishReason, model, usage) == Summary(seen)
      invariant ReadSoFar(whole, seen, ReadAll(BlockPayloads(blocks[i..]), json))
    {
      ReadNext(whole, seen, blocks, i, json);
      var found := FirstPayload(Lines(blocks[i]));
      i := i + 1;
      if found.None? || found.value == "" || found.value == DONE {
        continue;
      }
      match json(found.value) {
        case NotJson => continue;
        case NullValue => return Failure(NullChunk);
        case Value(chunk) =>
          if Truthy(chunk.errorMessage) {
            return Failure(ServerError(chunk.errorMessage.value));
          }
          SummaryOne(seen, chunk);
          seen := seen + [chunk];
          if Truthy(chunk.model) {
            model := chunk.model.value;
          }
          if Truthy(chunk.content) {
            content := content + chunk.content.value;
          }
          if Truthy(chunk.finishReason) {
            finishReason := chunk.finishReason.value;
          }
          if chunk.usage.Some? {
            usage := Some(ToUsage(chunk.usage.value));
          }
      }
    }
    ReadDone(whole, seen, blocks, json);
    return Success(Parsed(content, finishReason, model, usage));
  }

  // ---------------------------------------------------------------------
  // streamChatCompletion
  // ---------------------------------------------------------------------

  lemma {:induction false} StripBomAppend(a: string, b: string)
    ensures StripBom(a + b) == StripBom(a) + StripBom(b)
  {
    if a == "" {
      assert a + b == b;
    } else {
      assert (a + b)[0] == a[0] && (a + b)[1..] == a[1..] + b;
      StripBomAppend(a[1..], b);
    }
  }

  lemma {:induction false} StripBomClean(d: string)
    requires BOM !in d
    ensures StripBom(d) == d
  {
    if d != "" {
      StripBomClean(d[1..]);
    }
  }

  /** Byte order marks do not disturb the cut: a block read alone means what it means in the whole text. */
  lemma {:induction false} StrippedPayloadsCut(s: string, at: nat, more: string)
    requires DelimiterAt(s, at) > 0
    ensures Payloads(StripBom(s + more)) == Payloads(StripBom(s[..at])) + Payloads(StripBom(After(s, at) + more))
  {
    CutDelimiter(s, at);
    var block, d, rest := s[..at], s[at..at + DelimiterAt(s, at)], After(s, at) + more;
    assert s + more == block + d + rest;
    StripBomAppend(block + d, rest);
    StripBomAppend(block, d);
    assert BOM !in d by {
      assert forall i :: 0 <= i < |d| ==> d[i] == '\r' || d[i] == '\n';
    }
    StripBomClean(d);
    PayloadsCut(StripBom(block), d, StripBom(rest));
  }

  /** More text never moves the first delimiter. */
  lemma {:induction false} DelimiterStays(s: string, at: nat, more: string)
    requires FirstDelimiter(s) == Some(at)
    ensures FirstDelimiter(s + more) == Some(at)
    ensures (s + more)[..at] == s[..at] && After(s + more, at) == After(s, at) + more
  {
    assert DelimiterAt(s + more, at) == DelimiterAt(s, at);
    forall i: nat | i < at
      ensures DelimiterAt(s + more, i) == 0
    {
      assert DelimiterAt(s, i) == 0 && DelimiterAt(s, at) > 0;
      assert at + 2 <= |s|;
    }
  }

  function PieceChunks(piece: string, json: string -> Json): seq<Chunk> {
    match ReadAll(Payloads(StripBom(piece)), json)
    case Success(chunks) => chunks
    case Failure(_) => []
  }

  /** Of every block that states finish reasons, the last one it states. */
  function FinalReasons(pieces: seq<string>, json: string -> Json): seq<string> {
    if pieces == [] then []
    else
      var here := Reasons(PieceChunks(pieces[0], json));
      (if here == [] then [] else [here[|here| - 1]]) + FinalReasons(pieces[1..], json)
  }

  function Known(reasons: seq<string>): seq<string> {
    if reasons == [] then []
    else (if reasons[0] == UNKNOWN then [] else [reasons[0]]) + Known(reasons[1..])
  }

  /** What the streaming client returns for a response text. */
  function StreamMeaning(raw: string, fallback: string, json: string -> Json): Result<Parsed, Error> {
    match ReadAll(Payloads(StripBom(raw)), json)
    case Failure(e) => Failure(e)
    case Success(all) =>
      Success(Parsed(Contents(all), LastOr(Known(FinalReasons(SplitBlocks(raw), json)), UNKNOWN),
                     LastOr(Models(all), fallback), LastOr(Usages(all), None)))
  }

  lemma {:induction false} FinalReasonsAppend(a: seq<string>, piece: string, json: string -> Json)
    ensures FinalReasons(a + [piece], json) == FinalReasons(a, json) + FinalReasons([piece], json)
  {
    if a == [] {
      assert a + [piece] == [piece];
    } else {
      assert (a + [piece])[0] == a[0] && (a + [piece])[1..] == a[1..] + [piece];
      FinalReasonsAppend(a[1..], piece, json);
    }
  }

  lemma {:induction false} KnownAppend(a: seq<string>, b: seq<string>)
    ensures Known(a + b) == Known(a) + Known(b)
  {
    if a == [] {
      assert a + b == b;
    } else {
      assert (a + b)[0] == a[0] && (a + b)[1..] == a[1..] + b;
      KnownAppend(a[1..], b);
      PlusAssociates(if a[0] == UNKNOWN then [] else [a[0]], Known(a[1..]), Known(b));
    }
  }

  /** The result so far: the chunks read, and the blocks they came from. */
  function Standing(seen: seq<Chunk>, pieces: seq<string>, fallback: string, json: string -> Json): Parsed {
    Parsed(Contents(seen), LastOr(Known(FinalReasons(pieces, json)), UNKNOWN),
           LastOr(Models(seen), fallback), LastOr(Usages(seen), None))
  }

  /** Folding one block's parse into the result, as both copies in the source do. */
  function Absorb(acc: Parsed, parsed: Parsed): Parsed {
    Parsed(
      acc.content + parsed.content,
      if parsed.finishReason != UNKNOWN then parsed.finishReason else acc.finishReason,
      if parsed.model != "" then parsed.model else acc.model,
      if parsed.usage.Some? then parsed.usage else acc.usage)
  }

  lemma {:induction false} FieldsSaySomething(chunks: seq<Chunk>)
    ensures forall i :: 0 <= i < |Models(chunks)| ==> Models(chunks)[i] != ""
    ensures forall i :: 0 <= i < |Usages(chunks)| ==> Usages(chunks)[i].Some?
  {
    if chunks != [] {
      FieldsSaySomething(chunks[1..]);
    }
  }

  lemma {:induction false} LastAppend<T>(a: seq<T>, b: seq<T>, default: T)
    ensures LastOr(a + b, default) == if b == [] then LastOr(a, default) else b[|b| - 1]
  {
    if b == [] {
      assert a + b == a;
    }
  }

  lemma {:induction false} AbsorbReason(pieces: seq<string>, piece: string, json: string -> Json)
    ensures var reason := LastOr(Reasons(PieceChunks(piece, json)), UNKNOWN);
            LastOr(Known(FinalReasons(pieces + [piece], json)), UNKNOWN) ==
            if reason != UNKNOWN then reason else LastOr(Known(FinalReasons(pieces, json)), UNKNOWN)
  {
    FinalReasonsAppend(pieces, piece, json);
    assert [piece][1..] == [];
    var final := FinalReasons([piece], json);
    KnownAppend(FinalReasons(pieces, json), final);
    if final != [] {
      assert final == [LastOr(Reasons(PieceChunks(piece, json)), UNKNOWN)];
      assert final[1..] == [];
    }
    LastAppend(Known(FinalReasons(pieces, json)), Known(final), UNKNOWN);
  }

  lemma {:induction false} AbsorbStanding(seen: seq<Chunk>, pieces: seq<string>, piece: string, fallback: string,
                                          json: string -> Json)
    ensures var here := PieceChunks(piece, json);
            Absorb(Standing(seen, pieces, fallback, json), Summary(here)) ==
              Standing(seen + here, pieces + [piece], fallback, json)
  {
    var here := PieceChunks(piece, json);
    SummaryAppend(seen, here);
    FieldsSaySomething(here);
    AbsorbReason(pieces, piece, json);
    LastAppend(Models(seen), Models(here), fallback);
    LastAppend(Usages(seen), Usages(here), None);
  }

  predicate AllSpace(s: string) {
    forall i :: 0 <= i < |s| ==> IsSpace(s[i])
  }

  lemma {:induction false} SplitAllSpace(s: string)
    requires AllSpace(s)
    ensures forall i :: 0 <= i < |Split(s, '\n')| ==> AllSpace(Split(s, '\n')[i])
  {
    if s != "" {
      SplitAllSpace(s[1..]);
    }
  }

  lemma {:induction false} ScanAllSpace(pieces: seq<string>, found: bool)
    requires forall i :: 0 <= i < |pieces| ==> AllSpace(pieces[i])
    ensures Scan(pieces, found) == []
  {
    if pieces != [] {
      assert pieces[0] != "" ==> pieces[0][0] != 'd';
      ScanAllSpace(pieces[1..], false);
      ScanAllSpace(pieces[1..], found);
    }
  }

  lemma {:induction false} TrimmedAway(s: string)
    requires Trim(s) == ""
    ensures AllSpace(s)
    decreases |s|
  {
    if s != "" {
      if IsSpace(s[|s| - 1]) {
        TrimmedAway(s[..|s| - 1]);
      } else {
        TrimStartAway(s);
      }
    }
  }

  lemma {:induction false} TrimStartAway(s: string)
    requires TrimStart(s) == ""
    ensures AllSpace(s)
  {
    if s != "" {
      TrimStartAway(s[1..]);
    }
  }

  lemma {:induction false} StripBomKeepsSpace(s: string)
    requires AllSpace(s)
    ensures AllSpace(StripBom(s))
  {
    if s != "" {
      StripBomKeepsSpace(s[1..]);
    }
  }

  lemma {:induction false} WhitespaceSaysNothing(s: string)
    requires Trim(s) == ""
    ensures Payloads(StripBom(s)) == []
  {
    TrimmedAway(s);
    StripBomKeepsSpace(s);
    SplitAllSpace(StripBom(s));
    ScanAllSpace(Split(StripBom(s), '\n'), false);
  }

  /** Appending the blank line the client puts back changes nothing. */
  lemma {:induction false} ClosedBlock(block: string)
    ensures Payloads(StripBom(block + "\n\n")) == Payloads(StripBom(block))
  {
    StripBomAppend(block, "\n\n");
    StripBomClean("\n\n");
    PayloadsCut(StripBom(block), "\n\n", "");
    assert StripBom(block) + "\n\n" + "" == StripBom(block) + "\n\n";
    assert Payloads("") == [];
  }

  method AbsorbBlock(acc: Parsed, text: string, json: string -> Json) returns (r: Result<Parsed, Error>)
    ensures r == match Meaning(text, json) case Failure(e) => Failure(e) case Success(p) => Success(Absorb(acc, p))
  {
    var parsed := ParseEisSsePayload(text, json);
    if parsed.Failure? {
      return Failure(parsed.error);
    }
    return Success(Absorb(acc, parsed.value));
  }

  /**
   * The streaming loop over a response that arrives as `chunks`. Its result is a
   * function of the concatenated text alone, so no way of cutting the text into
   * chunks - inside a line ending, inside a delimiter - can change it.
   */
  method StreamChatCompletion(chunks: seq<string>, fallback: string, json: string -> Json)
    returns (r: Result<Parsed, Error>)
    ensures r == StreamMeaning(Concat(chunks), fallback, json)
  {
    ghost var raw := Concat(chunks);
    ghost var whole := ReadAll(Payloads(StripBom(raw)), json);
    ghost var seen: seq<Chunk> := [];
    ghost var pieces: seq<string> := [];
    var buffer := "";
    var acc := Parsed("", UNKNOWN, fallback, None);
    JoinEmpty(whole);
    assert chunks[0..] == chunks && buffer + raw == raw;
    var j := 0;
    while j < |chunks|
      invariant 0 <= j <= |chunks|
      invariant StreamInvariant(raw, whole, seen, pieces, buffer + Concat(chunks[j..]), acc, fallback, json)
      invariant FirstDelimiter(buffer).None?
    {
      ConcatNext(buffer, chunks, j);
      ghost var more := Concat(chunks[j + 1..]);
      buffer := buffer + chunks[j];
      j := j + 1;
      var splitIndex := FirstDelimiter(buffer);
      while splitIndex.Some?
        invariant splitIndex == FirstDelimiter(buffer)
        invariant StreamInvariant(raw, whole, seen, pieces, buffer + more, acc, fallback, json)
        decreases |buffer|
      {
        var at := splitIndex.value;
        var block := buffer[..at];
        CutStep(raw, whole, seen, pieces, buffer, at, more, acc, fallback, json);
        ClosedBlock(block);
        var next := AbsorbBlock(acc, block + "\n\n", json);
        if next.Failure? {
          return Failure(next.error);
        }
        acc := next.value;
        seen := seen + PieceChunks(block, json);
        pieces := pieces + [block];
        buffer := After(buffer, at);
        splitIndex := FirstDelimiter(buffer);
      }
    }
    assert chunks[j..] == [] && buffer + "" == buffer;
    LastStep(raw, whole, seen, pieces, buffer, acc, fallback, json);
    if Trim(buffer) != "" {
      var next := AbsorbBlock(acc, buffer, json);
      return next;
    }
    WhitespaceSaysNothing(buffer);
    return Success(acc);
  }

  /** `pending` is everything not yet cut off: the buffer and the chunks to come. */
  ghost predicate StreamInvariant(raw: string, whole: Result<seq<Chunk>, Error>, seen: seq<Chunk>, pieces: seq<string>,
                                  pending: string, acc: Parsed, fallback: string, json: string -> Json) {
    && ReadSoFar(whole, seen, ReadAll(Payloads(StripBom(pending)), json))
    && SplitBlocks(raw) == pieces + SplitBlocks(pending)
    && acc == Standing(seen, pieces, fallback, json)
  }

  lemma {:induction false} CutStep(raw: string, whole: Result<seq<Chunk>, Error>, seen: seq<Chunk>,
                                   pieces: seq<string>, buffer: string,
                at: nat, more: string, acc: Parsed, fallback: string, json: string -> Json)
    requires FirstDelimiter(buffer) == Some(at)
    requires StreamInvariant(raw, whole, seen, pieces, buffer + more, acc, fallback, json)
    ensures var block := buffer[..at];
            match ReadAll(Payloads(StripBom(block)), json)
            case Failure(e) => whole == Failure(e)
            case Success(here) =>
              StreamInvariant(raw, whole, seen + here, pieces + [block], After(buffer, at) + more,
                              Absorb(acc, Summary(here)), fallback, json)
  {
    var block, rest := buffer[..at], After(buffer, at) + more;
    StrippedPayloadsCut(buffer, at, more);
    ReadAllAppend(Payloads(StripBom(block)), Payloads(StripBom(rest)), json);
    DelimiterStays(buffer, at, more);
    PlusAssociates(pieces, [block], SplitBlocks(rest));
    var here, later := ReadAll(Payloads(StripBom(block)), json), ReadAll(Payloads(StripBom(rest)), json);
    if here.Success? {
      AbsorbStanding(seen, pieces, block, fallback, json);
      if later.Success? {
        PlusAssociates(seen, here.value, later.value);
      }
    }
  }

  lemma {:induction false} LastStep(raw: string, whole: Result<seq<Chunk>, Error>, seen: seq<Chunk>,
                                    pieces: seq<string>, buffer: string,
                 acc: Parsed, fallback: string, json: string -> Json)
    requires FirstDelimiter(buffer) == None
    requires StreamInvariant(raw, whole, seen, pieces, buffer, acc, fallback, json)
    requires whole == ReadAll(Payloads(StripBom(raw)), json)
    ensures match ReadAll(Payloads(StripBom(buffer)), json)
            case Failure(e) => StreamMeaning(raw, fallback, json) == Failure(e)
            case Success(here) =>
              && StreamMeaning(raw, fallback, json) == Success(Absorb(acc, Summary(here)))
              && (here == [] ==> Absorb(acc, Summary(here)) == acc)
  {
    assert SplitBlocks(buffer) == [buffer];
    var here := ReadAll(Payloads(StripBom(buffer)), json);
    if here.Success? {
      AbsorbStanding(seen, pieces, buffer, fallback, json);
    }
  }

  // ---------------------------------------------------------------------
  // Streaming against parsing the whole payload
  // ---------------------------------------------------------------------

  /** The payload parser's result, with the streaming client's default model. */
  function WithFallback(r: Result<Parsed, Error>, fallback: string): Result<Parsed, Error> {
    match r
    case Failure(e) => Failure(e)
    case Success(p) => Success(p.(model := if p.model == "" then fallback else p.model))
  }

  /** The finish reason reported last is a real one, or none is. */
  predicate ReasonSettled(reasons: seq<string>) {
    || reasons == []
    || reasons[|reasons| - 1] != UNKNOWN
    || forall i :: 0 <= i < |reasons| ==> reasons[i] == UNKNOWN
  }

  lemma {:induction false} FinalReasonsHead(piece: string, rest: seq<string>, json: string -> Json)
    ensures var here, there := Reasons(PieceChunks(piece, json)), FinalReasons(rest, json);
            && (FinalReasons([piece] + rest, json) == [] <==> here == [] && there == [])
            && LastOr(FinalReasons([piece] + rest, json), UNKNOWN) ==
              (if there == [] then LastOr(here, UNKNOWN) else LastOr(there, UNKNOWN))
  {
    var here, there := Reasons(PieceChunks(piece, json)), FinalReasons(rest, json);
    var final := if here == [] then [] else [here[|here| - 1]];
    assert ([piece] + rest)[0] == piece && ([piece] + rest)[1..] == rest;
    assert FinalReasons([piece] + rest, json) == final + there;
    LastAppend(final, there, UNKNOWN);
  }

  /** A text that reads well is read as its first block and then the rest. */
  lemma {:induction false} PieceCut(s: string, at: nat, json: string -> Json)
    requires FirstDelimiter(s) == Some(at) && ReadAll(Payloads(StripBom(s)), json).Success?
    ensures ReadAll(Payloads(StripBom(After(s, at))), json).Success?
    ensures PieceChunks(s, json) == PieceChunks(s[..at], json) + PieceChunks(After(s, at), json)
  {
    StrippedPayloadsCut(s, at, "");
    assert s + "" == s && After(s, at) + "" == After(s, at);
    ReadAllAppend(Payloads(StripBom(s[..at])), Payloads(StripBom(After(s, at))), json);
  }

  lemma {:induction false} PiecesCarryAll(s: string, json: string -> Json)
    requires ReadAll(Payloads(StripBom(s)), json).Success?
    ensures LastOr(Reasons(PieceChunks(s, json)), UNKNOWN) == LastOr(FinalReasons(SplitBlocks(s), json), UNKNOWN)
    ensures Reasons(PieceChunks(s, json)) == [] <==> FinalReasons(SplitBlocks(s), json) == []
    decreases |s|
  {
    match FirstDelimiter(s)
    case None =>
      assert SplitBlocks(s) == [s];
      assert [s] + [] == [s];
      FinalReasonsHead(s, [], json);
    case Some(at) =>
      var block, rest := s[..at], After(s, at);
      PieceCut(s, at, json);
      PiecesCarryAll(rest, json);
      SummaryAppend(PieceChunks(block, json), PieceChunks(rest, json));
      assert SplitBlocks(s) == [block] + SplitBlocks(rest);
      LastAppend(Reasons(PieceChunks(block, json)), Reasons(PieceChunks(rest, json)), UNKNOWN);
      FinalReasonsHead(block, SplitBlocks(rest), json);
  }

  lemma {:induction false} KnownLast(reasons: seq<string>)
    ensures LastOr(Known(reasons), UNKNOWN) == LastOr(reasons, UNKNOWN) <==> ReasonSettled(reasons)
    decreases |reasons|
  {
    if reasons != [] {
      var front, last := reasons[..|reasons| - 1], reasons[|reasons| - 1];
      assert reasons == front + [last];
      assert [last][1..] == [];
      KnownAppend(front, [last]);
      KnownEmpty(reasons);
      KnownNot(reasons);
    }
  }

  lemma {:induction false} KnownEmpty(reasons: seq<string>)
    ensures Known(reasons) == [] <==> forall i :: 0 <= i < |reasons| ==> reasons[i] == UNKNOWN
  {
    if reasons != [] {
      KnownEmpty(reasons[1..]);
    }
  }

  lemma {:induction false} KnownNot(reasons: seq<string>)
    ensures forall i :: 0 <= i < |Known(reasons)| ==> Known(reasons)[i] != UNKNOWN
  {
    if reasons != [] {
      KnownNot(reasons[1..]);
    }
  }

  /**
   * Streaming agrees with parsing the whole payload - same text, model, usage,
   * or the same exception - exactly when no literal finish reason "unknown"
   * comes last after a real one. Byte order marks, error chunks, and CRLF or LF
   * delimiters make no difference.
   */
  lemma {:induction false} StreamingIsParsing(raw: string, fallback: string, json: string -> Json)
    ensures Meaning(raw, json).Failure? ==> StreamMeaning(raw, fallback, json) == Meaning(raw, json)
    ensures Meaning(raw, json).Success? ==>
              (StreamMeaning(raw, fallback, json) == WithFallback(Meaning(raw, json), fallback)
               <==> ReasonSettled(FinalReasons(SplitBlocks(raw), json)))
  {
    if ReadAll(Payloads(StripBom(raw)), json).Success? {
      var all := PieceChunks(raw, json);
      FieldsSaySomething(all);
      PiecesCarryAll(raw, json);
      KnownLast(FinalReasons(SplitBlocks(raw), json));
    }
  }

  /** In particular whenever the server never says "unknown" itself. */
  lemma {:induction false} StreamingIsParsingNormally(raw: string, fallback: string, json: string -> Json)
    requires UNKNOWN !in FinalReasons(SplitBlocks(raw), json)
    ensures StreamMeaning(raw, fallback, json) == WithFallback(Meaning(raw, json), fallback)
  {
    StreamingIsParsing(raw, fallback, json);
  }

  // ----- what a text means, one block at a time ----------------------------

  /** A text and one more payload mean what the text means, with the payload's fields on top. */
  lemma {:induction false} MeaningNext(raw: string, more: string, payload: string, json: string -> Json)
    requires Payloads(StripBom(more)) == Payloads(StripBom(raw)) + [payload]
    ensures Meaning(more, json) ==
              if Meaning(raw, json).Failure? then Meaning(raw, json)
              else
                var before := Meaning(raw, json).value;
                if payload == "" || payload == "[DONE]" || json(payload) == NotJson then Success(before)
                else if json(payload) == NullValue then Failure(NullChunk)
                else
                  var chunk := json(payload).chunk;
                  if chunk.errorMessage.Some? && chunk.errorMessage.value != ""
                  then Failure(ServerError(chunk.errorMessage.value))
                  else Success(Parsed(
                    before.content + chunk.content.GetOr(""),
                    if chunk.finishReason.GetOr("") != "" then chunk.finishReason.value else before.finishReason,
                    if chunk.model.GetOr("") != "" then chunk.model.value else before.model,
                    match chunk.usage
                    case Some(u) => Some(Usage(u.prompt.GetOr(0), u.completion.GetOr(0), u.total.GetOr(0)))
                    case None => before.usage))
  {
    var seen := ReadAll(Payloads(StripBom(raw)), json);
    ReadAllAppend(Payloads(StripBom(raw)), [payload], json);
    assert [payload][1..] == [];
    JoinEmpty(ReadPayload(payload, json));
    JoinEmpty(seen);
    if seen.Success? && ReadPayload(payload, json).Success? && ReadPayload(payload, json).value != [] {
      SummaryOne(seen.value, json(payload).chunk);
    }
  }

  /**
   * The whole meaning, told text by text: an empty one says nothing, a block of one
   * `data` line adds its text, trimmed, and a block of any other line adds nothing.
   */
  lemma {:induction false} MeaningGrows(raw: string, line: string, json: string -> Json)
    requires Without(line, '\n') && BOM !in line
    ensures Meaning("", json) == Success(Parsed("", "unknown", "", None))
    ensures StartsWith(line, "data:") ==>
              Payloads(StripBom(raw + "\n\n" + line)) == Payloads(StripBom(raw)) + [Trim(line[5..])]
    ensures !StartsWith(line, "data:") ==> Meaning(raw + "\n\n" + line, json) == Meaning(raw, json)
  {
    assert Split("", '\n')[1..] == [];
    StripBomAppend(raw + "\n\n", line);
    StripBomAppend(raw, "\n\n");
    StripBomClean("\n\n");
    StripBomClean(line);
    PayloadsCut(StripBom(raw), "\n\n", line);
    OneLineScan(line);
    assert Payloads(StripBom(raw)) + [] == Payloads(StripBom(raw));
  }

  /** Behind a block's first `data` line no other line of the block says anything. */
  lemma {:induction false} FirstDataLineCounts(raw: string, line: string, other: string, json: string -> Json)
    requires Without(line, '\n') && BOM !in line && Without(other, '\n') && BOM !in other
    requires StartsWith(line, "data:") && other != "" && other != "\r"
    ensures Meaning(raw + "\n\n" + (line + "\n" + other), json) == Meaning(raw + "\n\n" + line, json)
  {
    MeaningGrows(raw, line, json);
    StripBomAppend(raw + "\n\n", line + "\n" + other);
    StripBomAppend(raw, "\n\n");
    StripBomClean("\n\n");
    StripBomClean(line + "\n" + other);
    PayloadsCut(StripBom(raw), "\n\n", line + "\n" + other);
    TwoLineScan(line, other);
  }

  lemma {:induction false} OneLineScan(line: string)
    requires Without(line, '\n')
    ensures Payloads(line) == if StartsWith(line, "data:") then [Trim(line[5..])] else []
  {
    SplitWhole(line, '\n');
    assert [line][1..] == [];
    assert Scan([line], false) == if StartsWith(line, DATA) then [Trim(line[|DATA|..])] + Scan([], true) else [];
  }

  lemma {:induction false} TwoLineScan(line: string, other: string)
    requires Without(line, '\n') && Without(other, '\n') && StartsWith(line, "data:") && !Blank(other)
    ensures Payloads(line + "\n" + other) == [Trim(line[5..])]
  {
    SplitPrefix(line, other, '\n');
    SplitWhole(other, '\n');
    var pieces := [line] + [other];
    assert pieces[1..] == [other] && [other][1..] == [];
    assert Scan([other], true) == [];
  }

  /** The simplest block there is: one data line. */
  ghost predicate OneLine(line: string, payload: string) {
    line == DATA + payload && Without(line, '\n') && Without(line, '\r') && BOM !in line && Trim(payload) == payload
  }

  lemma {:induction false} OneLineBlock(line: string, payload: string, json: string -> Json)
    requires OneLine(line, payload)
    ensures Payloads(StripBom(line)) == [payload]
    ensures ReadAll([payload], json) == ReadPayload(payload, json)
    ensures SplitBlocks(line) == [line]
  {
    StripBomClean(line);
    SplitWhole(line, '\n');
    assert StartsWith(line, DATA) && line[|DATA|..] == payload;
    assert [line][1..] == [] && Scan([], true) == [];
    assert Scan([line], false) == [payload] + [];
    assert forall i: nat :: NewlineAt(line, i) == 0;
    assert [payload][1..] == [];
    JoinEmpty(ReadPayload(payload, json));
  }

  lemma {:induction false} CutAfterLine(a: string, p: string, b: string)
    requires OneLine(a, p)
    ensures FirstDelimiter(a + "\n\n" + b) == Some(|a|)
    ensures After(a + "\n\n" + b, |a|) == b
  {
    var raw := a + "\n\n" + b;
    assert DelimiterAt(raw, |a|) == 2;
    forall i: nat | i < |a|
      ensures DelimiterAt(raw, i) == 0
    {
      assert raw[i] == a[i];
    }
  }

  lemma {:induction false} TwoLineBlocks(a: string, p: string, b: string, q: string, json: string -> Json)
    requires OneLine(a, p) && OneLine(b, q)
    ensures SplitBlocks(a + "\n\n" + b) == [a, b]
    ensures Payloads(StripBom(a + "\n\n" + b)) == [p] + [q]
  {
    var raw := a + "\n\n" + b;
    CutAfterLine(a, p, b);
    OneLineBlock(a, p, json);
    OneLineBlock(b, q, json);
    assert raw[..|a|] == a;
    StrippedPayloadsCut(raw, |a|, "");
    assert raw + "" == raw && b + "" == b;
  }

  lemma {:induction false} TwoReasons(a: string, p: string, b: string, q: string, first: Chunk, last: Chunk,
                                      json: string -> Json)
    requires OneLine(a, p) && OneLine(b, q)
    requires ReadPayload(p, json) == Success([first]) && ReadPayload(q, json) == Success([last])
    requires Truthy(first.finishReason) && Truthy(last.finishReason)
    ensures FinalReasons([a, b], json) == [first.finishReason.value, last.finishReason.value]
  {
    OneLineBlock(a, p, json);
    OneLineBlock(b, q, json);
    assert [first][1..] == [] && [last][1..] == [];
    assert Reasons([first]) == [first.finishReason.value] && Reasons([last]) == [last.finishReason.value];
    assert [a][1..] == [] && [b][1..] == [];
    FinalReasonsAppend([a], b, json);
    assert [a] + [b] == [a, b];
  }

  function StopThenUnknown(payload: string): Json {
    Value(Chunk(None, None, None, Some(if payload == "1" then "stop" else UNKNOWN), None))
  }

  /** It does happen: "stop", then a literal "unknown". The parser reports the latter, the stream keeps the former. */
  lemma {:induction false} UnknownAfterStop(fallback: string)
    ensures var raw := (DATA + "1") + "\n\n" + (DATA + "2");
            && Meaning(raw, StopThenUnknown).Success?
            && StreamMeaning(raw, fallback, StopThenUnknown) != WithFallback(Meaning(raw, StopThenUnknown), fallback)
  {
    var a, b := DATA + "1", DATA + "2";
    assert OneLine(a, "1") && OneLine(b, "2");
    TwoLineBlocks(a, "1", b, "2", StopThenUnknown);
    TwoReasons(a, "1", b, "2", StopThenUnknown("1").chunk, StopThenUnknown("2").chunk, StopThenUnknown);
    OneLineBlock(a, "1", StopThenUnknown);
    OneLineBlock(b, "2", StopThenUnknown);
    ReadAllAppend(["1"], ["2"], StopThenUnknown);
    StreamingIsParsing(a + "\n\n" + b, fallback, StopThenUnknown);
  }
}
