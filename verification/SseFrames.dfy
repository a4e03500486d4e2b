// The incremental SSE frame parser of the Buzz bridge (src/scripts/buzz-bridge.ts).
//
// It implements the part of the WHATWG HTML Living Standard, section 9.2.6, that
// the bridge needs: blocks end at a blank line, `data` lines are joined by line
// feeds. Lines end in LF only; comments and other fields are dropped.
module SseFrames {
  import opened Prelude
  import opened Text

  predicate BlankAt(s: string, i: int) {
    0 <= i < |s| - 1 && s[i] == '\n' && s[i + 1] == '\n'
  }

  ghost predicate NoBlank(s: string) {
    forall i :: !BlankAt(s, i)
  }

  /** `s.indexOf('\n\n')`, None for -1. */
  function FirstBlank(s: string): (at: Option<nat>)
    ensures at.None? ==> NoBlank(s)
    ensures at.Some? ==> BlankAt(s, at.value) && forall i :: 0 <= i < at.value ==> !BlankAt(s, i)
  {
    FirstBlankFrom(s, 0)
  }

  function FirstBlankFrom(s: string, from: nat): (at: Option<nat>)
    ensures at.None? ==> forall i :: from <= i ==> !BlankAt(s, i)
    ensures at.Some? ==> from <= at.value && BlankAt(s, at.value) && forall i :: from <= i < at.value ==> !BlankAt(s, i)
    decreases |s| - from
  {
    if from + 1 >= |s| then None
    else if BlankAt(s, from) then Some(from)
    else FirstBlankFrom(s, from + 1)
  }

  const DATA := "data:"

  /** One line's payload: the prefix and at most one following space removed. */
  function Payload(line: string): string
    requires StartsWith(line, DATA)
  {
    var rest := line[|DATA|..];
    if StartsWith(rest, " ") then rest[1..] else rest
  }

  function DataLines(lines: seq<string>): seq<string> {
    if lines == [] then []
    else (if StartsWith(lines[0], DATA) then [Payload(lines[0])] else []) + DataLines(lines[1..])
  }

  function BlockData(block: string): string {
    Join(DataLines(Split(block, '\n')), '\n')
  }

  /** A block without payload emits nothing. */
  function Emitted(block: string): seq<string> {
    if BlockData(block) == "" then [] else [BlockData(block)]
  }

  // ---------------------------------------------------------------------
  // What a whole text means: cut at the first blank line, again and again.
  // ---------------------------------------------------------------------

  function Blocks(s: string): seq<string>
    decreases |s|
  {
    match FirstBlank(s)
    case None => []
    case Some(at) => [s[..at]] + Blocks(s[at + 2..])
  }

  function Remainder(s: string): string
    decreases |s|
  {
    match FirstBlank(s)
    case None => s
    case Some(at) => Remainder(s[at + 2..])
  }

  function EmitAll(blocks: seq<string>): seq<string> {
    if blocks == [] then [] else Emitted(blocks[0]) + EmitAll(blocks[1..])
  }

  function Frames(s: string): seq<string> {
    EmitAll(Blocks(s))
  }

  /** An independent reading: a text is its blocks, each closed by a blank line, and an unterminated rest. */
  function Assemble(blocks: seq<string>, rest: string): string {
    if blocks == [] then rest else blocks[0] + "\n\n" + Assemble(blocks[1..], rest)
  }

  /** Blocks are cut as early as possible, and the rest has no end of block in it. */
  ghost predicate WellCut(blocks: seq<string>, rest: string) {
    && NoBlank(rest)
    && forall k :: 0 <= k < |blocks| ==> NoBlank(blocks[k] + "\n")
  }

  lemma {:induction false} CutAt(block: string, tail: string)
    requires NoBlank(block + "\n")
    ensures FirstBlank(block + "\n\n" + tail) == Some(|block|)
  {
    var s := block + "\n\n" + tail;
    assert BlankAt(s, |block|);
    forall i | 0 <= i < |block|
      ensures !BlankAt(s, i)
    {
      assert !BlankAt(block + "\n", i);
    }
  }

  lemma {:induction false} FirstBlockSolid(s: string)
    requires FirstBlank(s).Some?
    ensures NoBlank(s[..FirstBlank(s).value] + "\n")
    ensures s == s[..FirstBlank(s).value] + "\n\n" + s[FirstBlank(s).value + 2..]
  {
    var at := FirstBlank(s).value;
    forall i
      ensures !BlankAt(s[..at] + "\n", i)
    {
      if 0 <= i < at {
        assert !BlankAt(s, i);
      }
    }
  }

  lemma {:induction false} WellCutNext(block: string, blocks: seq<string>, rest: string)
    requires NoBlank(block + "\n") && WellCut(blocks, rest)
    ensures WellCut([block] + blocks, rest) &&
              Assemble([block] + blocks, rest) == block + "\n\n" + Assemble(blocks, rest)
  {
    assert ([block] + blocks)[1..] == blocks;
  }

  lemma {:induction false} AssembleBlocks(s: string)
    ensures Assemble(Blocks(s), Remainder(s)) == s
    ensures WellCut(Blocks(s), Remainder(s))
    decreases |s|
  {
    match FirstBlank(s)
    case None =>
    case Some(at) =>
      var tail := s[at + 2..];
      AssembleBlocks(tail);
      FirstBlockSolid(s);
      WellCutNext(s[..at], Blocks(tail), Remainder(tail));
  }

  /** The decomposition is the only one. */
  lemma {:induction false} BlocksUnique(blocks: seq<string>, rest: string)
    requires WellCut(blocks, rest)
    ensures Blocks(Assemble(blocks, rest)) == blocks
    ensures Remainder(Assemble(blocks, rest)) == rest
    decreases |blocks|
  {
    if blocks != [] {
      var tail := Assemble(blocks[1..], rest);
      BlocksUnique(blocks[1..], rest);
      CutAt(blocks[0], tail);
      assert Assemble(blocks, rest)[..|blocks[0]|] == blocks[0];
      assert Assemble(blocks, rest)[|blocks[0]| + 2..] == tail;
    }
  }

  lemma {:induction false} DataLinesAppend(a: seq<string>, b: seq<string>)
    ensures DataLines(a + b) == DataLines(a) + DataLines(b)
  {
    if a == [] {
      assert a + b == b;
    } else {
      assert (a + b)[0] == a[0] && (a + b)[1..] == a[1..] + b;
      DataLinesAppend(a[1..], b);
    }
  }

  lemma {:induction false} OneDataLine(line: string)
    requires Without(line, '\n')
    ensures DataLines(Split(line, '\n')) ==
              if StartsWith(line, "data: ") then [line[6..]]
              else if StartsWith(line, "data:") then [line[5..]] else []
    ensures !StartsWith(line, "data:") ==> DataLines(Split(line, '\n')) == []
  {
    SplitWhole(line, '\n');
    assert [line][1..] == [];
    if |line| >= 6 {
      assert line[5..][1..] == line[6..] && line[5..][..1] == [line[5]];
      assert line[..6] == "data: " <==> line[..5] == "data:" && line[5] == ' ' by {
        assert line[..6][5] == line[5] && line[..6][..5] == line[..5];
        assert "data: "[..5] == "data:";
      }
    }
  }

  /**
   * What one more line adds to a block: its text after `data:` and at most one
   * space, or - a comment, another field - nothing at all.
   */
  lemma {:induction false} LineAdds(block: string, line: string)
    requires Without(line, '\n')
    ensures DataLines(Split(block + "\n" + line, '\n')) ==
              DataLines(Split(block, '\n')) +
              if StartsWith(line, "data: ") then [line[6..]]
              else if StartsWith(line, "data:") then [line[5..]] else []
    ensures !StartsWith(line, "data:") ==> Emitted(block + "\n" + line) == Emitted(block)
  {
    SplitAppend(block, line, '\n');
    DataLinesAppend(Split(block, '\n'), Split(line, '\n'));
    OneDataLine(line);
    if !StartsWith(line, "data:") {
      assert DataLines(Split(block, '\n')) + [] == DataLines(Split(block, '\n'));
    }
  }

  // ---------------------------------------------------------------------
  // Chunking
  // ---------------------------------------------------------------------

  lemma {:induction false} EmitAllAppend(a: seq<string>, b: seq<string>)
    ensures EmitAll(a + b) == EmitAll(a) + EmitAll(b)
  {
    if a == [] {
      assert a + b == b;
    } else {
      assert (a + b)[0] == a[0] && (a + b)[1..] == a[1..] + b;
      EmitAllAppend(a[1..], b);
    }
  }

  lemma {:induction false} BlankStays(s: string, more: string)
    requires FirstBlank(s).Some?
    ensures FirstBlank(s + more) == FirstBlank(s)
  {
    var at := FirstBlank(s).value;
    assert BlankAt(s + more, at);
    forall i | 0 <= i < at
      ensures !BlankAt(s + more, i)
    {
      assert !BlankAt(s, i);
    }
  }

  /** Reading on from the retained remainder is reading on from the whole text. */
  lemma {:induction false} ReadOn(s: string, more: string)
    ensures Blocks(s + more) == Blocks(s) + Blocks(Remainder(s) + more)
    ensures Remainder(s + more) == Remainder(Remainder(s) + more)
    decreases |s|
  {
    match FirstBlank(s)
    case None =>
    case Some(at) =>
      var tail := s[at + 2..];
      ReadOn(tail, more);
      BlankStays(s, more);
      assert (s + more)[..at] == s[..at];
      assert (s + more)[at + 2..] == tail + more;
      PlusAssociates([s[..at]], Blocks(tail), Blocks(Remainder(tail) + more));
  }

  lemma {:induction false} FramesReadOn(s: string, more: string)
    ensures Frames(s + more) == Frames(s) + Frames(Remainder(s) + more)
    ensures Remainder(s + more) == Remainder(Remainder(s) + more)
  {
    ReadOn(s, more);
    EmitAllAppend(Blocks(s), Blocks(Remainder(s) + more));
  }

  class SseFrameParser {
    var buffer: string
    ghost var received: string

    ghost predicate Valid()
      reads this
    {
      buffer == Remainder(received)
    }

    constructor ()
      ensures Valid() && received == ""
    {
      buffer := "";
      received := "";
    }

    /**
     * Feeds one chunk, cut anywhere. Whatever the earlier cuts were, the frames
     * emitted so far are the frames of all text received, and the buffer is its
     * unterminated remainder.
     */
    method Feed(chunk: string) returns (frames: seq<string>)
      requires Valid()
      modifies this
      ensures Valid()
      ensures received == old(received) + chunk
      ensures Frames(received) == Frames(old(received)) + frames
      ensures NoBlank(buffer)
    {
      FramesReadOn(received, chunk);
      received := received + chunk;
      buffer := buffer + chunk;
      ghost var input := buffer;
      frames := [];
      var boundary := FirstBlank(buffer);
      while boundary.Some?
        invariant boundary == FirstBlank(buffer) && received == old(received) + chunk
        invariant Frames(input) == frames + Frames(buffer)
        invariant Remainder(input) == Remainder(buffer)
        decreases |buffer|
      {
        var rawFrame := buffer[..boundary.value];
        buffer := buffer[boundary.value + 2..];
        frames := frames + Emitted(rawFrame);
        boundary := FirstBlank(buffer);
      }
    }
  }

  /** The frames a parser starting on `buffer` emits over a list of chunks. */
  function FeedAll(buffer: string, chunks: seq<string>): seq<string>
    decreases |chunks|
  {
    if chunks == [] then []
    else Frames(buffer + chunks[0]) + FeedAll(Remainder(buffer + chunks[0]), chunks[1..])
  }

  lemma {:induction false} RemainderHasNoBlank(s: string)
    ensures NoBlank(Remainder(s))
  {
    AssembleBlocks(s);
  }

  lemma {:induction false} NoFrameWithoutBlank(s: string)
    requires NoBlank(s)
    ensures Frames(s) == []
  {
  }

  lemma {:induction false} FeedAllFrom(buffer: string, chunks: seq<string>)
    requires NoBlank(buffer)
    ensures FeedAll(buffer, chunks) == Frames(buffer + Concat(chunks))
    decreases |chunks|
  {
    if chunks == [] {
      NoFrameWithoutBlank(buffer);
      assert buffer + Concat(chunks) == buffer;
    } else {
      var s, later := buffer + chunks[0], Concat(chunks[1..]);
      RemainderHasNoBlank(s);
      FeedAllFrom(Remainder(s), chunks[1..]);
      FramesReadOn(s, later);
      PlusAssociates(buffer, chunks[0], later);
    }
  }

  /** Two ways of cutting the same text into chunks emit the same frames. */
  lemma {:induction false} ChunkingIrrelevant(chunks: seq<string>, others: seq<string>)
    requires Concat(chunks) == Concat(others)
    ensures FeedAll("", chunks) == FeedAll("", others) == Frames(Concat(chunks))
  {
    FeedAllFrom("", chunks);
    FeedAllFrom("", others);
    assert "" + Concat(chunks) == Concat(chunks);
  }

  // ---------------------------------------------------------------------
  // Round trip
  // ---------------------------------------------------------------------

  function Prefixed(lines: seq<string>): seq<string> {
    if lines == [] then [] else [DATA + " " + lines[0]] + Prefixed(lines[1..])
  }

  /** How an event stream carries a text: one `data: ` line per line. */
  function Encode(message: string): string {
    Join(Prefixed(Split(message, '\n')), '\n')
  }

  lemma {:induction false} PrefixedLines(lines: seq<string>)
    requires forall i :: 0 <= i < |lines| ==> Without(lines[i], '\n')
    ensures |Prefixed(lines)| == |lines|
    ensures forall i :: 0 <= i < |lines| ==> Prefixed(lines)[i] != "" && Without(Prefixed(lines)[i], '\n')
    ensures DataLines(Prefixed(lines)) == lines
  {
    if lines != [] {
      PrefixedLines(lines[1..]);
      var first := DATA + " " + lines[0];
      assert first[|DATA|..] == " " + lines[0];
      assert Payload(first) == lines[0];
      assert Prefixed(lines)[1..] == Prefixed(lines[1..]);
    }
  }

  lemma {:induction false} JoinedLinesNoBlank(lines: seq<string>)
    requires lines != []
    requires forall i :: 0 <= i < |lines| ==> lines[i] != "" && Without(lines[i], '\n')
    ensures Join(lines, '\n') != "" && Join(lines, '\n')[0] != '\n'
    ensures NoBlank(Join(lines, '\n') + "\n")
  {
    if |lines| > 1 {
      JoinedLinesNoBlank(lines[1..]);
      var rest := Join(lines[1..], '\n');
      var s := Join(lines, '\n') + "\n";
      assert s == lines[0] + "\n" + (rest + "\n");
      forall i
        ensures !BlankAt(s, i)
      {
        assert !BlankAt(rest + "\n", i - |lines[0]| - 1);
      }
    }
  }

  lemma {:induction false} EncodedBlock(message: string)
    ensures NoBlank(Encode(message) + "\n")
    ensures BlockData(Encode(message)) == message
  {
    var lines := Split(message, '\n');
    SplitPiecesClean(message, '\n');
    PrefixedLines(lines);
    JoinedLinesNoBlank(Prefixed(lines));
    SplitJoin(Prefixed(lines), '\n');
    JoinSplit(message, '\n');
  }

  function EncodeAll(messages: seq<string>): seq<string> {
    if messages == [] then [] else [Encode(messages[0])] + EncodeAll(messages[1..])
  }

  lemma {:induction false} EncodedBlocks(messages: seq<string>)
    requires "" !in messages
    ensures WellCut(EncodeAll(messages), "")
    ensures EmitAll(EncodeAll(messages)) == messages
  {
    if messages != [] {
      EncodedBlocks(messages[1..]);
      EncodedBlock(messages[0]);
      assert messages[0] in messages;
      assert EncodeAll(messages)[1..] == EncodeAll(messages[1..]);
      forall k | 0 <= k < |EncodeAll(messages)|
        ensures NoBlank(EncodeAll(messages)[k] + "\n")
      {
        assert k > 0 ==> EncodeAll(messages)[k] == EncodeAll(messages[1..])[k - 1];
      }
    }
  }

  /**
   * Any messages - of any text, line feeds included, but not empty - sent as event
   * stream blocks and received in any chunks come out again, one frame each.
   */
  lemma {:induction false} MessagesSurvive(messages: seq<string>, chunks: seq<string>)
    requires "" !in messages
    requires Concat(chunks) == Assemble(EncodeAll(messages), "")
    ensures FeedAll("", chunks) == messages
  {
    EncodedBlocks(messages);
    BlocksUnique(EncodeAll(messages), "");
    ChunkingIrrelevant(chunks, chunks);
  }
}
