/**
 The incremental event-stream parser of the web client (apps/web/lib/sse.ts) and the
 event-stream text format it reads (sections 9.2.5 and 9.2.6 of the WHATWG HTML
 Living Standard).

 The parser works on blocks of text between blank lines. Its meaning is given here by a
 second, independent reading of the same text: LineFrames goes through the text one line at
 a time and dispatches the pending lines at every empty line.
 */
module Sse {
  import opened Common

  /** An SseFrame; `id` is None when the block has no id line. */
  datatype Frame = Frame(event: string, data: string, id: Option<string>)

  // ---------------------------------------------------------------------------
  // Text: line ends, block boundaries, splitting and joining
  // ---------------------------------------------------------------------------

  /** Every CR LF pair, scanned left to right, becomes one LF. */
  function Normalize(s: string): string {
    if |s| == 0 then ""
    else if |s| >= 2 && s[0] == '\r' && s[1] == '\n' then "\n" + Normalize(s[2..])
    else [s[0]] + Normalize(s[1..])
  }

  predicate BoundaryAt(s: string, i: int) {
    0 <= i && i + 1 < |s| && s[i] == '\n' && s[i + 1] == '\n'
  }

  ghost predicate HasBoundary(s: string) {
    exists i :: BoundaryAt(s, i)
  }

  /** Position of the first blank line (two adjacent LFs), or -1. */
  function FirstBoundary(s: string): (i: int)
    ensures i == -1 <==> !HasBoundary(s)
    ensures i != -1 ==> BoundaryAt(s, i) && forall j :: BoundaryAt(s, j) ==> i <= j
  {
    if |s| < 2 then -1
    else if BoundaryAt(s, 0) then 0
    else
      assert forall j :: BoundaryAt(s, j) ==> j > 0 && BoundaryAt(s[1..], j - 1);
      assert forall j :: BoundaryAt(s[1..], j) ==> BoundaryAt(s, j + 1);
      var r := FirstBoundary(s[1..]);
      if r == -1 then -1 else r + 1
  }

  predicate SingleLine(s: string) {
    '\n' !in s
  }

  /** Position of the first LF, or -1. */
  function FirstNewline(s: string): (i: int)
    ensures i == -1 <==> SingleLine(s)
    ensures i != -1 ==> 0 <= i < |s| && s[i] == '\n' && SingleLine(s[..i])
  {
    if s == "" then -1
    else if s[0] == '\n' then 0
    else
      var r := FirstNewline(s[1..]);
      assert s == [s[0]] + s[1..];
      assert r != -1 ==> s[..r + 1] == [s[0]] + s[1..][..r];
      if r == -1 then -1 else r + 1
  }

  /** The pieces of `s` between its LFs. */
  function SplitLines(s: string): (lines: seq<string>)
    ensures |lines| >= 1
    ensures forall l :: l in lines ==> SingleLine(l)
  {
    var i := FirstNewline(s);
    if i == -1 then [s] else [s[..i]] + SplitLines(s[i + 1..])
  }

  /** Lines joined by an LF. */
  function JoinLines(lines: seq<string>): string {
    if |lines| == 0 then ""
    else if |lines| == 1 then lines[0]
    else lines[0] + "\n" + JoinLines(lines[1..])
  }

  /** Every line ended by an LF. */
  function Unlines(lines: seq<string>): string {
    if |lines| == 0 then "" else lines[0] + "\n" + Unlines(lines[1..])
  }

  function Last<T>(s: seq<T>): T
    requires s != []
  {
    s[|s| - 1]
  }

  // ---------------------------------------------------------------------------
  // The meaning of the lines of one block
  // ---------------------------------------------------------------------------

  predicate IsComment(line: string) {
    line != "" && line[0] == ':'
  }

  predicate Ignored(line: string) {
    line == "" || IsComment(line)
  }

  /** Position of the first colon, or -1. */
  function FirstColon(s: string): (i: int)
    ensures i == -1 <==> ':' !in s
    ensures i != -1 ==> 0 <= i < |s| && s[i] == ':' && ':' !in s[..i]
  {
    if s == "" then -1
    else if s[0] == ':' then 0
    else
      var r := FirstColon(s[1..]);
      assert s == [s[0]] + s[1..];
      assert r != -1 ==> s[..r + 1] == [s[0]] + s[1..][..r];
      if r == -1 then -1 else r + 1
  }

  function FieldOf(line: string): string {
    var colon := FirstColon(line);
    if colon == -1 then line else line[..colon]
  }

  /** What follows the first colon, without one leading space. */
  function ValueOf(line: string): string {
    var colon := FirstColon(line);
    var value := if colon == -1 then "" else line[colon + 1..];
    if value != "" && value[0] == ' ' then value[1..] else value
  }

  /** The values of all the lines that set `field`, in order. */
  function Values(lines: seq<string>, field: string): seq<string> {
    if |lines| == 0 then []
    else
      var before := Values(lines[..|lines| - 1], field);
      var line := Last(lines);
      if !Ignored(line) && FieldOf(line) == field then before + [ValueOf(line)] else before
  }

  /**
   The frame of a block: the last event and the last id win, all data lines are joined, and
   a block with neither data nor a non-empty id is no frame.
   */
  function FrameOfLines(lines: seq<string>): Option<Frame> {
    var data := Values(lines, "data");
    var id := LastValue(Values(lines, "id"));
    if data == [] && (id == None || id == Some("")) then None
    else Some(Frame(LastOr(Values(lines, "event"), "message"), JoinLines(data), id))
  }

  function Single(f: Option<Frame>): seq<Frame> {
    if f.Some? then [f.value] else []
  }

  function LastOr(values: seq<string>, default: string): string {
    if values == [] then default else Last(values)
  }

  function LastValue(values: seq<string>): Option<string> {
    if values == [] then None else Some(Last(values))
  }

  lemma ValuesStep(lines: seq<string>, i: nat, field: string)
    requires i < |lines|
    ensures Values(lines[..0], field) == []
    ensures Values(lines[..i + 1], field) == Values(lines[..i], field) +
            (if !Ignored(lines[i]) && FieldOf(lines[i]) == field then [ValueOf(lines[i])] else [])
  {
    assert lines[..i + 1][..|lines[..i + 1]| - 1] == lines[..i];
  }

  /** parseBlock: one pass over the lines of a block. */
  method ParseBlock(block: string) returns (frame: Option<Frame>)
    ensures frame == FrameOfLines(SplitLines(block))
  {
    hide Values, FieldOf, ValueOf, SplitLines;
    var event := "message";
    var id: Option<string> := None;
    var data: seq<string> := [];
    var lines := SplitLines(block);
    ValuesStep(lines, 0, "data");
    ValuesStep(lines, 0, "event");
    ValuesStep(lines, 0, "id");
    for i := 0 to |lines|
      invariant data == Values(lines[..i], "data")
      invariant event == LastOr(Values(lines[..i], "event"), "message")
      invariant id == LastValue(Values(lines[..i], "id"))
    {
      ValuesStep(lines, i, "data");
      ValuesStep(lines, i, "event");
      ValuesStep(lines, i, "id");
      var line := lines[i];
      if line == "" || line[0] == ':' {
        continue;
      }
      var field, value := FieldAndValue(line);
      if field == "event" {
        event := value;
      } else if field == "data" {
        data := data + [value];
      } else if field == "id" {
        id := Some(value);
      }
    }
    assert lines[..|lines|] == lines;
    if |data| == 0 && (id == None || id == Some("")) {
      return None;
    }
    return Some(Frame(event, JoinLines(data), id));
  }

  method FieldAndValue(line: string) returns (field: string, value: string)
    ensures field == FieldOf(line) && value == ValueOf(line)
  {
    var colon := FirstColon(line);
    field := if colon == -1 then line else line[..colon];
    value := if colon == -1 then "" else line[colon + 1..];
    if value != "" && value[0] == ' ' {
      value := value[1..];
    }
  }

  // ---------------------------------------------------------------------------
  // The meaning of a whole text
  // ---------------------------------------------------------------------------

  /** Frames of the complete blocks of `text`, block by block. */
  function FramesIn(text: string): seq<Frame>
    decreases |text|
  {
    var i := FirstBoundary(text);
    if i == -1 then [] else Single(FrameOfLines(SplitLines(text[..i]))) + FramesIn(text[i + 2..])
  }

  /** The unfinished text after the last complete block. */
  function RestOf(text: string): (rest: string)
    ensures !HasBoundary(rest)
    decreases |text|
  {
    var i := FirstBoundary(text);
    if i == -1 then text else RestOf(text[i + 2..])
  }

  /**
   The line-by-line reading: lines wait in `pending` until an empty line dispatches them;
   text after the last LF is not a line yet.
   */
  function LineFrames(text: string, pending: seq<string>): seq<Frame>
    decreases |text|
  {
    var i := FirstNewline(text);
    if i == -1 then []
    else if i == 0 then Single(FrameOfLines(pending)) + LineFrames(text[1..], [])
    else LineFrames(text[i + 1..], pending + [text[..i]])
  }

  // ---------------------------------------------------------------------------
  // The parser
  // ---------------------------------------------------------------------------

  class SseParser {
    var buffer: string

    /** Between two pushes the buffer holds no complete block. */
    ghost predicate Valid()
      reads this
    {
      !HasBoundary(buffer)
    }

    constructor ()
      ensures Valid() && buffer == ""
    {
      buffer := "";
    }

    method Push(chunk: string) returns (frames: seq<Frame>)
      requires Valid()
      modifies this
      ensures Valid()
      ensures frames == LineFrames(old(buffer) + Normalize(chunk), [])
      ensures frames == FramesIn(old(buffer) + Normalize(chunk))
      ensures buffer == RestOf(old(buffer) + Normalize(chunk))
    {
      hide FrameOfLines, SplitLines, LineFrames, FirstBoundary, Normalize, FramesIn, RestOf;
      buffer := buffer + Normalize(chunk);
      ghost var text := buffer;
      frames := [];
      var boundary := FirstBoundary(buffer);
      while boundary != -1
        invariant boundary == FirstBoundary(buffer)
        invariant frames + FramesIn(buffer) == FramesIn(text)
        invariant RestOf(buffer) == RestOf(text)
        decreases |buffer|
      {
        DrainStep(buffer);
        var block := buffer[..boundary];
        buffer := buffer[boundary + 2..];
        var frame := ParseBlock(block);
        if frame.Some? {
          frames := frames + [frame.value];
        }
        boundary := FirstBoundary(buffer);
      }
      DrainStep(buffer);
      BlocksReadAsLines(text);
    }
  }

  lemma {:induction false} DrainStep(text: string)
    ensures var i := FirstBoundary(text);
            && (i == -1 ==> FramesIn(text) == [] && RestOf(text) == text)
            && (i != -1 ==> FramesIn(text) == Single(FrameOfLines(SplitLines(text[..i]))) + FramesIn(text[i + 2..]))
            && (i != -1 ==> RestOf(text) == RestOf(text[i + 2..]))
  {
    hide FrameOfLines, SplitLines, FirstBoundary, HasBoundary, Single;
  }

  // ---------------------------------------------------------------------------
  // Block parsing is line-by-line parsing
  // ---------------------------------------------------------------------------

  /** An empty line contributes nothing to a block. */
  lemma {:induction false} EmptyLineIgnored(lines: seq<string>, field: string)
    ensures Values([""] + lines, field) == Values(lines, field)
  {
    if lines == [] {
      assert [""] + lines == [""];
      assert Values([""][..0], field) == [];
    } else {
      var all := [""] + lines;
      assert all[..|all| - 1] == [""] + lines[..|lines| - 1];
      assert Last(all) == Last(lines);
      EmptyLineIgnored(lines[..|lines| - 1], field);
    }
  }

  lemma EmptyLineChangesNoFrame(lines: seq<string>)
    ensures FrameOfLines([""] + lines) == FrameOfLines(lines)
  {
    EmptyLineIgnored(lines, "data");
    EmptyLineIgnored(lines, "id");
    EmptyLineIgnored(lines, "event");
  }

  lemma LineThenMore(line: string, more: string, pending: seq<string>)
    requires SingleLine(line)
    ensures SplitLines(line) == [line]
    ensures SplitLines(line + "\n" + more) == [line] + SplitLines(more)
    ensures line != "" ==> LineFrames(line + "\n" + more, pending) == LineFrames(more, pending + [line])
    ensures line == "" ==>
              LineFrames(line + "\n" + more, pending) == Single(FrameOfLines(pending)) + LineFrames(more, [])
  {
    hide FrameOfLines;
    var text := line + "\n" + more;
    assert text[..|line|] == line && text[|line| + 1..] == more;
    FirstNewlineIs(text, |line|);
  }

  /** Cutting a text at its first LF. */
  lemma CutFirstLine(block: string, rest: string) returns (line: string, tail: string)
    requires !SingleLine(block) && block[0] != '\n' && Last(block) != '\n' && !HasBoundary(block)
    ensures SingleLine(line) && line != "" && block == line + "\n" + tail
    ensures tail != "" && tail[0] != '\n' && Last(tail) != '\n' && !HasBoundary(tail)
    ensures block + "\n\n" + rest == line + "\n" + (tail + "\n\n" + rest)
  {
    var i := FirstNewline(block);
    line, tail := block[..i], block[i + 1..];
    assert BoundaryAt(block, i) <==> tail[0] == '\n';
    NoBoundaryInSuffix(block, i + 1);
  }

  /** Reading up to the first blank line dispatches exactly the lines of the block before it. */
  lemma {:induction false} LinesUpToBoundary(block: string, rest: string, pending: seq<string>)
    requires block != "" && block[0] != '\n' && Last(block) != '\n'
    requires !HasBoundary(block)
    ensures LineFrames(block + "\n\n" + rest, pending)
         == Single(FrameOfLines(pending + SplitLines(block))) + LineFrames(rest, [])
    decreases |block|
  {
    hide FrameOfLines, SplitLines, LineFrames, Single, HasBoundary;
    if SingleLine(block) {
      LineThenMore(block, "\n" + rest, pending);
      assert block + "\n\n" + rest == block + "\n" + ("\n" + rest);
      LineThenMore("", rest, pending + [block]);
      assert "\n" + rest == "" + "\n" + rest;
    } else {
      var line, tail := CutFirstLine(block, rest);
      LinesUpToBoundary(tail, rest, pending + [line]);
      LineThenMore(line, tail + "\n\n" + rest, pending);
      LineThenMore(line, tail, pending);
      assert pending + [line] + SplitLines(tail) == pending + ([line] + SplitLines(tail));
    }
  }

  lemma FirstNewlineIs(s: string, i: nat)
    requires i < |s| && s[i] == '\n' && SingleLine(s[..i])
    ensures FirstNewline(s) == i
  {
    AbsentBefore(s, '\n', i);
    var r := FirstNewline(s);
    if r != -1 {
      AbsentBefore(s, '\n', r);
    }
  }

  lemma AbsentBefore(s: string, c: char, n: nat)
    requires n <= |s| && c !in s[..n]
    ensures forall k :: 0 <= k < n ==> s[k] != c
  {
    forall k | 0 <= k < n ensures s[k] != c {
      assert s[..n][k] == s[k];
    }
  }

  lemma NoBoundaryInSuffix(s: string, k: nat)
    requires k <= |s| && !HasBoundary(s)
    ensures !HasBoundary(s[k..])
  {
    forall j ensures !BoundaryAt(s[k..], j) {
      assert BoundaryAt(s[k..], j) ==> BoundaryAt(s, j + k);
    }
  }

  lemma NoBoundaryInPrefix(s: string, k: nat)
    requires k <= |s| && (forall j :: BoundaryAt(s, j) ==> k <= j)
    ensures !HasBoundary(s[..k])
  {
    forall j ensures !BoundaryAt(s[..k], j) {
      assert BoundaryAt(s[..k], j) ==> BoundaryAt(s, j);
    }
  }

  /** Without a blank line nothing is dispatched. */
  lemma {:induction false} NothingBeforeBoundary(text: string, pending: seq<string>)
    requires !HasBoundary(text)
    requires pending == [] || text == "" || text[0] != '\n'
    ensures LineFrames(text, pending) == []
    decreases |text|
  {
    var i := FirstNewline(text);
    if i == 0 {
      NoBoundaryInSuffix(text, 1);
      assert Values([], "data") == [] && Values([], "id") == [];
      NothingBeforeBoundary(text[1..], []);
    } else if i > 0 {
      NoBoundaryInSuffix(text, i + 1);
      assert i + 1 < |text| ==> (BoundaryAt(text, i) <==> text[i + 1] == '\n');
      NothingBeforeBoundary(text[i + 1..], pending + [text[..i]]);
    }
  }

  /** A first blank line dispatches the one block before it. */
  lemma {:induction false} FirstBlockReadAsLines(text: string, i: nat)
    requires FirstBoundary(text) == i
    ensures LineFrames(text, [])
         == Single(FrameOfLines(SplitLines(text[..i]))) + LineFrames(text[i + 2..], [])
  {
    hide FrameOfLines, SplitLines, LineFrames, FirstBoundary;
    var block, rest := text[..i], text[i + 2..];
    assert text == block + "\n\n" + rest;
    NoBoundaryInPrefix(text, i);
    EmptyBlockIsNoFrame();
    if block == "" {
      LineThenMore("", "\n" + rest, []);
      LineThenMore("", rest, []);
      assert text == "" + "\n" + ("\n" + rest) && "\n" + rest == "" + "\n" + rest;
    } else {
      assert BoundaryAt(text, i - 1) <==> Last(block) == '\n';
      if block[0] == '\n' {
        LeadingNewline(block, rest);
      } else {
        LinesUpToBoundary(block, rest, []);
        assert [] + SplitLines(block) == SplitLines(block);
      }
    }
  }

  lemma EmptyBlockIsNoFrame()
    ensures FrameOfLines([]) == None && FrameOfLines(SplitLines("")) == None
  {
    EmptyLineChangesNoFrame([]);
    assert [""] + [] == [""];
  }

  lemma LeadingNewline(block: string, rest: string)
    requires block != "" && block[0] == '\n' && Last(block) != '\n' && !HasBoundary(block)
    ensures LineFrames(block + "\n\n" + rest, [])
         == Single(FrameOfLines(SplitLines(block))) + LineFrames(rest, [])
  {
    hide FrameOfLines, SplitLines, LineFrames;
    var tail := block[1..];
    EmptyBlockIsNoFrame();
    assert BoundaryAt(block, 0) <==> tail[0] == '\n';
    NoBoundaryInSuffix(block, 1);
    LinesUpToBoundary(tail, rest, []);
    assert [] + SplitLines(tail) == SplitLines(tail);
    LineThenMore("", tail + "\n\n" + rest, []);
    assert block + "\n\n" + rest == "" + "\n" + (tail + "\n\n" + rest);
    LineThenMore("", tail, []);
    assert block == "" + "\n" + tail;
    EmptyLineChangesNoFrame(SplitLines(tail));
  }

  /** The block parser and the line-by-line reading give the same frames for every text. */
  lemma {:induction false} BlocksReadAsLines(text: string)
    ensures FramesIn(text) == LineFrames(text, [])
    decreases |text|
  {
    hide FrameOfLines, SplitLines, LineFrames, FirstBoundary, HasBoundary, Single;
    var i := FirstBoundary(text);
    if i == -1 {
      NothingBeforeBoundary(text, []);
    } else {
      FirstBlockReadAsLines(text, i);
      BlocksReadAsLines(text[i + 2..]);
    }
  }

  // ---------------------------------------------------------------------------
  // Chunks
  // ---------------------------------------------------------------------------

  function Concat(chunks: seq<string>): string {
    if chunks == [] then "" else chunks[0] + Concat(chunks[1..])
  }

  /** Frames of a series of pushes into a parser whose buffer is `buffer`. */
  function FramesOfPushes(buffer: string, chunks: seq<string>): seq<Frame>
    decreases |chunks|
  {
    if chunks == [] then []
    else FramesIn(buffer + Normalize(chunks[0])) + FramesOfPushes(RestOf(buffer + Normalize(chunks[0])), chunks[1..])
  }

  function BufferAfterPushes(buffer: string, chunks: seq<string>): string
    decreases |chunks|
  {
    if chunks == [] then buffer
    else BufferAfterPushes(RestOf(buffer + Normalize(chunks[0])), chunks[1..])
  }

  /** The cut between `a` and `b` separates a CR from its LF. */
  predicate CutsCrLf(a: string, b: string) {
    a != "" && b != "" && Last(a) == '\r' && b[0] == '\n'
  }

  /** No cut of the chunking separates a CR from its LF. */
  predicate SafeChunks(chunks: seq<string>) {
    chunks == [] || (!CutsCrLf(chunks[0], Concat(chunks[1..])) && SafeChunks(chunks[1..]))
  }

  /** Normalizing per chunk equals normalizing the whole exactly when no CR LF pair is cut. */
  lemma {:induction false} NormalizeConcat(a: string, b: string)
    ensures Normalize(a) + Normalize(b) == Normalize(a + b) <==> !CutsCrLf(a, b)
    ensures |Normalize(a) + Normalize(b)| == |Normalize(a + b)| + (if CutsCrLf(a, b) then 1 else 0)
    decreases |a|
  {
    if a == "" {
      assert a + b == b;
    } else if |a| >= 2 && a[0] == '\r' && a[1] == '\n' {
      NormalizeConcat(a[2..], b);
      assert (a + b)[2..] == a[2..] + b;
      assert |a| > 2 ==> Last(a) == Last(a[2..]);
      SameHead('\n', Normalize(a[2..]), Normalize(b), Normalize(a[2..] + b));
    } else if |a| == 1 && CutsCrLf(a, b) {
      NormalizeCut(b);
      assert a == "\r";
    } else {
      NormalizeConcat(a[1..], b);
      assert (a + b)[1..] == a[1..] + b;
      assert |a| > 1 ==> Last(a) == Last(a[1..]);
      SameHead(a[0], Normalize(a[1..]), Normalize(b), Normalize(a[1..] + b));
    }
  }

  lemma NormalizeCut(b: string)
    requires b != "" && b[0] == '\n'
    ensures Normalize("\r") == "\r" && |Normalize("\r") + Normalize(b)| == |Normalize("\r" + b)| + 1
  {
    assert ("\r" + b)[2..] == b[1..];
  }

  lemma SameHead(c: char, x: string, y: string, z: string)
    ensures ([c] + x) + y == [c] + z <==> x + y == z
  {
    assert ([c] + x) + y == [c] + (x + y);
    assert ([c] + (x + y))[1..] == x + y && ([c] + z)[1..] == z;
  }

  lemma NormalizeWithoutCr(s: string)
    requires '\r' !in s
    ensures Normalize(s) == s
  {
    if s != "" {
      NormalizeWithoutCr(s[1..]);
    }
  }

  /** Text that arrives later is read as if it had been there from the start. */
  lemma {:induction false} DrainThenMore(a: string, b: string)
    ensures FramesIn(a + b) == FramesIn(a) + FramesIn(RestOf(a) + b)
    ensures RestOf(a + b) == RestOf(RestOf(a) + b)
    decreases |a|
  {
    hide FrameOfLines, SplitLines, FirstBoundary, HasBoundary, FramesIn, RestOf, Single;
    var i := FirstBoundary(a);
    DrainStep(a);
    if i != -1 {
      BoundaryInPrefix(a, b);
      DrainStep(a + b);
      DrainThenMore(a[i + 2..], b);
      assert (a + b)[..i] == a[..i];
      assert (a + b)[i + 2..] == a[i + 2..] + b;
    }
  }

  lemma BoundaryInPrefix(a: string, b: string)
    requires FirstBoundary(a) != -1
    ensures FirstBoundary(a + b) == FirstBoundary(a)
  {
    var i, j := FirstBoundary(a), FirstBoundary(a + b);
    assert BoundaryAt(a + b, i);
    assert j <= i && BoundaryAt(a, j);
  }

  /**
   Chunking does not matter: pushing the chunks one by one gives the frames and the buffer of
   one push of the whole text, if no cut separates a CR from its LF.
   */
  lemma {:induction false} ChunkIndependence(buffer: string, chunks: seq<string>)
    requires !HasBoundary(buffer) && SafeChunks(chunks)
    ensures FramesOfPushes(buffer, chunks) == FramesIn(buffer + Normalize(Concat(chunks)))
    ensures BufferAfterPushes(buffer, chunks) == RestOf(buffer + Normalize(Concat(chunks)))
    decreases |chunks|
  {
    hide FramesIn, RestOf, Normalize;
    if chunks == [] {
      NothingToDrain(buffer);
    } else {
      var first, later := Normalize(chunks[0]), Normalize(Concat(chunks[1..]));
      NormalizeConcat(chunks[0], Concat(chunks[1..]));
      assert buffer + Normalize(Concat(chunks)) == (buffer + first) + later;
      DrainThenMore(buffer + first, later);
      ChunkIndependence(RestOf(buffer + first), chunks[1..]);
    }
  }

  lemma NothingToDrain(buffer: string)
    requires !HasBoundary(buffer)
    ensures buffer + Normalize("") == buffer
    ensures FramesIn(buffer) == [] && RestOf(buffer) == buffer
  {
  }

  /** A block of one line. */
  lemma OneLineBlock(line: string)
    requires line != "" && SingleLine(line)
    ensures FramesIn(line + "\n\n") == Single(FrameOfLines([line])) && RestOf(line + "\n\n") == ""
  {
    hide FrameOfLines, SplitLines, LineFrames, FirstBoundary;
    var text := line + "\n\n";
    var i := FirstBoundary(text);
    assert BoundaryAt(text, |line|);
    assert text[..i] == line && text[i + 2..] == "";
    LineThenMore(line, "", []);
  }

  lemma NormalizeLineEnds(line: string)
    requires '\r' !in line
    ensures Normalize(line + "\r\n\r\n") == line + "\n\n"
    ensures Normalize(line + "\r") == line + "\r" && Normalize("\n\r\n") == "\n\n"
  {
    assert Normalize("\r\n") == "\n" && Normalize("\r\n\r\n") == "\n\n" && Normalize("\r") == "\r";
    NormalizeWithoutCr(line);
    NormalizeConcat(line, "\r\n\r\n");
    NormalizeConcat(line, "\r");
    NormalizeConcat("\n", "\r\n");
    assert "\n" + "\r\n" == "\n\r\n" && Normalize("\n") == "\n";
  }

  lemma {:induction false} OnePush(chunk: string)
    ensures FramesOfPushes("", [chunk]) == FramesIn(Normalize(chunk))
    ensures Concat([chunk]) == chunk
  {
    assert "" + Normalize(chunk) == Normalize(chunk);
  }

  lemma TwoPushes(first: string, second: string)
    requires !HasBoundary(Normalize(first))
    ensures FramesOfPushes("", [first, second]) == FramesIn(Normalize(first) + Normalize(second))
    ensures Concat([first, second]) == first + second
  {
    hide FramesIn, RestOf, Normalize, HasBoundary;
    var n := Normalize(first);
    assert "" + n == n;
    NothingToDrain(n);
    assert [first, second][1..] == [second];
    OnePush(second);
    assert FramesOfPushes(n, [second]) == FramesIn(n + Normalize(second)) + [];
  }

  /** A cut between CR and LF leaves the CR in the line: the block is then read as another one. */
  lemma CutCrLfChangesLine(line: string)
    requires line != "" && SingleLine(line) && '\r' !in line
    ensures Concat([line + "\r", "\n\r\n"]) == Concat([line + "\r\n\r\n"])
    ensures FramesOfPushes("", [line + "\r\n\r\n"]) == Single(FrameOfLines([line]))
    ensures FramesOfPushes("", [line + "\r", "\n\r\n"]) == Single(FrameOfLines([line + "\r"]))
  {
    hide FramesIn, RestOf, FrameOfLines, Normalize, FramesOfPushes, Single;
    NormalizeLineEnds(line);
    OnePush(line + "\r\n\r\n");
    OneLineBlock(line);
    assert !HasBoundary(line + "\r");
    TwoPushes(line + "\r", "\n\r\n");
    OneLineBlock(line + "\r");
    assert line + "\r" + "\n\r\n" == line + "\r\n\r\n";
    assert (line + "\r") + "\n\n" == Normalize(line + "\r") + Normalize("\n\r\n");
  }

  /** For one text, the frame found in one push is lost in two. */
  lemma {:induction false} CutCrLfLosesFrame()
    ensures FramesOfPushes("", ["data\r\n\r\n"]) == [Frame("message", "", None)]
    ensures FramesOfPushes("", ["data\r", "\n\r\n"]) == []
  {
    hide FramesOfPushes, FrameOfLines;
    var line := "data";
    CutCrLfChangesLine(line);
    assert line + "\r\n\r\n" == "data\r\n\r\n" && line + "\r" == "data\r";
    FrameOfOneLine("data");
    FrameOfOneLine("data\r");
  }

  lemma FrameOfOneLine(line: string)
    requires line != "" && line[0] != ':'
    ensures FieldOf(line) == "data" ==> FrameOfLines([line]) == Some(Frame("message", ValueOf(line), None))
    ensures FieldOf(line) == "id" ==>
              FrameOfLines([line]) == if ValueOf(line) == "" then None else Some(Frame("message", "", Some(ValueOf(line))))
    ensures FieldOf(line) != "data" && FieldOf(line) != "id" ==> FrameOfLines([line]) == None
    ensures ':' !in line ==> FieldOf(line) == line && ValueOf(line) == ""
  {
    ValuesStep([line], 0, "data");
    ValuesStep([line], 0, "id");
    ValuesStep([line], 0, "event");
    assert [line][..1] == [line];
  }

  /** openSseStream: a new parser reads every chunk of the response body. */
  method ReadStream(chunks: seq<string>) returns (frames: seq<Frame>)
    ensures frames == FramesOfPushes("", chunks)
    ensures SafeChunks(chunks) ==> frames == LineFrames(Normalize(Concat(chunks)), [])
  {
    hide FramesIn, RestOf, LineFrames, HasBoundary;
    frames := [];
    var parser := new SseParser();
    for i := 0 to |chunks|
      invariant parser.Valid() && fresh(parser)
      invariant FramesOfPushes("", chunks) == frames + FramesOfPushes(parser.buffer, chunks[i..])
    {
      assert chunks[i..][1..] == chunks[i + 1..];
      var more := parser.Push(chunks[i]);
      frames := frames + more;
    }
    if SafeChunks(chunks) {
      NoBoundaryInEmpty();
      ChunkIndependence("", chunks);
      assert "" + Normalize(Concat(chunks)) == Normalize(Concat(chunks));
      BlocksReadAsLines(Normalize(Concat(chunks)));
    }
  }

  lemma NoBoundaryInEmpty()
    ensures !HasBoundary("")
  {
  }

  // ---------------------------------------------------------------------------
  // Printing in the format of section 9.2.5, and reading it back
  // ---------------------------------------------------------------------------

  predicate CrFree(s: string) {
    '\r' !in s
  }

  function DataLines(lines: seq<string>): seq<string> {
    if lines == [] then [] else ["data" + ": " + lines[0]] + DataLines(lines[1..])
  }

  /** The lines the server prints for a frame: id, event, data. */
  function PrintedLines(f: Frame): seq<string> {
    (if f.id.Some? then ["id" + ": " + f.id.value] else []) + ["event" + ": " + f.event] + DataLines(SplitLines(f.data))
  }

  /** One block on the wire: its lines, and the frame they carry, if any. */
  datatype Item = Item(lines: seq<string>, frame: Option<Frame>)

  function NonComments(lines: seq<string>): seq<string> {
    if lines == [] then []
    else (if IsComment(lines[0]) then [] else [lines[0]]) + NonComments(lines[1..])
  }

  predicate PlainLine(line: string) {
    line != "" && SingleLine(line) && CrFree(line)
  }

  /** A frame's printed lines with any comments between them, or comments only (a keepalive); every line is one line, without CR. */
  ghost predicate WellFormed(item: Item) {
    && item.lines != []
    && (forall l :: l in item.lines ==> PlainLine(l))
    && match item.frame
       case None => NonComments(item.lines) == []
       case Some(f) => NonComments(item.lines) == PrintedLines(f)
  }

  function Print(items: seq<Item>): string {
    if items == [] then "" else (Unlines(items[0].lines) + "\n") + Print(items[1..])
  }

  function FramesCarried(items: seq<Item>): seq<Frame> {
    if items == [] then [] else Single(items[0].frame) + FramesCarried(items[1..])
  }

  lemma {:induction false} ValuesConcat(a: seq<string>, b: seq<string>, field: string)
    ensures Values(a + b, field) == Values(a, field) + Values(b, field)
    decreases |b|
  {
    if b == [] {
      assert a + b == a;
    } else {
      assert (a + b)[..|a + b| - 1] == a + b[..|b| - 1];
      ValuesConcat(a, b[..|b| - 1], field);
    }
  }

  /** Comments change no value, wherever they stand. */
  lemma {:induction false} CommentsChangeNothing(lines: seq<string>, field: string)
    ensures Values(NonComments(lines), field) == Values(lines, field)
  {
    if lines != [] {
      var head := if IsComment(lines[0]) then [] else [lines[0]];
      CommentsChangeNothing(lines[1..], field);
      ValuesConcat(head, NonComments(lines[1..]), field);
      ValuesConcat([lines[0]], lines[1..], field);
      assert [lines[0]] + lines[1..] == lines;
      assert [lines[0]][..0] == [];
    }
  }

  /** Inserting a comment line anywhere in a block leaves its frame. */
  lemma CommentLineIgnored(lines: seq<string>, i: nat, comment: string)
    requires i <= |lines| && IsComment(comment)
    ensures FrameOfLines(lines[..i] + [comment] + lines[i..]) == FrameOfLines(lines)
  {
    var more := lines[..i] + [comment] + lines[i..];
    assert NonComments(more) == NonComments(lines) by {
      NonCommentsConcat(lines[..i] + [comment], lines[i..]);
      NonCommentsConcat(lines[..i], [comment]);
      NonCommentsConcat(lines[..i], lines[i..]);
      assert lines[..i] + lines[i..] == lines;
    }
    CommentsChangeNothing(more, "data");
    CommentsChangeNothing(more, "id");
    CommentsChangeNothing(more, "event");
    CommentsChangeNothing(lines, "data");
    CommentsChangeNothing(lines, "id");
    CommentsChangeNothing(lines, "event");
  }

  lemma {:induction false} NonCommentsConcat(a: seq<string>, b: seq<string>)
    ensures NonComments(a + b) == NonComments(a) + NonComments(b)
  {
    if a == [] {
      assert a + b == b;
    } else {
      assert (a + b)[1..] == a[1..] + b;
      NonCommentsConcat(a[1..], b);
    }
  }

  lemma HeaderLine(field: string, value: string)
    requires field != "" && ':' !in field
    ensures var line := field + ": " + value;
            FieldOf(line) == field && ValueOf(line) == value && !Ignored(line)
  {
    var line := field + ": " + value;
    var colon := FirstColon(line);
    assert line[|field|] == ':' && line[..|field|] == field;
    AbsentBefore(line, ':', |field|);
    AbsentBefore(line, ':', colon);
    assert line[colon + 1..] == " " + value;
  }

  lemma OneValue(line: string, field: string)
    ensures Values([line], field) == if !Ignored(line) && FieldOf(line) == field then [ValueOf(line)] else []
  {
    ValuesStep([line], 0, field);
    assert [line][..1] == [line];
  }

  lemma {:induction false} DataLineValues(lines: seq<string>)
    ensures Values(DataLines(lines), "data") == lines
    ensures Values(DataLines(lines), "id") == [] && Values(DataLines(lines), "event") == []
  {
    hide FieldOf, ValueOf;
    if lines != [] {
      var line := "data" + ": " + lines[0];
      HeaderLine("data", lines[0]);
      DataLineValues(lines[1..]);
      OneValue(line, "data");
      OneValue(line, "id");
      OneValue(line, "event");
      ValuesConcat([line], DataLines(lines[1..]), "data");
      ValuesConcat([line], DataLines(lines[1..]), "id");
      ValuesConcat([line], DataLines(lines[1..]), "event");
    }
  }

  lemma JoinFirst(line: string, lines: seq<string>)
    requires lines != []
    ensures JoinLines([line] + lines) == line + "\n" + JoinLines(lines)
  {
    assert ([line] + lines)[1..] == lines;
  }

  lemma {:induction false} SplitThenJoin(s: string)
    ensures JoinLines(SplitLines(s)) == s
    decreases |s|
  {
    hide SplitLines, JoinLines, FirstNewline;
    var i := FirstNewline(s);
    if i == -1 {
      LineThenMore(s, "", []);
      JoinOne(s);
    } else {
      var line, more := s[..i], s[i + 1..];
      assert s == line + "\n" + more;
      SplitThenJoin(more);
      LineThenMore(line, more, []);
      JoinFirst(line, SplitLines(more));
    }
  }

  lemma JoinOne(line: string)
    ensures JoinLines([line]) == line
  {
  }

  lemma {:induction false} HeadValues(f: Frame, field: string)
    requires field in {"data", "id", "event"}
    ensures Values(PrintedLines(f), field) ==
            if field == "data" then SplitLines(f.data)
            else if field == "event" then [f.event]
            else if f.id.Some? then [f.id.value] else []
  {
    hide FieldOf, ValueOf, SplitLines, DataLines;
    var ids := if f.id.Some? then ["id" + ": " + f.id.value] else [];
    var event := "event" + ": " + f.event;
    HeaderLine("event", f.event);
    OneValue(event, field);
    if f.id.Some? {
      HeaderLine("id", f.id.value);
      OneValue(ids[0], field);
    }
    DataLineValues(SplitLines(f.data));
    ValuesConcat(ids + [event], DataLines(SplitLines(f.data)), field);
    ValuesConcat(ids, [event], field);
  }

  /** The printed lines of a frame are read back as that frame. */
  lemma PrintedLinesReadBack(f: Frame)
    ensures FrameOfLines(PrintedLines(f)) == Some(f)
  {
    hide PrintedLines, SplitLines;
    HeadValues(f, "data");
    HeadValues(f, "id");
    HeadValues(f, "event");
    SplitThenJoin(f.data);
  }

  lemma ItemReadBack(item: Item)
    requires WellFormed(item)
    ensures FrameOfLines(item.lines) == item.frame
  {
    hide PrintedLines, Values;
    CommentsChangeNothing(item.lines, "data");
    CommentsChangeNothing(item.lines, "id");
    CommentsChangeNothing(item.lines, "event");
    assert FrameOfLines(item.lines) == FrameOfLines(NonComments(item.lines));
    if item.frame.Some? {
      PrintedLinesReadBack(item.frame.value);
    } else {
      EmptyBlockIsNoFrame();
    }
  }

  /** The lines of a block followed by an empty line are dispatched together. */
  lemma {:induction false} LinesThenBlank(lines: seq<string>, rest: string, pending: seq<string>)
    requires forall l :: l in lines ==> l != "" && SingleLine(l)
    ensures LineFrames(Unlines(lines) + "\n" + rest, pending)
         == Single(FrameOfLines(pending + lines)) + LineFrames(rest, [])
    decreases |lines|
  {
    hide FrameOfLines, SplitLines, LineFrames, Single;
    if lines == [] {
      LineThenMore("", rest, pending);
      assert Unlines(lines) + "\n" + rest == "" + "\n" + rest;
      assert pending + lines == pending;
    } else {
      assert forall l :: l in lines[1..] ==> l in lines;
      LinesThenBlank(lines[1..], rest, pending + [lines[0]]);
      LineThenMore(lines[0], Unlines(lines[1..]) + "\n" + rest, pending);
      assert Unlines(lines) + "\n" + rest == lines[0] + "\n" + (Unlines(lines[1..]) + "\n" + rest);
      assert pending + [lines[0]] + lines[1..] == pending + lines;
    }
  }

  /** The last LF of a block and the empty line after it are its first blank line. */
  lemma {:induction false} UnlinesHasNoBoundary(lines: seq<string>)
    requires forall l :: l in lines ==> l != "" && SingleLine(l)
    ensures !HasBoundary(Unlines(lines))
    ensures lines != [] ==> Unlines(lines) != "" && Unlines(lines)[0] != '\n' && Last(Unlines(lines)) == '\n'
  {
    if lines != [] {
      assert lines[0] in lines && forall l :: l in lines[1..] ==> l in lines;
      UnlinesHasNoBoundary(lines[1..]);
      var head, tail := lines[0], Unlines(lines[1..]);
      var text := head + "\n" + tail;
      forall i ensures !BoundaryAt(text, i) {
        assert 0 <= i < |head| ==> text[i] == head[i] && head[i] in head;
        assert i == |head| && tail != "" ==> text[i + 1] == tail[0];
        assert BoundaryAt(text, i) && i > |head| ==> BoundaryAt(tail, i - |head| - 1);
      }
    }
  }

  lemma BlockIsDrained(lines: seq<string>)
    requires lines != [] && forall l :: l in lines ==> l != "" && SingleLine(l)
    ensures RestOf(Unlines(lines) + "\n") == ""
  {
    UnlinesHasNoBoundary(lines);
    var u := Unlines(lines);
    var text := u + "\n";
    assert BoundaryAt(text, |u| - 1);
    var i := FirstBoundary(text);
    assert i < |u| - 1 ==> BoundaryAt(u, i);
    assert text[i + 2..] == "";
  }

  /** Reading what was printed gives back the frames and leaves nothing behind. */
  lemma {:induction false} PrintThenRead(items: seq<Item>)
    requires forall item :: item in items ==> WellFormed(item)
    ensures FramesIn(Print(items)) == FramesCarried(items) && RestOf(Print(items)) == ""
  {
    hide FrameOfLines, SplitLines, FirstBoundary, HasBoundary, LineFrames, Unlines, WellFormed;
    if items == [] {
      NothingToDrain("") by { NoBoundaryInEmpty(); }
    } else {
      PrintThenRead(items[1..]);
      var lines := items[0].lines;
      var text := Unlines(lines) + "\n";
      OneItem(items[0]);
      DrainThenMore(text, Print(items[1..]));
      assert "" + Print(items[1..]) == Print(items[1..]);
    }
  }

  lemma OneItem(item: Item)
    requires WellFormed(item)
    ensures FramesIn(Unlines(item.lines) + "\n") == Single(item.frame)
    ensures RestOf(Unlines(item.lines) + "\n") == ""
  {
    hide FrameOfLines, SplitLines, FirstBoundary, HasBoundary, Unlines, Single, FramesIn;
    var text := Unlines(item.lines) + "\n";
    ItemReadBack(item);
    BlockIsDrained(item.lines);
    BlocksReadAsLines(text);
    LinesThenBlank(item.lines, "", []);
    assert text + "" == text && [] + item.lines == item.lines;
    assert LineFrames("", []) == [];
  }

  lemma {:induction false} PrintIsCrFree(items: seq<Item>)
    requires forall item :: item in items ==> WellFormed(item)
    ensures CrFree(Print(items))
  {
    if items != [] {
      assert items[0] in items;
      UnlinesCrFree(items[0].lines);
      PrintIsCrFree(items[1..]);
    }
  }

  lemma {:induction false} UnlinesCrFree(lines: seq<string>)
    requires forall l :: l in lines ==> CrFree(l)
    ensures CrFree(Unlines(lines))
  {
    if lines != [] {
      assert lines[0] in lines && forall l :: l in lines[1..] ==> l in lines;
      UnlinesCrFree(lines[1..]);
    }
  }

  lemma {:induction false} CrFreeChunksAreSafe(chunks: seq<string>)
    requires CrFree(Concat(chunks))
    ensures SafeChunks(chunks)
  {
    if chunks != [] {
      assert CrFree(chunks[0]) && CrFree(Concat(chunks[1..])) by {
        assert forall c :: c in chunks[0] ==> c in Concat(chunks);
        assert forall c :: c in Concat(chunks[1..]) ==> c in Concat(chunks);
      }
      CrFreeChunksAreSafe(chunks[1..]);
    }
  }

  /**
   Print, cut into chunks anywhere, and push: the frames come back, whatever comments and
   keepalives stand between them, and the buffer ends empty.
   */
  lemma PrintChunkRead(items: seq<Item>, chunks: seq<string>)
    requires forall item :: item in items ==> WellFormed(item)
    requires Concat(chunks) == Print(items)
    ensures FramesOfPushes("", chunks) == FramesCarried(items)
    ensures BufferAfterPushes("", chunks) == ""
  {
    hide FramesIn, RestOf, HasBoundary, WellFormed, Print;
    PrintIsCrFree(items);
    CrFreeChunksAreSafe(chunks);
    NoBoundaryInEmpty();
    ChunkIndependence("", chunks);
    NormalizeWithoutCr(Print(items));
    assert "" + Print(items) == Print(items);
    PrintThenRead(items);
  }
}
