/** The incremental line splitter of the event-stream client (`getLines`).

    The client receives an arbitrary chunking of a byte stream. It keeps an unfinished
    line in a buffer, remembers whether the last line ended in a carriage return, and
    calls back once per finished line. The reference is `Lines`, which looks at the whole
    stream at once; `LineReader.OnChunk` is proved to call back exactly `Lines(stream)`. */
module EventLines {
  import opened Prelude

  newtype Byte = b: int | 0 <= b < 256

  const NEW_LINE: Byte := 10
  const CARRIAGE_RETURN: Byte := 13
  const SPACE: Byte := 32
  const COLON: Byte := 58

  /** One `onLine` callback: the bytes of the line and the index of its first colon, or -1. */
  datatype Line = Line(bytes: seq<Byte>, fieldLength: int)

  predicate IsBreak(b: Byte) {
    b == NEW_LINE || b == CARRIAGE_RETURN
  }

  function FirstColon(s: seq<Byte>): (i: int)
    ensures -1 <= i < |s|
  {
    if s == [] then -1
    else
      var i := FirstColon(s[..|s| - 1]);
      if i >= 0 then i else if s[|s| - 1] == COLON then |s| - 1 else -1
  }

  /** `FirstColon` is the index of the first colon, and -1 exactly when there is none. */
  lemma {:induction false} FirstColonIsFirst(s: seq<Byte>)
    ensures FirstColon(s) == -1 <==> COLON !in s
    ensures FirstColon(s) >= 0 ==> s[FirstColon(s)] == COLON && COLON !in s[..FirstColon(s)]
  {
    if s != [] {
      var front := s[..|s| - 1];
      FirstColonIsFirst(front);
      assert s == front + [s[|s| - 1]];
      assert FirstColon(front) >= 0 ==> s[..FirstColon(front)] == front[..FirstColon(front)];
    }
  }

  /** The index of the first line break, or the length of the stream. */
  function EndOfLine(s: seq<Byte>): (i: nat)
    ensures i <= |s|
    ensures forall j :: 0 <= j < i ==> !IsBreak(s[j])
    ensures i < |s| ==> IsBreak(s[i])
  {
    if s == [] || IsBreak(s[0]) then 0 else EndOfLine(s[1..]) + 1
  }

  /** What follows the line that ends at `i`: CR LF is one line break. */
  function AfterLine(s: seq<Byte>, i: nat): (rest: seq<Byte>)
    requires i < |s|
    ensures |rest| < |s|
  {
    if s[i] == CARRIAGE_RETURN && i + 1 < |s| && s[i + 1] == NEW_LINE then s[i + 2..] else s[i + 1..]
  }

  /** The reference: the finished lines of a whole stream. */
  function Lines(s: seq<Byte>): seq<Line>
    decreases |s|
  {
    var i := EndOfLine(s);
    if i == |s| then [] else [Line(s[..i], FirstColon(s[..i]))] + Lines(AfterLine(s, i))
  }

  /** The reference: the unfinished last line of a whole stream. */
  function Unfinished(s: seq<Byte>): seq<Byte>
    decreases |s|
  {
    var i := EndOfLine(s);
    if i == |s| then s else Unfinished(AfterLine(s, i))
  }

  // ----- A byte-at-a-time scanner, the bridge between the chunked reader and the reference

  datatype Scan = Scan(lines: seq<Line>, current: seq<Byte>, colon: int, afterCR: bool)

  const START := Scan([], [], -1, false)

  function ScanByte(sc: Scan, b: Byte): Scan {
    if sc.afterCR && b == NEW_LINE then sc.(afterCR := false)
    else if IsBreak(b) then
      Scan(sc.lines + [Line(sc.current, sc.colon)], [], -1, b == CARRIAGE_RETURN)
    else
      Scan(sc.lines, sc.current + [b], if sc.colon < 0 && b == COLON then |sc.current| else sc.colon, false)
  }

  /** The scanner after the first `n` bytes of `s`. */
  function ScanTo(sc: Scan, s: seq<Byte>, n: nat): Scan
    requires n <= |s|
  {
    if n == 0 then sc else ScanByte(ScanTo(sc, s, n - 1), s[n - 1])
  }

  function ScanAll(sc: Scan, s: seq<Byte>): Scan {
    ScanTo(sc, s, |s|)
  }

  lemma {:induction false} ScanPrefix(sc: Scan, s: seq<Byte>, t: seq<Byte>, n: nat)
    requires n <= |s| && n <= |t| && forall i :: 0 <= i < n ==> s[i] == t[i]
    ensures ScanTo(sc, s, n) == ScanTo(sc, t, n)
  {
    if n != 0 {
      ScanPrefix(sc, s, t, n - 1);
    }
  }

  lemma {:induction false} ScanShift(sc: Scan, a: seq<Byte>, b: seq<Byte>, n: nat)
    requires n <= |b|
    ensures ScanTo(sc, a + b, |a| + n) == ScanTo(ScanAll(sc, a), b, n)
  {
    if n == 0 {
      ScanPrefix(sc, a + b, a, |a|);
    } else {
      ScanShift(sc, a, b, n - 1);
    }
  }

  lemma {:induction false} ScanConcat(sc: Scan, a: seq<Byte>, b: seq<Byte>)
    ensures ScanAll(sc, a + b) == ScanAll(ScanAll(sc, a), b)
  {
    ScanShift(sc, a, b, |b|);
  }

  lemma {:induction false} ScanPlain(lines: seq<Line>, s: seq<Byte>, n: nat)
    requires n <= |s| && forall j :: 0 <= j < n ==> !IsBreak(s[j])
    ensures ScanTo(Scan(lines, [], -1, false), s, n) == Scan(lines, s[..n], FirstColon(s[..n]), false)
  {
    if n != 0 {
      ScanPlain(lines, s, n - 1);
      assert s[..n] == s[..n - 1] + [s[n - 1]];
      ColonSnoc(s[..n - 1], s[n - 1]);
    }
  }

  lemma ColonSnoc(s: seq<Byte>, b: Byte)
    ensures FirstColon(s + [b]) == if FirstColon(s) < 0 && b == COLON then |s| else FirstColon(s)
  {
    assert (s + [b])[..|s|] == s;
  }

  /** After a finished line, scanning the rest is scanning what `AfterLine` leaves:
      a pending CR matters only to a line feed that comes next. */
  lemma {:induction false} ScanRest(lines: seq<Line>, s: seq<Byte>, i: nat)
    requires i < |s|
    ensures
      var next := ScanAll(Scan(lines, [], -1, s[i] == CARRIAGE_RETURN), s[i + 1..]);
      var same := ScanAll(Scan(lines, [], -1, false), AfterLine(s, i));
      next.lines == same.lines && next.current == same.current
  {
    var tail := s[i + 1..];
    if s[i] == CARRIAGE_RETURN && tail != [] {
      var first, others := tail[..1], tail[1..];
      assert tail == first + others;
      var next, same := Scan(lines, [], -1, true), Scan(lines, [], -1, false);
      ScanConcat(next, first, others);
      ScanConcat(same, first, others);
      assert ScanAll(next, first) == ScanByte(next, tail[0]) by { assert ScanTo(next, first, 0) == next; }
      assert ScanAll(same, first) == ScanByte(same, tail[0]) by { assert ScanTo(same, first, 0) == same; }
      assert tail[0] == NEW_LINE ==> others == AfterLine(s, i);
    }
  }

  /** Scanning over the first line break finishes the first line. */
  lemma {:induction false} ScanFirstLine(lines: seq<Line>, s: seq<Byte>, i: nat)
    requires i == EndOfLine(s) < |s|
    ensures
      var line := Line(s[..i], FirstColon(s[..i]));
      ScanAll(Scan(lines, [], -1, false), s)
      == ScanAll(Scan(lines + [line], [], -1, s[i] == CARRIAGE_RETURN), s[i + 1..])
  {
    var sc := Scan(lines, [], -1, false);
    ScanPlain(lines, s, i);
    ScanPrefix(sc, s, s[..i + 1], i + 1);
    assert s == s[..i + 1] + s[i + 1..];
    ScanConcat(sc, s[..i + 1], s[i + 1..]);
  }

  /** Scanning byte by byte finds the reference's lines and its unfinished line. */
  lemma {:induction false} ScanIsLines(lines: seq<Line>, s: seq<Byte>)
    ensures ScanAll(Scan(lines, [], -1, false), s).lines == lines + Lines(s)
    ensures ScanAll(Scan(lines, [], -1, false), s).current == Unfinished(s)
    decreases |s|
  {
    var i := EndOfLine(s);
    if i == |s| {
      ScanPlain(lines, s, i);
      assert s[..i] == s;
    } else {
      var line := Line(s[..i], FirstColon(s[..i]));
      var rest := AfterLine(s, i);
      ScanFirstLine(lines, s, i);
      ScanRest(lines + [line], s, i);
      ScanIsLines(lines + [line], rest);
      assert lines + [line] + Lines(rest) == lines + ([line] + Lines(rest));
    }
  }

  lemma ScanSummary(s: seq<Byte>)
    ensures ScanAll(START, s).lines == Lines(s) && ScanAll(START, s).current == Unfinished(s)
  {
    ScanIsLines([], s);
    assert [] + Lines(s) == Lines(s);
  }

  lemma {:induction false} ScanGrows(sc: Scan, s: seq<Byte>, n: nat)
    requires n <= |s|
    ensures sc.lines <= ScanTo(sc, s, n).lines
  {
    if n != 0 {
      ScanGrows(sc, s, n - 1);
    }
  }

  /** Lines already reported stay reported when more bytes arrive. */
  lemma LinesGrow(s: seq<Byte>, more: seq<Byte>)
    ensures Lines(s) <= Lines(s + more)
  {
    ScanSummary(s);
    ScanSummary(s + more);
    ScanConcat(START, s, more);
    ScanGrows(ScanAll(START, s), more, |more|);
  }

  /** Every scanner state can be reached again by reading its unfinished line alone. */
  lemma {:induction false} ScanReplay(s: seq<Byte>, n: nat)
    requires n <= |s|
    ensures var sc := ScanTo(START, s, n);
      && sc == ScanAll(LineBegin(sc), sc.current)
      && (sc.afterCR ==> sc.current == [])
  {
    if n != 0 {
      ScanReplay(s, n - 1);
      var sc, b := ScanTo(START, s, n - 1), s[n - 1];
      if !IsBreak(b) {
        var begin := LineBegin(ScanTo(START, s, n));
        ScanConcat(begin, sc.current, [b]);
        assert ScanTo(begin, [b], 0) == begin && ScanAll(ScanAll(begin, sc.current), [b]) == ScanTo(START, s, n) by {
          assert ScanTo(ScanAll(begin, sc.current), [b], 0) == ScanAll(begin, sc.current);
          if sc.afterCR {
            assert sc.current == [];
          }
        }
      }
    }
  }

  function LineBegin(sc: Scan): Scan {
    Scan(sc.lines, [], -1, sc.afterCR)
  }

  // ----- The reader

  /** `getLines`. `buffer` is `None` where the source has `undefined`. */
  class LineReader {
    var buffer: Option<seq<Byte>>
    var position: nat
    var fieldLength: int
    var discardTrailingNewline: bool
    var emitted: seq<Line>          // the `onLine` calls so far, in order
    ghost var received: seq<Byte>   // all bytes handed to `OnChunk` so far

    ghost predicate Valid()
      reads this
    {
      var sc := ScanAll(START, received);
      && emitted == sc.lines
      && discardTrailingNewline == sc.afterCR
      && (buffer.None? ==> sc.current == [])
      && (buffer.Some? ==> sc.current == buffer.value && position == |buffer.value| && fieldLength == sc.colon)
    }

    constructor ()
      ensures Valid() && received == [] && emitted == []
    {
      buffer := None;
      position := 0;
      fieldLength := -1;
      discardTrailingNewline := false;
      emitted := [];
      received := [];
    }

    /** After every chunk the calls made so far are exactly the finished lines of the
        bytes received so far, wherever the chunk boundaries fell. */
    method OnChunk(arr: seq<Byte>)
      requires Valid()
      modifies this
      ensures Valid()
      ensures received == old(received) + arr
      ensures emitted == Lines(received) && old(emitted) <= emitted
      ensures (if buffer.None? then [] else buffer.value) == Unfinished(received)
    {
      ghost var from := ScanAll(START, received);
      ghost var begin := LineBegin(from);
      ScanReplay(received, |received|);
      ScanConcat(begin, from.current, arr);
      ScanConcat(START, received, arr);
      ScanShift(begin, from.current, arr, 0);
      if buffer.None? {
        buffer := Some(arr);
        position := 0;
        fieldLength := -1;
      } else {
        buffer := Some(buffer.value + arr);
      }
      assert buffer.value == from.current + arr;
      var calls;
      calls, buffer, position, fieldLength, discardTrailingNewline :=
        EmitLines(buffer.value, position, fieldLength, discardTrailingNewline, begin);
      emitted := emitted + calls;
      received := received + arr;
      ScanSummary(received);
    }
  }

  /** The outer loop of `getLines`: report every finished line of the buffer and keep the rest. */
  method EmitLines(buf: seq<Byte>, start: nat, colon: int, afterCR: bool, ghost begin: Scan)
    returns (calls: seq<Line>, buffer: Option<seq<Byte>>, position: nat, fieldLength: int, discard: bool)
    requires start <= |buf| && begin.current == [] && begin.colon == -1
    requires ScanTo(begin, buf, start) == Scan(begin.lines, buf[..start], colon, afterCR)
    requires afterCR ==> start == 0
    ensures var sc := ScanAll(begin, buf);
      && sc.lines == begin.lines + calls && discard == sc.afterCR
      && (buffer.None? ==> sc.current == [])
      && (buffer.Some? ==> sc.current == buffer.value && position == |buffer.value| && fieldLength == sc.colon)
  {
    var lineStart := 0;
    calls, position, fieldLength, discard := [], start, colon, afterCR;
    assert buf[..start] == buf[0..start] && begin.lines + calls == begin.lines;

    while position < |buf|
      invariant start <= position <= |buf|
      invariant 0 <= lineStart <= position && (lineStart == 0 || lineStart == position)
      invariant ScanTo(begin, buf, position)
             == Scan(begin.lines + calls, buf[lineStart..position], fieldLength, discard)
      invariant discard ==> lineStart == position
    {
      ghost var pending := discard && buf[position] != NEW_LINE;
      if discard {
        if buf[position] == NEW_LINE {
          position := position + 1;
          lineStart := position;
        }
        discard := false;
      }

      ghost var lines := begin.lines + calls;
      var lineEnd;
      lineEnd, position, fieldLength, discard :=
        FindBreak(buf, lineStart, position, fieldLength, begin, lines, pending);

      if lineEnd == -1 {
        return calls, Some(buf[lineStart..]), position - lineStart, fieldLength, discard;
      }

      var line := Line(buf[lineStart..lineEnd], fieldLength);
      assert lines + [line] == begin.lines + (calls + [line]);
      calls := calls + [line];
      lineStart := position;
      fieldLength := -1;
    }

    buffer := if lineStart == |buf| then None else Some(buf);
    assert buf[0..|buf|] == buf;
  }

  /** The inner loop of `getLines`: run to the next line break or to the end of the buffer,
      noting the first colon and whether the break was a carriage return. `pending` says
      that the line begins after a carriage return that no line feed follows. */
  method FindBreak(buf: seq<Byte>, lineStart: nat, start: nat, colon: int,
                   ghost begin: Scan, ghost lines: seq<Line>, ghost pending: bool)
    returns (lineEnd: int, position: nat, fieldLength: int, discard: bool)
    requires lineStart <= start <= |buf|
    requires ScanTo(begin, buf, start) == Scan(lines, buf[lineStart..start], colon, pending)
    requires pending ==> start < |buf| && buf[start] != NEW_LINE
    ensures lineEnd == -1 ==>
      position == |buf| && ScanAll(begin, buf) == Scan(lines, buf[lineStart..], fieldLength, false) && !discard
    ensures lineEnd != -1 ==>
      && lineStart <= lineEnd && start < position == lineEnd + 1 <= |buf|
      && ScanTo(begin, buf, position)
         == Scan(lines + [Line(buf[lineStart..lineEnd], fieldLength)], [], -1, discard)
  {
    lineEnd, position, fieldLength, discard := -1, start, colon, false;
    ghost var after, scan := pending, ScanTo(begin, buf, start);
    while position < |buf| && lineEnd == -1
      invariant start <= position <= |buf| && scan == ScanTo(begin, buf, position)
      invariant lineEnd == -1 ==>
        && scan == Scan(lines, buf[lineStart..position], fieldLength, after)
        && !discard && (after ==> position < |buf| && buf[position] != NEW_LINE)
      invariant lineEnd != -1 ==>
        && lineStart <= lineEnd == position - 1 && start < position
        && scan == Scan(lines + [Line(buf[lineStart..lineEnd], fieldLength)], [], -1, discard)
    {
      assert buf[lineStart..position] + [buf[position]] == buf[lineStart..position + 1];
      scan := ScanByte(scan, buf[position]);
      if buf[position] == COLON {
        if fieldLength < 0 {
          fieldLength := position - lineStart;
        }
      } else if buf[position] == CARRIAGE_RETURN {
        discard := true;
        lineEnd := position;
      } else if buf[position] == NEW_LINE {
        lineEnd := position;
      }
      after := false;
      position := position + 1;
    }
    assert buf[lineStart..|buf|] == buf[lineStart..];
  }

  function Concat(chunks: seq<seq<Byte>>): seq<Byte> {
    if chunks == [] then [] else Concat(chunks[..|chunks| - 1]) + chunks[|chunks| - 1]
  }

  /** Chunk independence: whatever the chunking, empty chunks and a CR | LF split
      included, the callbacks are the lines of the concatenated stream. */
  method ReadLines(chunks: seq<seq<Byte>>) returns (lines: seq<Line>)
    ensures lines == Lines(Concat(chunks))
  {
    var reader := new LineReader();
    for n := 0 to |chunks|
      invariant reader.Valid() && reader.received == Concat(chunks[..n])
    {
      assert chunks[..n + 1][..n] == chunks[..n];
      reader.OnChunk(chunks[n]);
    }
    assert chunks[..|chunks|] == chunks;
    ScanSummary(reader.received);
    lines := reader.emitted;
  }
}
