/**
 The JSONL line splitters of both control channels
 (packages/bridge-simulator/src/control.ts, packages/addin-loopback-fixture/src/control.ts).
 */
module LineSplitter {
  import opened Framing

  const LF: byte := 0x0A
  const CR: byte := 0x0D
  const MAX_LINE_BYTES := 64 * 1024

  datatype Event = Line(bytes: Bytes) | TooLarge

  // ----- What the events of a byte stream are -----

  /** The first line feed at or after `from`, or the length of the stream. */
  function NextLF(s: Bytes, from: nat): (i: nat)
    requires from <= |s|
    ensures from <= i <= |s| && (i < |s| ==> s[i] == LF)
    ensures forall j :: from <= j < i ==> s[j] != LF
    decreases |s| - from
  {
    if from == |s| || s[from] == LF then from else NextLF(s, from + 1)
  }

  /** The finished lines, without their line feeds. */
  function FinishedLines(s: Bytes): (lines: seq<Bytes>)
    decreases |s|
  {
    var i := NextLF(s, 0);
    if i == |s| then [] else [s[..i]] + FinishedLines(s[i + 1..])
  }

  function UnfinishedLine(s: Bytes): (tail: Bytes)
    decreases |s|
  {
    var i := NextLF(s, 0);
    if i == |s| then s else UnfinishedLine(s[i + 1..])
  }

  function WithoutCR(line: Bytes): (l: Bytes) {
    if line != [] && line[|line| - 1] == CR then line[..|line| - 1] else line
  }

  function EventOf(line: Bytes): (e: Event) {
    if |line| <= MAX_LINE_BYTES then Line(WithoutCR(line)) else TooLarge
  }

  function EventsOf(lines: seq<Bytes>): (es: seq<Event>)
    ensures |es| == |lines| && forall i :: 0 <= i < |lines| ==> es[i] == EventOf(lines[i])
  {
    seq(|lines|, i requires 0 <= i < |lines| => EventOf(lines[i]))
  }

  /** One event per line; an unfinished line has one exactly when it is already too large. */
  function StreamEvents(s: Bytes): (es: seq<Event>) {
    EventsOf(FinishedLines(s)) + (if |UnfinishedLine(s)| > MAX_LINE_BYTES then [TooLarge] else [])
  }

  lemma NextLFIs(s: Bytes, i: nat)
    requires i <= |s| && (forall j :: 0 <= j < i ==> s[j] != LF) && (i < |s| ==> s[i] == LF)
    ensures NextLF(s, 0) == i
  {
  }

  /** Peeling off the first line. */
  lemma FirstLine(line: Bytes, rest: Bytes)
    requires LF !in line
    ensures FinishedLines(line + [LF] + rest) == [line] + FinishedLines(rest)
    ensures UnfinishedLine(line + [LF] + rest) == UnfinishedLine(rest)
  {
    var s := line + [LF] + rest;
    NextLFIs(s, |line|);
    assert s[..|line|] == line;
    assert s[|line| + 1..] == rest;
  }

  lemma NoLine(s: Bytes)
    requires LF !in s
    ensures FinishedLines(s) == [] && UnfinishedLine(s) == s
  {
    NextLFIs(s, |s|);
  }

  lemma Peel(s: Bytes) returns (line: Bytes, rest: Bytes)
    requires LF in s
    ensures LF !in line && s == line + [LF] + rest
  {
    var i := NextLF(s, 0);
    line, rest := s[..i], s[i + 1..];
  }

  /** What is appended behind the first line is appended to the rest. */
  lemma Behind(line: Bytes, rest: Bytes, tail: Bytes)
    requires LF !in line
    ensures var s := line + [LF] + rest;
            && FinishedLines(s) == [line] + FinishedLines(rest) && UnfinishedLine(s) == UnfinishedLine(rest)
            && FinishedLines(s + tail) == [line] + FinishedLines(rest + tail)
            && UnfinishedLine(s + tail) == UnfinishedLine(rest + tail)
  {
    FirstLine(line, rest);
    FirstLine(line, rest + tail);
    assert line + [LF] + rest + tail == line + [LF] + (rest + tail);
  }

  lemma {:induction false} AppendPart(s: Bytes, part: Bytes)
    requires LF !in part
    ensures FinishedLines(s + part) == FinishedLines(s)
    ensures UnfinishedLine(s + part) == UnfinishedLine(s) + part
    decreases |s|
  {
    if LF in s {
      var line, rest := Peel(s);
      AppendPart(rest, part);
      Behind(line, rest, part);
    } else {
      NoLine(s);
      NoLine(s + part);
    }
  }

  lemma {:induction false} AppendLF(s: Bytes)
    ensures FinishedLines(s + [LF]) == FinishedLines(s) + [UnfinishedLine(s)]
    ensures UnfinishedLine(s + [LF]) == []
    decreases |s|
  {
    if LF in s {
      var line, rest := Peel(s);
      AppendLF(rest);
      Behind(line, rest, [LF]);
    } else {
      NoLine(s);
      FirstLine(s, []);
      NoLine([]);
      assert s + [LF] == s + [LF] + [];
    }
  }

  /** The event a part of a line adds: one, when the line outgrows the limit. */
  lemma PartEvents(s: Bytes, part: Bytes)
    requires LF !in part
    ensures UnfinishedLine(s + part) == UnfinishedLine(s) + part
    ensures StreamEvents(s + part) == StreamEvents(s) +
      (if |UnfinishedLine(s)| <= MAX_LINE_BYTES < |UnfinishedLine(s)| + |part| then [TooLarge] else [])
  {
    AppendPart(s, part);
  }

  /** The event a line feed adds: the line, unless it was already reported. */
  lemma LineFeedEvents(s: Bytes)
    ensures UnfinishedLine(s + [LF]) == []
    ensures StreamEvents(s + [LF]) == StreamEvents(s) +
      (if |UnfinishedLine(s)| <= MAX_LINE_BYTES then [Line(WithoutCR(UnfinishedLine(s)))] else [])
  {
    AppendLF(s);
    assert EventsOf(FinishedLines(s) + [UnfinishedLine(s)]) == EventsOf(FinishedLines(s)) + [EventOf(UnfinishedLine(s))];
  }

  // ----- The splitter -----

  class Splitter {
    var buffer: Bytes
    var discarding: bool
    var accepting: bool
    ghost var consumed: Bytes

    /** The two fields are the unfinished line, forgotten once it is too large. */
    ghost predicate Valid()
      reads this
    {
      && discarding == (|UnfinishedLine(consumed)| > MAX_LINE_BYTES)
      && buffer == if discarding then [] else UnfinishedLine(consumed)
    }

    constructor ()
      ensures Valid() && consumed == [] && accepting
    {
      buffer, discarding, accepting := [], false, true;
      consumed := [];
    }

    method TakeSegment(segment: Bytes) returns (events: seq<Event>)
      requires Valid() && LF !in segment
      modifies this
      ensures Valid() && accepting == old(accepting) && consumed == old(consumed) + segment
      ensures StreamEvents(consumed) == StreamEvents(old(consumed)) + events
    {
      events := [];
      PartEvents(consumed, segment);
      if !discarding {
        if |buffer| + |segment| > MAX_LINE_BYTES {
          buffer := [];
          discarding := true;
          events := [TooLarge];
        } else if |segment| > 0 {
          buffer := buffer + segment;
        }
      }
      consumed := consumed + segment;
    }

    method EndLine() returns (events: seq<Event>)
      requires Valid()
      modifies this
      ensures Valid() && accepting == old(accepting) && consumed == old(consumed) + [LF]
      ensures StreamEvents(consumed) == StreamEvents(old(consumed)) + events
    {
      events := [];
      LineFeedEvents(consumed);
      if !discarding {
        var line := if |buffer| > 0 && buffer[|buffer| - 1] == CR then buffer[..|buffer| - 1] else buffer;
        events := [Line(line)];
      }
      buffer := [];
      discarding := false;
      consumed := consumed + [LF];
    }

    method TakePiece(segment: Bytes, ended: bool) returns (events: seq<Event>)
      requires Valid() && LF !in segment
      modifies this
      ensures Valid() && accepting == old(accepting) && consumed == old(consumed) + Piece(segment, ended)
      ensures StreamEvents(consumed) == StreamEvents(old(consumed)) + events
    {
      events := TakeSegment(segment);
      if ended {
        var fromLine := EndLine();
        events := events + fromLine;
      }
    }

    /** Whatever the cutting, the events of the bytes so far grow by exactly the events returned. */
    method Consume(chunk: Bytes) returns (events: seq<Event>)
      requires Valid()
      modifies this
      ensures Valid() && accepting == old(accepting)
      ensures consumed == old(consumed) + (if accepting then chunk else [])
      ensures StreamEvents(consumed) == StreamEvents(old(consumed)) + events
    {
      events := [];
      if !accepting { return; }
      var offset := 0;
      while offset < |chunk|
        invariant offset <= |chunk| && Valid() && accepting
        invariant consumed == old(consumed) + chunk[..offset]
        invariant StreamEvents(consumed) == StreamEvents(old(consumed)) + events
      {
        var newline := NextLF(chunk, offset);
        NextPiece(chunk, offset);
        Associative(old(consumed), chunk[..offset], Piece(chunk[offset..newline], newline < |chunk|));
        var fromPiece := TakePiece(chunk[offset..newline], newline < |chunk|);
        Associative(StreamEvents(old(consumed)), events, fromPiece);
        events := events + fromPiece;
        offset := if newline < |chunk| then newline + 1 else |chunk|;
      }
      assert chunk[..offset] == chunk;
    }
  }

  lemma Associative<T>(a: seq<T>, b: seq<T>, c: seq<T>)
    ensures a + b + c == a + (b + c)
  {
  }

  function Piece(segment: Bytes, ended: bool): (s: Bytes) {
    segment + (if ended then [LF] else [])
  }

  lemma NextPiece(chunk: Bytes, offset: nat)
    requires offset < |chunk|
    ensures var newline := NextLF(chunk, offset);
            var next := if newline < |chunk| then newline + 1 else |chunk|;
            LF !in chunk[offset..newline] && chunk[..next] == chunk[..offset] + Piece(chunk[offset..newline], newline < |chunk|)
  {
  }

  /** The events of a stream say how many lines it has, in order. */
  lemma EventsFollowLines(s: Bytes, i: nat)
    requires i < |FinishedLines(s)|
    ensures |StreamEvents(s)| == |FinishedLines(s)| + (if |UnfinishedLine(s)| > MAX_LINE_BYTES then 1 else 0)
    ensures StreamEvents(s)[i] == EventOf(FinishedLines(s)[i])
  {
  }

  function JoinLines(lines: seq<Bytes>): (s: Bytes) {
    if lines == [] then [] else lines[0] + [LF] + JoinLines(lines[1..])
  }

  lemma JoinFirst(line: Bytes, lines: seq<Bytes>, tail: Bytes)
    ensures JoinLines([line] + lines) + tail == line + [LF] + (JoinLines(lines) + tail)
  {
    assert ([line] + lines)[1..] == lines;
  }

  /** The finished lines and the rest make up the stream again. */
  lemma {:induction false} LinesAreTheStream(s: Bytes)
    ensures JoinLines(FinishedLines(s)) + UnfinishedLine(s) == s
    decreases |s|
  {
    if LF in s {
      var line, rest := Peel(s);
      LinesAreTheStream(rest);
      FirstLine(line, rest);
      JoinFirst(line, FinishedLines(rest), UnfinishedLine(rest));
    } else {
      NoLine(s);
    }
  }
}
