/** Length-prefixed frames (packages/addin-loopback-fixture/src/framing.ts). */
module Framing {
  import opened Wrappers

  newtype byte = x: int | 0 <= x < 256

  type Bytes = seq<byte>

  const HEADER_BYTES := 4
  const MAX_UINT32 := 0xFFFF_FFFF

  function WriteUInt32BE(n: nat): (h: Bytes)
    requires n <= MAX_UINT32
    ensures |h| == HEADER_BYTES
  {
    [(n / 0x100_0000) as byte, (n / 0x1_0000 % 0x100) as byte, (n / 0x100 % 0x100) as byte, (n % 0x100) as byte]
  }

  function ReadUInt32BE(s: Bytes): (n: nat)
    requires |s| >= HEADER_BYTES
  {
    s[0] as nat * 0x100_0000 + s[1] as nat * 0x1_0000 + s[2] as nat * 0x100 + s[3] as nat
  }

  lemma HeaderRoundTrip(n: nat, rest: Bytes)
    requires n <= MAX_UINT32
    ensures ReadUInt32BE(WriteUInt32BE(n) + rest) == n
  {
    var h := WriteUInt32BE(n) + rest;
    assert n / 0x100 == n / 0x1_0000 * 0x100 + n / 0x100 % 0x100;
    assert n / 0x1_0000 == n / 0x100_0000 * 0x100 + n / 0x1_0000 % 0x100;
  }

  function EncodeFrame(payload: Bytes, max: nat): (frame: Result<Bytes>) {
    if |payload| > max || |payload| > MAX_UINT32 then Throw else Success(WriteUInt32BE(|payload|) + payload)
  }

  /** `fatal` is the advertised length that exceeded the cap. */
  datatype Decoding = Decoding(frames: seq<Bytes>, rest: Bytes, fatal: Option<nat>)

  /** Decoding a whole byte sequence in one piece. */
  function Decode(s: Bytes, max: nat): (d: Decoding)
    ensures d.fatal.None? ==> |d.rest| < HEADER_BYTES + max
    decreases |s|
  {
    if |s| < HEADER_BYTES then Decoding([], s, None)
    else
      var n := ReadUInt32BE(s);
      if n > max then Decoding([], [], Some(n))
      else if |s| < HEADER_BYTES + n then Decoding([], s, None)
      else
        var d := Decode(s[HEADER_BYTES + n..], max);
        d.(frames := [s[HEADER_BYTES..HEADER_BYTES + n]] + d.frames)
  }

  function Prepend(frame: Bytes, d: Decoding): (e: Decoding) {
    d.(frames := [frame] + d.frames)
  }

  function Continue(frames: seq<Bytes>, d: Decoding): (e: Decoding) {
    d.(frames := frames + d.frames)
  }

  lemma DecodeFrame(s: Bytes, n: nat, max: nat)
    requires |s| >= HEADER_BYTES + n && ReadUInt32BE(s) == n <= max
    ensures Decode(s, max) == Prepend(s[HEADER_BYTES..HEADER_BYTES + n], Decode(s[HEADER_BYTES + n..], max))
  {
  }

  lemma HeaderOfExtension(s: Bytes, t: Bytes)
    requires |s| >= HEADER_BYTES
    ensures ReadUInt32BE(s + t) == ReadUInt32BE(s)
  {
  }

  lemma ExtendFrame(s: Bytes, t: Bytes, n: nat, max: nat)
    requires |s| >= HEADER_BYTES + n && ReadUInt32BE(s) == n <= max
    ensures Decode(s + t, max) == Prepend(s[HEADER_BYTES..HEADER_BYTES + n], Decode(s[HEADER_BYTES + n..] + t, max))
  {
    HeaderOfExtension(s, t);
    DecodeFrame(s + t, n, max);
    assert (s + t)[HEADER_BYTES + n..] == s[HEADER_BYTES + n..] + t;
    assert (s + t)[HEADER_BYTES..HEADER_BYTES + n] == s[HEADER_BYTES..HEADER_BYTES + n];
  }

  lemma ContinuePrepend(frame: Bytes, frames: seq<Bytes>, d: Decoding)
    ensures Prepend(frame, Continue(frames, d)) == Continue([frame] + frames, d)
  {
    assert [frame] + (frames + d.frames) == ([frame] + frames) + d.frames;
  }

  lemma ContinueNext(frames: seq<Bytes>, frame: Bytes, d: Decoding)
    ensures Continue(frames, Prepend(frame, d)) == Continue(frames + [frame], d)
  {
    assert frames + ([frame] + d.frames) == frames + [frame] + d.frames;
  }

  /** More bytes only continue what was left over; a fatal length stays fatal. */
  lemma {:induction false} DecodeExtends(s: Bytes, t: Bytes, max: nat)
    ensures var d := Decode(s, max);
            Decode(s + t, max) == if d.fatal.Some? then d else Continue(d.frames, Decode(d.rest + t, max))
    decreases |s|
  {
    if |s| >= HEADER_BYTES && ReadUInt32BE(s) <= max && |s| >= HEADER_BYTES + ReadUInt32BE(s) {
      var n := ReadUInt32BE(s);
      var tail := s[HEADER_BYTES + n..];
      DecodeExtends(tail, t, max);
      ExtendFrame(s, t, n, max);
      DecodeFrame(s, n, max);
      var d := Decode(tail, max);
      ContinuePrepend(s[HEADER_BYTES..HEADER_BYTES + n], d.frames, Decode(d.rest + t, max));
    } else if |s| >= HEADER_BYTES && ReadUInt32BE(s) > max {
      HeaderOfExtension(s, t);
    } else {
      assert Decode(s, max) == Decoding([], s, None);
      assert [] + Decode(s + t, max).frames == Decode(s + t, max).frames;
    }
  }

  function Concat(chunks: seq<Bytes>): (s: Bytes) {
    if chunks == [] then [] else Concat(chunks[..|chunks| - 1]) + chunks[|chunks| - 1]
  }

  // ----- Decoding in pieces -----

  class FrameDecoder {
    const max: nat
    var buffer: Bytes
    var closed: bool

    ghost predicate Valid()
      reads this
    {
      if closed then buffer == [] else |buffer| < HEADER_BYTES + max
    }

    constructor (max: nat)
      ensures Valid() && this.max == max && buffer == [] && !closed
    {
      this.max := max;
      buffer := [];
      closed := false;
    }

    /** `accepted` is false for a push after a fatal error; `fatal` carries the frames completed before it. */
    method Push(chunk: Bytes) returns (accepted: bool, frames: seq<Bytes>, fatal: Option<nat>)
      requires Valid()
      modifies this
      ensures Valid()
      ensures accepted == !old(closed)
      ensures if !accepted then frames == [] && fatal.None? && closed && buffer == old(buffer)
              else
                var d := Decode(old(buffer) + chunk, max);
                frames == d.frames && fatal == d.fatal && closed == d.fatal.Some? && buffer == d.rest
    {
      frames, fatal := [], None;
      if closed { return false, [], None; }
      ghost var all := Decode(buffer + chunk, max);
      if |chunk| > 0 { buffer := buffer + chunk; } else { assert buffer + chunk == buffer; }
      while |buffer| >= HEADER_BYTES
        invariant !closed && fatal.None?
        invariant all == Continue(frames, Decode(buffer, max))
        decreases |buffer|
      {
        var payloadLength := ReadUInt32BE(buffer);
        if payloadLength > max {
          closed := true;
          buffer := [];
          return true, frames, Some(payloadLength);
        }
        var frameBytes := HEADER_BYTES + payloadLength;
        if |buffer| < frameBytes { break; }
        DecodeFrame(buffer, payloadLength, max);
        ContinueNext(frames, buffer[HEADER_BYTES..frameBytes], Decode(buffer[frameBytes..], max));
        frames := frames + [buffer[HEADER_BYTES..frameBytes]];
        buffer := buffer[frameBytes..];
      }
      accepted := true;
    }
  }

  /** What a decoder has yielded after a list of pushes; pushes after a fatal error are refused. */
  function DecodeChunks(chunks: seq<Bytes>, max: nat): (d: Decoding) {
    if chunks == [] then Decoding([], [], None)
    else
      var d := DecodeChunks(chunks[..|chunks| - 1], max);
      if d.fatal.Some? then d
      else Continue(d.frames, Decode(d.rest + chunks[|chunks| - 1], max))
  }

  /** However the stream is cut, the frames and the fatal point are those of one piece. */
  lemma {:induction false} ChunkingIsIrrelevant(chunks: seq<Bytes>, max: nat)
    ensures DecodeChunks(chunks, max) == Decode(Concat(chunks), max)
  {
    if chunks != [] {
      var n := |chunks| - 1;
      ChunkingIsIrrelevant(chunks[..n], max);
      DecodeExtends(Concat(chunks[..n]), chunks[n], max);
    }
  }

  /** The frames of a list of payloads, one after the other. */
  function EncodeAll(payloads: seq<Bytes>, max: nat): (s: Result<Bytes>) {
    if payloads == [] then Success([])
    else
      var first :- EncodeFrame(payloads[0], max);
      var rest :- EncodeAll(payloads[1..], max);
      Success(first + rest)
  }

  lemma DecodeFirst(p: Bytes, rest: Bytes, max: nat)
    requires |p| <= MAX_UINT32 && |p| <= max
    ensures Decode(WriteUInt32BE(|p|) + p + rest, max) == Prepend(p, Decode(rest, max))
  {
    var s := WriteUInt32BE(|p|) + p + rest;
    HeaderRoundTrip(|p|, p + rest);
    assert s == WriteUInt32BE(|p|) + (p + rest);
    DecodeFrame(s, |p|, max);
    assert s[HEADER_BYTES + |p|..] == rest;
    assert s[HEADER_BYTES..HEADER_BYTES + |p|] == p;
  }

  /** Decoding concatenated frames gives the payloads back, with nothing left over. */
  lemma {:induction false} DecodeEncoded(payloads: seq<Bytes>, max: nat)
    requires EncodeAll(payloads, max).Success?
    ensures Decode(EncodeAll(payloads, max).value, max) == Decoding(payloads, [], None)
  {
    if payloads != [] {
      DecodeEncoded(payloads[1..], max);
      DecodeFirst(payloads[0], EncodeAll(payloads[1..], max).value, max);
      assert [payloads[0]] + payloads[1..] == payloads;
    }
  }

  /** The two ends together: any cutting of the encoded frames yields the payloads. */
  lemma FramesSurviveChunking(payloads: seq<Bytes>, chunks: seq<Bytes>, max: nat)
    requires EncodeAll(payloads, max) == Success(Concat(chunks))
    ensures DecodeChunks(chunks, max) == Decoding(payloads, [], None)
  {
    ChunkingIsIrrelevant(chunks, max);
    DecodeEncoded(payloads, max);
  }
}
