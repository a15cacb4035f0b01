/** The per-session sequence state (packages/protocol/src/sequenceState.ts). */
module Sequences {
  import opened Wrappers

  const MAX_SEQUENCE := 0x1F_FFFF_FFFF_FFFF

  /** `digest` is the immutable identity of the envelope. */
  datatype Envelope = Envelope(rsid: string, num: nat, ack: Option<nat>, kind: string, digest: string)

  datatype Frame = Frame(num: nat, payload: string)

  datatype SeqState = SeqState(
    nextTx: Option<nat>,
    highestTx: nat,
    lastRx: nat,
    lastPeerAck: nat,
    outbox: seq<Frame>,
    accepted: map<nat, string>)

  datatype Inbound = InAccepted(state: SeqState) | InDuplicate(state: SeqState) | InGap | InFault(reason: string)

  const INITIAL := SeqState(Some(1), 0, 0, 0, [], map[])

  function Unacked(frames: seq<Frame>, ack: nat): (rest: seq<Frame>)
    ensures forall f :: f in rest ==> f in frames && f.num > ack
    ensures |rest| <= |frames|
  {
    if frames == [] then []
    else if frames[0].num > ack then [frames[0]] + Unacked(frames[1..], ack)
    else Unacked(frames[1..], ack)
  }

  /** `None` is the protocol fault; a stale or repeated ack changes nothing. */
  function ApplyAck(s: SeqState, ack: nat): (next: Option<SeqState>) {
    if ack > MAX_SEQUENCE || ack > s.highestTx then None
    else if ack <= s.lastPeerAck then Some(s)
    else Some(s.(lastPeerAck := ack, outbox := Unacked(s.outbox, ack)))
  }

  function AcceptInbound(s: SeqState, e: Envelope): (r: Inbound) {
    var acked := if e.ack.Some? then ApplyAck(s, e.ack.value) else Some(s);
    if acked.None? then InFault("ack_beyond_sent")
    else
      var st := acked.value;
      if e.num < 1 || e.num > MAX_SEQUENCE then InFault("unsafe_sequence")
      else if e.num <= st.lastRx then
        if e.num in st.accepted && st.accepted[e.num] == e.digest then InDuplicate(st)
        else InFault("duplicate_identity_mismatch")
      else if st.lastRx >= MAX_SEQUENCE then InFault("sequence_exhausted")
      else if e.num != st.lastRx + 1 then InGap
      else InAccepted(st.(lastRx := e.num, accepted := st.accepted[e.num := e.digest]))
  }

  /** `None` means that the session must be renewed. */
  function QueueData(s: SeqState, payload: string): (q: Option<(SeqState, nat)>) {
    if s.nextTx.None? then None
    else
      var num := s.nextTx.value;
      Some((s.(nextTx := if num >= MAX_SEQUENCE then None else Some(num + 1),
               highestTx := num,
               outbox := s.outbox + [Frame(num, payload)]),
            num))
  }

  ghost predicate SeqInv(s: SeqState) {
    && s.lastPeerAck <= s.highestTx
    && (s.nextTx.Some? ==> s.nextTx.value == s.highestTx + 1)
    && (forall f :: f in s.outbox ==> s.lastPeerAck < f.num <= s.highestTx)
  }

  /** Counters only grow. */
  ghost predicate SeqAdvances(a: SeqState, b: SeqState) {
    SeqInv(b) && a.lastRx <= b.lastRx && a.highestTx <= b.highestTx && a.lastPeerAck <= b.lastPeerAck
  }
}
