/**
 What every transaction on the wire tables keeps.  `Hist` is specification state: it
 remembers the sequence numbers given to the drafts of each delivery and the
 terminal sequence number of every delivery whose inbound work was deleted.
 */
module WireInvariant {
  import opened Wrappers
  import opened Sequences
  import opened WireTables

  datatype Hist = Hist(sent: map<string, seq<nat>>, retired: map<Slot, nat>)

  /** The row-shape constraint of the inbound_work table, and its link to the plan. */
  ghost predicate RowInv(w: Wire, k: Slot)
    requires k in w.work
  {
    var x := w.work[k];
    && 1 <= k.num <= Load(w, k.rsid).lastRx
    && (x.reply.Some? <==> x.state.ReplyReady? || x.state.DeliveryReady?)
    && (x.deliveryId.Some? <==> x.state.DeliveryReady?)
    && (x.state.DeliveryReady? ==>
          && x.deliveryId.value in w.plans
          && w.plans[x.deliveryId.value].rsid == k.rsid
          && w.plans[x.deliveryId.value].inboundSeq == Some(k.num))
  }

  ghost predicate Increasing(s: seq<nat>, bound: nat) {
    && (forall i, j :: 0 <= i < j < |s| ==> s[i] < s[j])
    && (forall i :: 0 <= i < |s| ==> s[i] <= bound)
  }

  /** The drafts still stored are exactly those not yet given a number, in order. */
  ghost predicate PlanInv(w: Wire, sent: map<string, seq<nat>>, d: string)
    requires d in w.plans
  {
    var p := w.plans[d];
    && d in sent
    && |sent[d]| <= p.terminalOrdinal + 1
    && (p.state.Pending? <==> |sent[d]| <= p.terminalOrdinal)
    && (forall o: nat :: DraftKey(d, o) in w.drafts <==> |sent[d]| <= o <= p.terminalOrdinal)
    && p.terminalSeq == (if p.state.Pending? then None else Some(sent[d][p.terminalOrdinal]))
    && Increasing(sent[d], Load(w, p.rsid).highestTx)
  }

  ghost predicate SeqsInv(w: Wire) {
    forall r :: r in w.seqs ==> SeqInv(w.seqs[r])
  }

  ghost predicate RowsInv(w: Wire) {
    forall k :: k in w.work ==> RowInv(w, k)
  }

  ghost predicate PlansInv(w: Wire, sent: map<string, seq<nat>>) {
    && (forall d :: d in w.plans ==> PlanInv(w, sent, d))
    && (forall k :: k in w.drafts ==> k.deliveryId in w.plans)
  }

  ghost predicate IsTerminal(w: Wire, k: Slot, d: string) {
    d in w.plans && w.plans[d].rsid == k.rsid && w.plans[d].terminalSeq == Some(k.num)
  }

  ghost predicate TerminalsInv(w: Wire) {
    && (forall k, d, e :: IsTerminal(w, k, d) && IsTerminal(w, k, e) ==> d == e)
    && (forall k :: k in w.outbox ==> exists d :: IsTerminal(w, k, d))
  }

  /** Nothing received is lost: a missing row belonged to a delivery the peer acknowledged. */
  ghost predicate Covered(w: Wire, retired: map<Slot, nat>, k: Slot) {
    k in w.work || (k in retired && retired[k] <= Load(w, k.rsid).lastPeerAck)
  }

  ghost predicate CoverInv(w: Wire, retired: map<Slot, nat>) {
    forall k: Slot :: 1 <= k.num <= Load(w, k.rsid).lastRx ==> Covered(w, retired, k)
  }

  ghost predicate WireInv(w: Wire, h: Hist) {
    SeqsInv(w) && RowsInv(w) && PlansInv(w, h.sent) && TerminalsInv(w) && CoverInv(w, h.retired)
  }

  // ----- Advancing -----

  /** The moves of one inbound row; its identity never changes. */
  predicate WorkMoves(x: Work, y: Work) {
    && x.digest == y.digest && x.kind == y.kind && x.correlation == y.correlation && x.context == y.context
    && match x.state
       case Journaled => true
       case ReplyReady => (y.state.ReplyReady? || y.state.DeliveryReady? ==> y.reply == x.reply) && !y.state.Journaled?
       case DeliveryReady => y == x
       case NoReply => y == x
  }

  ghost predicate RowAdvances(w: Wire, v: Wire, k: Slot)
    requires k in v.work
  {
    if k in w.work then WorkMoves(w.work[k], v.work[k]) else Load(w, k.rsid).lastRx < k.num
  }

  /** Session `r` only moves forward from `w` to `v`. */
  ghost predicate SessionAdvances(w: Wire, v: Wire, r: string) {
    && Load(w, r).lastRx <= Load(v, r).lastRx
    && Load(w, r).lastPeerAck <= Load(v, r).lastPeerAck
    && Load(w, r).highestTx <= Load(v, r).highestTx
    && (forall k :: k in v.work && k.rsid == r ==> RowAdvances(w, v, k))
  }

  ghost predicate WireAdvances(w: Wire, v: Wire) {
    forall r :: SessionAdvances(w, v, r)
  }

  /** Moving forward never lowers what may be acknowledged. */
  lemma AckGrows(w: Wire, v: Wire, r: string)
    requires SessionAdvances(w, v, r)
    ensures Acknowledgeable(w, r) <= Acknowledgeable(v, r)
  {
    forall i | 1 <= i <= Acknowledgeable(w, r) ensures !Blocks(v, r, i) {
      if Slot(r, i) in v.work { assert RowAdvances(w, v, Slot(r, i)) && !Blocks(w, r, i); }
    }
  }

  /** Every number up to the acknowledged one is answered, staged, or finished with the peer. */
  lemma AckIsCovered(w: Wire, h: Hist, k: Slot)
    requires WireInv(w, h) && 1 <= k.num <= Acknowledgeable(w, k.rsid)
    ensures if k in w.work
            then
              || w.work[k].state.NoReply?
              || (&& w.work[k].deliveryId.Some? && w.work[k].deliveryId.value in w.plans
                  && w.plans[w.work[k].deliveryId.value].inboundSeq == Some(k.num)
                  && w.plans[w.work[k].deliveryId.value].rsid == k.rsid)
            else k in h.retired && h.retired[k] <= Load(w, k.rsid).lastPeerAck
  {
    assert !Blocks(w, k.rsid, k.num);
    assert Covered(w, h.retired, k);
  }

  // ----- History -----

  predicate HasTerminal(w: Wire, k: Slot) {
    && k in w.work && w.work[k].deliveryId.Some? && w.work[k].deliveryId.value in w.plans
    && w.plans[w.work[k].deliveryId.value].terminalSeq.Some?
  }

  predicate Vanished(w: Wire, v: Wire, k: Slot) {
    k in w.work && k !in v.work && HasTerminal(w, k)
  }

  function TerminalOf(w: Wire, k: Slot): (num: nat)
    requires HasTerminal(w, k)
  {
    w.plans[w.work[k].deliveryId.value].terminalSeq.value
  }

  /** The history after rows disappeared between `w` and `v`. */
  function Retire(retired: map<Slot, nat>, w: Wire, v: Wire): (next: map<Slot, nat>) {
    retired + map k | k in w.work && Vanished(w, v, k) :: TerminalOf(w, k)
  }
}
