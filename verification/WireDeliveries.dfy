/** Staging, sequencing, acknowledging and cleaning durable deliveries, and unregistration. */
module WireDeliveries {
  import opened Wrappers
  import opened Sequences
  import opened WireTables
  import opened WireInvariant
  import opened WireSteps

  // ----- Staging -----

  lemma {:induction false} InsertDraftsEffect(drafts: map<DraftKey, string>, d: string, texts: seq<string>, n: nat, k: DraftKey)
    requires n <= |texts|
    ensures k in InsertDrafts(drafts, d, texts, n) <==> k in drafts || (k.deliveryId == d && k.ordinal < n)
    ensures k.deliveryId == d && k.ordinal < n ==> InsertDrafts(drafts, d, texts, n)[k] == texts[k.ordinal]
    ensures k.deliveryId != d && k in drafts ==> InsertDrafts(drafts, d, texts, n)[k] == drafts[k]
  {
    if n > 0 { InsertDraftsEffect(drafts, d, texts, n - 1, k); }
  }

  function NewPlan(w: Wire, rsid: string, d: string, texts: seq<string>, inboundSeq: Option<nat>): (v: Wire)
    requires texts != []
  {
    w.(plans := w.plans[d := Plan(rsid, inboundSeq, Pending, |texts| - 1, None)],
       drafts := InsertDrafts(w.drafts, d, texts, |texts|))
  }

  lemma NewPlanKeepsPlans(w: Wire, sent: map<string, seq<nat>>, rsid: string, d: string, texts: seq<string>, inboundSeq: Option<nat>)
    requires PlansInv(w, sent) && texts != [] && d !in w.plans
    ensures PlansInv(NewPlan(w, rsid, d, texts, inboundSeq), sent[d := []])
  {
    var v := NewPlan(w, rsid, d, texts, inboundSeq);
    forall k: DraftKey ensures k in v.drafts <==> k in w.drafts || (k.deliveryId == d && k.ordinal < |texts|) {
      InsertDraftsEffect(w.drafts, d, texts, |texts|, k);
    }
    forall e | e in v.plans ensures PlanInv(v, sent[d := []], e) {
      if e != d { assert PlanInv(w, sent, e); }
    }
  }

  lemma NewPlanKeepsTerminals(w: Wire, rsid: string, d: string, texts: seq<string>, inboundSeq: Option<nat>)
    requires TerminalsInv(w) && texts != [] && d !in w.plans
    ensures TerminalsInv(NewPlan(w, rsid, d, texts, inboundSeq))
  {
    var v := NewPlan(w, rsid, d, texts, inboundSeq);
    forall k, e | IsTerminal(v, k, e) ensures IsTerminal(w, k, e) {}
    forall k | k in v.outbox ensures exists e :: IsTerminal(v, k, e) {
      var e :| IsTerminal(w, k, e);
      assert IsTerminal(v, k, e);
    }
  }

  lemma NewPlanKeeps(w: Wire, h: Hist, rsid: string, d: string, texts: seq<string>, inboundSeq: Option<nat>)
    requires WireInv(w, h) && texts != [] && d !in w.plans
    ensures WireKept(w, NewPlan(w, rsid, d, texts, inboundSeq), h.(sent := h.sent[d := []]))
  {
    var v := NewPlan(w, rsid, d, texts, inboundSeq);
    NewPlanKeepsPlans(w, h.sent, rsid, d, texts, inboundSeq);
    NewPlanKeepsTerminals(w, rsid, d, texts, inboundSeq);
    RowsChangeCovers(w, v, h.retired);
    forall k | k in v.work ensures RowInv(v, k) && RowAdvances(w, v, k) { assert RowInv(w, k); }
  }

  lemma BindKeeps(w: Wire, h: Hist, rsid: string, inboundSeq: Option<nat>, d: string)
    requires WireInv(w, h) && BindOptional(w, rsid, inboundSeq, d).Success?
    requires d in w.plans && w.plans[d].rsid == rsid && w.plans[d].inboundSeq == inboundSeq
    ensures WireKept(w, BindOptional(w, rsid, inboundSeq, d).value, h)
    ensures BindOptional(w, rsid, inboundSeq, d).value.work.Keys == w.work.Keys
  {
    if inboundSeq.Some? && w.work[Slot(rsid, inboundSeq.value)].state.ReplyReady? {
      var k := Slot(rsid, inboundSeq.value);
      assert RowInv(w, k);
      SetRowKeeps(w, h, k, w.work[k].(state := DeliveryReady, deliveryId := Some(d)));
    } else {
      WireKeptRefl(w, h);
    }
  }

  function Staged(h: Hist, w: Wire, d: string): (next: Hist) {
    if d in w.plans then h else h.(sent := h.sent[d := []])
  }

  lemma StageKeeps(w: Wire, h: Hist, rsid: string, d: string, texts: seq<string>, inboundSeq: Option<nat>)
    requires WireInv(w, h) && StageDelivery(w, rsid, d, texts, inboundSeq).Success?
    ensures var v := StageDelivery(w, rsid, d, texts, inboundSeq).value;
            WireKept(w, v, Later(Staged(h, w, d), w, v))
  {
    var v := StageDelivery(w, rsid, d, texts, inboundSeq).value;
    var base := if d in w.plans then w else NewPlan(w, rsid, d, texts, inboundSeq);
    if d in w.plans {
      WireKeptRefl(w, h);
    } else {
      NewPlanKeeps(w, h, rsid, d, texts, inboundSeq);
    }
    BindKeeps(base, Staged(h, w, d), rsid, inboundSeq, d);
    WireAdvancesTransitive(w, base, v);
    NothingRetired(Staged(h, w, d), w, v);
  }

  // ----- Sequencing -----

  /** The state change of one consumed draft, after the sequence state was stored. */
  function Consumed(w: Wire, rsid: string, num: nat, k: DraftKey, carrier: Option<Carrier>): (v: Wire)
    requires k.deliveryId in w.plans
  {
    var p := w.plans[k.deliveryId];
    var sent := w.(drafts := w.drafts - {k});
    if k.ordinal != p.terminalOrdinal then sent
    else sent.(
      outbox := if carrier.Some? then w.outbox[Slot(rsid, num) := carrier.value] else w.outbox,
      plans := w.plans[k.deliveryId := p.(state := Queued, terminalSeq := Some(num))])
  }

  ghost predicate AllBelow(s: seq<nat>, num: nat) {
    forall i :: 0 <= i < |s| ==> s[i] < num
  }

  /** `num` is larger than every number given out before, and already counted in the state. */
  ghost predicate IsLatest(w: Wire, sent: map<string, seq<nat>>, rsid: string, num: nat) {
    && num <= Load(w, rsid).highestTx
    && forall d :: d in w.plans && w.plans[d].rsid == rsid && d in sent ==> AllBelow(sent[d], num)
  }

  lemma NextDraftIsFirstUnsent(w: Wire, sent: map<string, seq<nat>>, rsid: string, k: DraftKey, text: string)
    requires PlansInv(w, sent) && IsNextDraft(w, rsid, k, text)
    ensures |sent[k.deliveryId]| == k.ordinal
  {
    var d := k.deliveryId;
    assert PlanInv(w, sent, d);
    assert DraftKey(d, |sent[d]|) in w.drafts;
  }

  lemma ConsumedKeepsOwnPlan(w: Wire, sent: map<string, seq<nat>>, rsid: string, num: nat, k: DraftKey, carrier: Option<Carrier>)
    requires k.deliveryId in w.plans && PlanInv(w, sent, k.deliveryId) && w.plans[k.deliveryId].rsid == rsid
    requires w.plans[k.deliveryId].state.Pending? && |sent[k.deliveryId]| == k.ordinal
    requires AllBelow(sent[k.deliveryId], num) && num <= Load(w, rsid).highestTx
    ensures PlanInv(Consumed(w, rsid, num, k, carrier), sent[k.deliveryId := sent[k.deliveryId] + [num]], k.deliveryId)
  {
    var v := Consumed(w, rsid, num, k, carrier);
    var d := k.deliveryId;
    forall o: nat ensures DraftKey(d, o) in v.drafts <==> k.ordinal + 1 <= o <= w.plans[d].terminalOrdinal {
      assert DraftKey(d, o) in v.drafts <==> DraftKey(d, o) in w.drafts && o != k.ordinal;
    }
  }

  lemma ConsumedKeepsOtherPlan(w: Wire, sent: map<string, seq<nat>>, rsid: string, num: nat, k: DraftKey, carrier: Option<Carrier>, d: string)
    requires k.deliveryId in w.plans && k.deliveryId in sent && d in w.plans && d != k.deliveryId && PlanInv(w, sent, d)
    ensures PlanInv(Consumed(w, rsid, num, k, carrier), sent[k.deliveryId := sent[k.deliveryId] + [num]], d)
  {
  }

  lemma ConsumedKeepsPlans(w: Wire, sent: map<string, seq<nat>>, rsid: string, num: nat, k: DraftKey, text: string, carrier: Option<Carrier>)
    requires PlansInv(w, sent) && IsNextDraft(w, rsid, k, text) && IsLatest(w, sent, rsid, num)
    ensures PlansInv(Consumed(w, rsid, num, k, carrier), sent[k.deliveryId := sent[k.deliveryId] + [num]])
  {
    NextDraftIsFirstUnsent(w, sent, rsid, k, text);
    var v := Consumed(w, rsid, num, k, carrier);
    ConsumedKeepsOwnPlan(w, sent, rsid, num, k, carrier);
    forall d | d in v.plans && d != k.deliveryId
      ensures PlanInv(v, sent[k.deliveryId := sent[k.deliveryId] + [num]], d)
    {
      ConsumedKeepsOtherPlan(w, sent, rsid, num, k, carrier, d);
    }
  }

  lemma ConsumedKeepsTerminals(w: Wire, sent: map<string, seq<nat>>, rsid: string, num: nat, k: DraftKey, text: string, carrier: Option<Carrier>)
    requires PlansInv(w, sent) && TerminalsInv(w) && IsNextDraft(w, rsid, k, text) && IsLatest(w, sent, rsid, num)
    ensures TerminalsInv(Consumed(w, rsid, num, k, carrier))
  {
    var v := Consumed(w, rsid, num, k, carrier);
    if k.ordinal == w.plans[k.deliveryId].terminalOrdinal {
      assert IsTerminal(v, Slot(rsid, num), k.deliveryId);
      forall s, d | IsTerminal(v, s, d) && d != k.deliveryId ensures IsTerminal(w, s, d) && s != Slot(rsid, num) {
        assert PlanInv(w, sent, d);
      }
    } else {
      forall s, d | IsTerminal(v, s, d) ensures IsTerminal(w, s, d) {}
    }
    assert PlanInv(w, sent, k.deliveryId);
    forall s | s in v.outbox && s in w.outbox ensures exists d :: IsTerminal(v, s, d) {
      var d :| IsTerminal(w, s, d);
      assert IsTerminal(v, s, d);
    }
  }

  lemma ConsumedKeepsRows(w: Wire, rsid: string, num: nat, k: DraftKey, carrier: Option<Carrier>)
    requires RowsInv(w) && k.deliveryId in w.plans
    ensures RowsInv(Consumed(w, rsid, num, k, carrier)) && WireAdvances(w, Consumed(w, rsid, num, k, carrier))
  {
    var v := Consumed(w, rsid, num, k, carrier);
    forall r | r in v.work ensures RowInv(v, r) && RowAdvances(w, v, r) { assert RowInv(w, r); }
  }

  /** The parts of the invariant put together, for steps that keep the rows and the sequence states. */
  lemma PartsKeep(w: Wire, v: Wire, h: Hist, next: Hist)
    requires SeqsInv(w) && CoverInv(w, h.retired) && v.seqs == w.seqs && v.work == w.work && next.retired == h.retired
    requires RowsInv(v) && WireAdvances(w, v) && PlansInv(v, next.sent) && TerminalsInv(v)
    ensures WireKept(w, v, next)
  {
    RowsChangeCovers(w, v, h.retired);
  }

  lemma ConsumedFrame(w: Wire, rsid: string, num: nat, k: DraftKey, carrier: Option<Carrier>)
    requires k.deliveryId in w.plans
    ensures Consumed(w, rsid, num, k, carrier).seqs == w.seqs && Consumed(w, rsid, num, k, carrier).work == w.work
  {
  }

  lemma ConsumedKeeps(w: Wire, h: Hist, rsid: string, num: nat, k: DraftKey, text: string, carrier: Option<Carrier>)
    requires WireInv(w, h) && IsNextDraft(w, rsid, k, text) && IsLatest(w, h.sent, rsid, num) && k.deliveryId in h.sent
    ensures WireKept(w, Consumed(w, rsid, num, k, carrier), Sent(h, Some(k), num))
  {
    ConsumedKeepsPlans(w, h.sent, rsid, num, k, text, carrier);
    ConsumedKeepsTerminals(w, h.sent, rsid, num, k, text, carrier);
    ConsumedKeepsRows(w, rsid, num, k, carrier);
    ConsumedFrame(w, rsid, num, k, carrier);
    PartsKeep(w, Consumed(w, rsid, num, k, carrier), h, Sent(h, Some(k), num));
  }

  function Sent(h: Hist, draft: Option<DraftKey>, num: nat): (next: Hist) {
    if draft.Some? && draft.value.deliveryId in h.sent
    then h.(sent := h.sent[draft.value.deliveryId := h.sent[draft.value.deliveryId] + [num]]) else h
  }

  lemma QueueDataAdvances(s: SeqState, text: string)
    requires SeqInv(s) && QueueData(s, text).Some?
    ensures var (t, num) := QueueData(s, text).value;
            SeqAdvances(s, t) && t.lastRx == s.lastRx && t.lastPeerAck == s.lastPeerAck
            && num == s.highestTx + 1 && t.highestTx == num
  {
  }

  lemma StoreSeqKeepsDraft(w: Wire, h: Hist, rsid: string, s: SeqState, k: DraftKey, text: string)
    requires PlansInv(w, h.sent) && IsNextDraft(w, rsid, k, text)
    ensures IsNextDraft(StoreSeq(w, rsid, s), rsid, k, text)
    ensures StoreSeq(w, rsid, s).plans[k.deliveryId] == w.plans[k.deliveryId]
  {
    assert k.deliveryId !in RetiredPlans(w, rsid, s.lastPeerAck);
  }

  lemma StoreSeqLatest(w: Wire, h: Hist, rsid: string, s: SeqState)
    requires PlansInv(w, h.sent) && s.highestTx == Load(w, rsid).highestTx + 1
    ensures IsLatest(StoreSeq(w, rsid, s), h.sent, rsid, s.highestTx)
  {
    var v := StoreSeq(w, rsid, s);
    forall d | d in v.plans && v.plans[d].rsid == rsid && d in h.sent
      ensures AllBelow(h.sent[d], s.highestTx)
    {
      assert PlanInv(w, h.sent, d);
    }
  }

  lemma QueueIsStoreThenConsume(w: Wire, rsid: string, text: string, k: DraftKey, carrier: Option<Carrier>)
    requires QueueOutbound(w, rsid, text, Some(k), carrier).Success?
    ensures var (s, num) := QueueData(Load(w, rsid), text).value;
            && IsNextDraft(w, rsid, k, text)
            && k.deliveryId in StoreSeq(w, rsid, s).plans
            && QueueOutbound(w, rsid, text, Some(k), carrier).value
                 == (Consumed(StoreSeq(w, rsid, s), rsid, num, k, carrier), num)
  {
    var (s, num) := QueueData(Load(w, rsid), text).value;
    assert k.deliveryId !in RetiredPlans(w, rsid, s.lastPeerAck);
  }

  lemma StoredDraft(w: Wire, h: Hist, rsid: string, s: SeqState, text: string, k: DraftKey)
    requires WireInv(w, h) && SeqAdvances(Load(w, rsid), s) && s.lastRx == Load(w, rsid).lastRx
    requires s.highestTx == Load(w, rsid).highestTx + 1 && IsNextDraft(w, rsid, k, text)
    ensures var stored := StoreSeq(w, rsid, s);
            && WireKept(w, stored, Later(h, w, stored)) && k.deliveryId in h.sent
            && IsNextDraft(stored, rsid, k, text) && IsLatest(stored, h.sent, rsid, s.highestTx)
  {
    StoreWithKeeps(w, h, rsid, s, None);
    StoreSeqKeepsDraft(w, h, rsid, s, k, text);
    StoreSeqLatest(w, h, rsid, s);
    assert PlanInv(w, h.sent, k.deliveryId);
  }

  lemma ConsumeAfter(w: Wire, h: Hist, stored: Wire, rsid: string, num: nat, text: string, k: DraftKey, carrier: Option<Carrier>)
    requires RowsInv(w) && WireKept(w, stored, Later(h, w, stored)) && k.deliveryId in h.sent
    requires IsNextDraft(stored, rsid, k, text) && IsLatest(stored, h.sent, rsid, num)
    ensures var v := Consumed(stored, rsid, num, k, carrier);
            WireKept(w, v, Later(Sent(h, Some(k), num), w, v))
  {
    var v := Consumed(stored, rsid, num, k, carrier);
    ConsumedKeeps(stored, Later(h, w, stored), rsid, num, k, text, carrier);
    ConsumedFrame(stored, rsid, num, k, carrier);
    SameKeysRetireSame(h, w, stored, v);
    WireAdvancesTransitive(w, stored, v);
  }

  /** Every frame takes the number after all numbers given out before. */
  lemma QueueKeeps(w: Wire, h: Hist, rsid: string, text: string, draft: Option<DraftKey>, carrier: Option<Carrier>)
    requires WireInv(w, h) && QueueOutbound(w, rsid, text, draft, carrier).Success?
    ensures var (v, num) := QueueOutbound(w, rsid, text, draft, carrier).value;
            num == Load(w, rsid).highestTx + 1 && WireKept(w, v, Later(Sent(h, draft, num), w, v))
  {
    LoadInv(w, rsid);
    QueueDataAdvances(Load(w, rsid), text);
    var (s, num) := QueueData(Load(w, rsid), text).value;
    if draft.Some? {
      QueueIsStoreThenConsume(w, rsid, text, draft.value, carrier);
      StoredDraft(w, h, rsid, s, text, draft.value);
      ConsumeAfter(w, h, StoreSeq(w, rsid, s), rsid, num, text, draft.value, carrier);
    } else {
      StoreWithKeeps(w, h, rsid, s, None);
    }
  }

  lemma QueueNumber(w: Wire, rsid: string, text: string, draft: Option<DraftKey>, carrier: Option<Carrier>)
    requires QueueOutbound(w, rsid, text, draft, carrier).Success?
    ensures var (v, num) := QueueOutbound(w, rsid, text, draft, carrier).value; Load(v, rsid).highestTx == num
  {
    if draft.Some? { QueueIsStoreThenConsume(w, rsid, text, draft.value, carrier); }
  }

  // ----- Acknowledgement and clean-up -----

  lemma AcknowledgeKeeps(w: Wire, h: Hist, rsid: string, ack: nat)
    requires WireInv(w, h) && AcknowledgeOutbound(w, rsid, ack).Success?
    ensures var v := AcknowledgeOutbound(w, rsid, ack).value; WireKept(w, v, Later(h, w, v))
  {
    LoadInv(w, rsid);
    AckAdvances(Load(w, rsid), ack);
    StoreWithKeeps(w, h, rsid, ApplyAck(Load(w, rsid), ack).value, None);
  }

  lemma RowsFrame(w: Wire, v: Wire)
    requires RowsInv(w) && v.work == w.work && v.plans == w.plans && v.seqs == w.seqs
    ensures RowsInv(v) && forall i :: i in v.work ==> RowAdvances(w, v, i)
  {
    forall i | i in v.work ensures RowInv(v, i) && RowAdvances(w, v, i) { assert RowInv(w, i); }
  }

  lemma DropCarrierKeeps(w: Wire, h: Hist, k: Slot)
    requires WireInv(w, h)
    ensures WireKept(w, w.(outbox := w.outbox - {k}), h)
  {
    var v := w.(outbox := w.outbox - {k});
    PlansFrame(w, v, h.sent);
    TerminalsFrame(w, v);
    RowsChangeCovers(w, v, h.retired);
    RowsFrame(w, v);
  }

  /** The carrier of a stored delivery always has its plan: the other identity is never consulted. */
  lemma CleanedHasPlan(w: Wire, k: Slot)
    requires TerminalsInv(w) && k in w.outbox
    ensures PlansAt(w, k.rsid, k.num) != {}
  {
    var d :| IsTerminal(w, k, d);
    assert d in PlansAt(w, k.rsid, k.num);
  }

  lemma CleanedKeeps(w: Wire, h: Hist, k: Slot)
    requires WireInv(w, h) && k in w.outbox && k.num <= Load(w, k.rsid).lastPeerAck
    ensures MarkCleaned(w, k.rsid, k.num).Success?
    ensures var v := MarkCleaned(w, k.rsid, k.num).value; WireKept(w, v, Later(h, w, v))
  {
    CleanedHasPlan(w, k);
    var ids := PlansAt(w, k.rsid, k.num);
    var mid := w.(outbox := w.outbox - {k});
    DropCarrierKeeps(w, h, k);
    assert AllFinished(mid, k.rsid, ids);
    RemovePlansKeeps(mid, h, k.rsid, ids);
    var v := RemovePlans(mid, k.rsid, ids);
    assert v == MarkCleaned(w, k.rsid, k.num).value;
    RetireIgnoresKept(w, mid, v, h.retired);
    WireAdvancesTransitive(w, mid, v);
  }

  // ----- Unregistration -----

  lemma UnregistersKeep(w: Wire, v: Wire, h: Hist)
    requires WireInv(w, h) && v == w.(unregisters := v.unregisters)
    ensures WireKept(w, v, h)
  {
    PlansFrame(w, v, h.sent);
    TerminalsFrame(w, v);
    RowsChangeCovers(w, v, h.retired);
    RowsFrame(w, v);
  }

  function Forget(h: Hist, rsid: string): (next: Hist) {
    h.(retired := map k | k in h.retired && k.rsid != rsid :: h.retired[k])
  }

  lemma ConfirmKeepsPlans(w: Wire, sent: map<string, seq<nat>>, rsid: string)
    requires PlansInv(w, sent)
    ensures PlansInv(ConfirmUnregister(w, rsid), sent)
  {
    var v := ConfirmUnregister(w, rsid);
    forall d | d in v.plans ensures PlanInv(v, sent, d) { assert PlanInv(w, sent, d); }
  }

  lemma ConfirmKeepsTerminals(w: Wire, rsid: string)
    requires TerminalsInv(w)
    ensures TerminalsInv(ConfirmUnregister(w, rsid))
  {
    var v := ConfirmUnregister(w, rsid);
    forall k, d | IsTerminal(v, k, d) ensures IsTerminal(w, k, d) {}
    forall k | k in v.outbox ensures exists d :: IsTerminal(v, k, d) {
      var d :| IsTerminal(w, k, d);
      assert IsTerminal(v, k, d);
    }
  }

  lemma ConfirmKeepsRows(w: Wire, rsid: string)
    requires RowsInv(w)
    ensures RowsInv(ConfirmUnregister(w, rsid))
    ensures forall r :: r != rsid ==> SessionAdvances(w, ConfirmUnregister(w, rsid), r)
  {
    var v := ConfirmUnregister(w, rsid);
    forall k | k in v.work ensures RowInv(v, k) && RowAdvances(w, v, k) { assert RowInv(w, k); }
  }

  function Confirmed(h: Hist, w: Wire, rsid: string): (next: Hist) {
    if ConfirmUnregister(w, rsid) == w then h else Forget(h, rsid)
  }

  lemma ConfirmKeeps(w: Wire, h: Hist, rsid: string)
    requires WireInv(w, h)
    ensures WireInv(ConfirmUnregister(w, rsid), Confirmed(h, w, rsid))
    ensures forall r :: r != rsid ==> SessionAdvances(w, ConfirmUnregister(w, rsid), r)
  {
    var v := ConfirmUnregister(w, rsid);
    ConfirmKeepsPlans(w, h.sent, rsid);
    ConfirmKeepsTerminals(w, rsid);
    ConfirmKeepsRows(w, rsid);
    if v != w {
      var retired := Forget(h, rsid).retired;
      forall k: Slot | 1 <= k.num <= Load(v, k.rsid).lastRx ensures Covered(v, retired, k) {
        assert Covered(w, h.retired, k);
      }
    }
  }
}
