/** Durable deliveries over every run: ordered, lossless, removed only when finished. */
module JournalDeliveries {
  import opened Wrappers
  import opened Sequences
  import opened WireTables
  import opened WireInvariant
  import opened WireSteps
  import opened WireDeliveries
  import opened Journal
  import opened JournalSafety
  import opened JournalTheorems

  /** A plan keeps its shape and its terminal number, or leaves once that number is acknowledged. */
  ghost predicate PlanKept(w: Wire, v: Wire, d: string)
    requires d in w.plans
  {
    var p := w.plans[d];
    if d in v.plans then
      && v.plans[d].rsid == p.rsid && v.plans[d].inboundSeq == p.inboundSeq
      && v.plans[d].terminalOrdinal == p.terminalOrdinal
      && (p.terminalSeq.Some? ==> v.plans[d].terminalSeq == p.terminalSeq)
    else p.terminalSeq.Some? && p.terminalSeq.value <= Load(v, p.rsid).lastPeerAck
  }

  ghost predicate CarrierKept(w: Wire, v: Wire, k: Slot)
    requires k in w.outbox
  {
    if k in v.outbox then v.outbox[k] == w.outbox[k] else k.num <= Load(v, k.rsid).lastPeerAck
  }

  /** A stored draft keeps its text until it is given its number. */
  ghost predicate DraftKept(w: Wire, v: Wire, k: DraftKey)
    requires k in v.drafts
  {
    k.deliveryId in w.plans ==> k in w.drafts && w.drafts[k] == v.drafts[k]
  }

  ghost predicate DeliveriesKept(w: Wire, v: Wire) {
    && (forall d :: d in w.plans ==> PlanKept(w, v, d))
    && (forall k :: k in w.outbox ==> CarrierKept(w, v, k))
    && (forall k :: k in v.drafts ==> DraftKept(w, v, k))
  }

  lemma StoreSeqKeepsDeliveries(w: Wire, r: string, s: SeqState, v: Wire)
    requires var stored := StoreSeq(w, r, s);
             v.plans == stored.plans && v.outbox == stored.outbox && v.drafts == stored.drafts && v.seqs == stored.seqs
    ensures DeliveriesKept(w, v)
  {
  }

  lemma SameDeliveries(w: Wire, v: Wire)
    requires v.plans == w.plans && v.outbox == w.outbox && v.drafts == w.drafts
    ensures DeliveriesKept(w, v)
  {
  }

  lemma StoreReplyFrame(w: Wire, k: Slot, reply: string, supersede: bool)
    requires StoreReply(w, k, reply, supersede).Success?
    ensures StoreReply(w, k, reply, supersede).value == w.(work := StoreReply(w, k, reply, supersede).value.work)
  {
  }

  /** The wire after an arrival differs from the stored sequence state in its rows only. */
  lemma ArriveFrame(w: Wire, e: Envelope, correlation: string, context: string, state: WorkState,
                    reply: Option<string>, supersede: bool)
    requires Arrive(w, e, correlation, context, state, reply, supersede).Success?
    ensures var v := Arrive(w, e, correlation, context, state, reply, supersede).value.0;
            match AcceptInbound(Load(w, e.rsid), e)
            case InAccepted(s) => v == StoreSeq(w, e.rsid, s).(work := v.work)
            case InDuplicate(s) => v == StoreSeq(w, e.rsid, s).(work := v.work)
            case _ => v == w
  {
    match AcceptInbound(Load(w, e.rsid), e)
    case InDuplicate(s) =>
      var stored := StoreSeq(w, e.rsid, s);
      if reply.Some? && StoreReply(stored, Slot(e.rsid, e.num), reply.value, supersede).Success? {
        StoreReplyFrame(stored, Slot(e.rsid, e.num), reply.value, supersede);
      }
    case _ =>
  }

  lemma ArriveKeepsDeliveries(w: Wire, e: Envelope, correlation: string, context: string, state: WorkState,
                              reply: Option<string>, supersede: bool)
    requires Arrive(w, e, correlation, context, state, reply, supersede).Success?
    ensures DeliveriesKept(w, Arrive(w, e, correlation, context, state, reply, supersede).value.0)
  {
    var v := Arrive(w, e, correlation, context, state, reply, supersede).value.0;
    ArriveFrame(w, e, correlation, context, state, reply, supersede);
    match AcceptInbound(Load(w, e.rsid), e)
    case InAccepted(s) => StoreSeqKeepsDeliveries(w, e.rsid, s, v);
    case InDuplicate(s) => StoreSeqKeepsDeliveries(w, e.rsid, s, v);
    case _ => SameDeliveries(w, v);
  }

  lemma SameAfter(w: Wire, mid: Wire, v: Wire)
    requires DeliveriesKept(w, mid) && v == mid.(work := v.work)
    ensures DeliveriesKept(w, v)
  {
    forall d | d in w.plans ensures PlanKept(w, v, d) { assert PlanKept(w, mid, d); }
    forall k | k in w.outbox ensures CarrierKept(w, v, k) { assert CarrierKept(w, mid, k); }
    forall k | k in v.drafts ensures DraftKept(w, v, k) { assert DraftKept(w, mid, k); }
  }

  lemma NewPlanKeepsDeliveries(w: Wire, rsid: string, d: string, texts: seq<string>, inboundSeq: Option<nat>)
    requires texts != [] && d !in w.plans
    ensures DeliveriesKept(w, NewPlan(w, rsid, d, texts, inboundSeq))
  {
    var v := NewPlan(w, rsid, d, texts, inboundSeq);
    forall k | k in v.drafts ensures DraftKept(w, v, k) {
      InsertDraftsEffect(w.drafts, d, texts, |texts|, k);
    }
  }

  lemma BindFrame(w: Wire, rsid: string, inboundSeq: Option<nat>, d: string)
    requires BindOptional(w, rsid, inboundSeq, d).Success?
    ensures BindOptional(w, rsid, inboundSeq, d).value == w.(work := BindOptional(w, rsid, inboundSeq, d).value.work)
  {
  }

  lemma StageKeepsDeliveries(w: Wire, rsid: string, d: string, texts: seq<string>, inboundSeq: Option<nat>)
    requires StageDelivery(w, rsid, d, texts, inboundSeq).Success?
    ensures DeliveriesKept(w, StageDelivery(w, rsid, d, texts, inboundSeq).value)
  {
    var base := if d in w.plans then w else NewPlan(w, rsid, d, texts, inboundSeq);
    if d in w.plans { SameDeliveries(w, w); } else { NewPlanKeepsDeliveries(w, rsid, d, texts, inboundSeq); }
    BindFrame(base, rsid, inboundSeq, d);
    SameAfter(w, base, BindOptional(base, rsid, inboundSeq, d).value);
  }

  lemma ConsumedKeepsPlan(w: Wire, stored: Wire, rsid: string, num: nat, k: DraftKey, carrier: Option<Carrier>, d: string)
    requires d in w.plans && PlanKept(w, stored, d)
    requires k.deliveryId in stored.plans && stored.plans[k.deliveryId].terminalSeq.None?
    ensures PlanKept(w, Consumed(stored, rsid, num, k, carrier), d)
  {
  }

  lemma ConsumedKeepsCarrier(w: Wire, stored: Wire, rsid: string, num: nat, k: DraftKey, carrier: Option<Carrier>, i: Slot)
    requires i in w.outbox && CarrierKept(w, stored, i) && i != Slot(rsid, num) && k.deliveryId in stored.plans
    ensures CarrierKept(w, Consumed(stored, rsid, num, k, carrier), i)
  {
  }

  lemma ConsumedKeepsDeliveries(w: Wire, stored: Wire, rsid: string, num: nat, k: DraftKey, carrier: Option<Carrier>)
    requires DeliveriesKept(w, stored) && k.deliveryId in stored.plans && stored.plans[k.deliveryId].terminalSeq.None?
    requires Slot(rsid, num) !in w.outbox
    ensures DeliveriesKept(w, Consumed(stored, rsid, num, k, carrier))
  {
    var v := Consumed(stored, rsid, num, k, carrier);
    forall d | d in w.plans ensures PlanKept(w, v, d) { ConsumedKeepsPlan(w, stored, rsid, num, k, carrier, d); }
    forall i | i in w.outbox ensures CarrierKept(w, v, i) { ConsumedKeepsCarrier(w, stored, rsid, num, k, carrier, i); }
    forall i | i in v.drafts ensures DraftKept(w, v, i) { assert DraftKept(w, stored, i); }
  }

  lemma TerminalIsSent(w: Wire, h: Hist, k: Slot)
    requires WireInv(w, h) && k in w.outbox
    ensures k.num <= Load(w, k.rsid).highestTx
  {
    var d :| IsTerminal(w, k, d);
    assert PlanInv(w, h.sent, d);
  }

  lemma QueueKeepsDeliveries(w: Wire, h: Hist, rsid: string, text: string, draft: Option<DraftKey>, carrier: Option<Carrier>)
    requires WireInv(w, h) && QueueOutbound(w, rsid, text, draft, carrier).Success?
    ensures DeliveriesKept(w, QueueOutbound(w, rsid, text, draft, carrier).value.0)
  {
    LoadInv(w, rsid);
    QueueDataAdvances(Load(w, rsid), text);
    var (s, num) := QueueData(Load(w, rsid), text).value;
    var stored := StoreSeq(w, rsid, s);
    StoreSeqKeepsDeliveries(w, rsid, s, stored);
    if draft.Some? {
      QueueIsStoreThenConsume(w, rsid, text, draft.value, carrier);
      assert PlanInv(w, h.sent, draft.value.deliveryId);
      if Slot(rsid, num) in w.outbox { TerminalIsSent(w, h, Slot(rsid, num)); }
      ConsumedKeepsDeliveries(w, stored, rsid, num, draft.value, carrier);
    }
  }

  lemma CleanEffect(w: Wire, k: Slot)
    requires PlansAt(w, k.rsid, k.num) != {}
    ensures var r := MarkCleaned(w, k.rsid, k.num);
            && r.Success? && r.value.plans == w.plans - PlansAt(w, k.rsid, k.num)
            && r.value.outbox == w.outbox - {k} && r.value.seqs == w.seqs
            && forall i :: i in r.value.drafts ==> i in w.drafts && r.value.drafts[i] == w.drafts[i]
  {
  }

  lemma CleanedIsKept(w: Wire, v: Wire, k: Slot)
    requires k.num <= Load(w, k.rsid).lastPeerAck && v.seqs == w.seqs
    requires v.plans == w.plans - PlansAt(w, k.rsid, k.num) && v.outbox == w.outbox - {k}
    requires forall i :: i in v.drafts ==> i in w.drafts && v.drafts[i] == w.drafts[i]
    ensures DeliveriesKept(w, v)
  {
    forall d | d in w.plans ensures PlanKept(w, v, d) { assert d in v.plans || d in PlansAt(w, k.rsid, k.num); }
  }

  lemma CleanKeepsDeliveries(w: Wire, h: Hist, k: Slot)
    requires TerminalsInv(w) && k in w.outbox && k.num <= Load(w, k.rsid).lastPeerAck
    ensures MarkCleaned(w, k.rsid, k.num).Success? && DeliveriesKept(w, MarkCleaned(w, k.rsid, k.num).value)
  {
    CleanedHasPlan(w, k);
    CleanEffect(w, k);
    CleanedIsKept(w, MarkCleaned(w, k.rsid, k.num).value, k);
  }

  lemma FinishFrame(w: Wire, d: Delivery, correlation: string, after: After)
    requires Finish(w, d, correlation, after).Success?
    ensures Finish(w, d, correlation, after).value == w.(work := Finish(w, d, correlation, after).value.work)
  {
    if after.Replied? { StoreReplyFrame(w, SlotOf(d.env), d.reply, after.supersede); }
  }

  lemma RowOpKeepsDeliveries(w: Wire, op: WireOp)
    requires ExecWire(w, op).Success? && (op.AnswerRow? || op.SilenceRow? || op.Complete?)
    ensures DeliveriesKept(w, ExecWire(w, op).value)
  {
    if op.AnswerRow? { StoreReplyFrame(w, op.slot, op.reply, op.supersede); }
    SameDeliveries(w, ExecWire(w, op).value);
  }

  lemma SequenceOpKeepsDeliveries(w: Wire, op: WireOp)
    requires ExecWire(w, op).Success? && (op.Observe? || op.Acknowledge?)
    ensures DeliveriesKept(w, ExecWire(w, op).value)
  {
    var v := ExecWire(w, op).value;
    if op.Observe? {
      StoreSeqKeepsDeliveries(w, op.env.rsid, AcceptInbound(Load(w, op.env.rsid), op.env).state, v);
    } else {
      StoreSeqKeepsDeliveries(w, op.rsid, ApplyAck(Load(w, op.rsid), op.ack).value, v);
    }
  }

  lemma ExecWireKeepsDeliveries(w: Wire, h: Hist, op: WireOp)
    requires WireInv(w, h) && ExecWire(w, op).Success? && !op.Confirm?
    ensures DeliveriesKept(w, ExecWire(w, op).value)
  {
    match op
    case TerminalReply(e, correlation, context, reply, supersede) =>
      ArriveKeepsDeliveries(w, e, correlation, context, ReplyReady, Some(reply), supersede);
    case Coalesce(e, correlation, context) => ArriveKeepsDeliveries(w, e, correlation, context, NoReply, None, false);
    case Stage(rsid, d, texts, inboundSeq) => StageKeepsDeliveries(w, rsid, d, texts, inboundSeq);
    case Queue(rsid, text, draft, carrier) => QueueKeepsDeliveries(w, h, rsid, text, draft, carrier);
    case Clean(k) => CleanKeepsDeliveries(w, h, k);
    case Observe(_) => SequenceOpKeepsDeliveries(w, op);
    case Acknowledge(_, _) => SequenceOpKeepsDeliveries(w, op);
    case _ => RowOpKeepsDeliveries(w, op);
  }

  lemma FinishesKeepsDeliveries(t: Wire, d: Delivery, correlation: string, v: Wire)
    requires Finishes(t, d, correlation, v)
    ensures DeliveriesKept(t, v)
  {
    ArriveKeepsDeliveries(t, d.env, correlation, d.context, Journaled, None, false);
    var w := Arrive(t, d.env, correlation, d.context, Journaled, None, false).value.0;
    var after :| Finish(w, d, correlation, after) == Success(v);
    FinishFrame(w, d, correlation, after);
    SameAfter(t, w, v);
  }

  lemma InboundKeepsDeliveries(t: Tables, op: Op)
    requires IsInbound(op) && Exec(t, op).Success?
    ensures DeliveriesKept(t.wire, Exec(t, op).value.0.wire)
  {
    match op
    case Invoke(d, b) =>
      InvokeFinishes(t, d, b);
      FinishesKeepsDeliveries(t.wire, d, b.invocationId, ExecInvoke(t, d, b).value.0.wire);
    case InvokeBatch(d, p) =>
      InvokeBatchFinishes(t, d, p);
      FinishesKeepsDeliveries(t.wire, d, p.batchId, ExecInvokeBatch(t, d, p).value.0.wire);
    case Cancel(d, id) =>
      CancelFinishes(t, d, id);
      FinishesKeepsDeliveries(t.wire, d, id, ExecCancel(t, d, id).value.0.wire);
  }

  lemma ExecKeepsDeliveries(t: Tables, h: Hist, op: Op)
    requires WireInv(t.wire, h) && Exec(t, op).Success? && !(op.OnWire? && op.wireOp.Confirm?)
    ensures DeliveriesKept(t.wire, Exec(t, op).value.0.wire)
  {
    if op.OnWire? {
      ExecWireKeepsDeliveries(t.wire, h, op.wireOp);
    } else if IsInbound(op) {
      InboundKeepsDeliveries(t, op);
    } else {
      OnlyIntents(t, op);
      SameDeliveries(t.wire, Exec(t, op).value.0.wire);
    }
  }

  // ----- Theorems -----

  ghost predicate OthersKept(w: Wire, v: Wire, rsid: string) {
    && (forall d :: d in w.plans && w.plans[d].rsid != rsid ==> d in v.plans && v.plans[d] == w.plans[d])
    && (forall k :: k in w.outbox && k.rsid != rsid ==> k in v.outbox && v.outbox[k] == w.outbox[k])
  }

  lemma ConfirmKeepsOthers(w: Wire, rsid: string)
    ensures OthersKept(w, ConfirmUnregister(w, rsid), rsid)
  {
  }

  lemma StepIsExec(st: State, op: Op)
    ensures Exec(st.tables, op).Success? ==> Step(st, op).tables == Exec(st.tables, op).value.0
    ensures Exec(st.tables, op).Throw? ==> Step(st, op) == st
  {
  }

  lemma ConfirmStep(t: Tables, rsid: string)
    ensures var r := Exec(t, OnWire(Confirm(rsid))); r.Success? && OthersKept(t.wire, r.value.0.wire, rsid)
  {
    ConfirmKeepsOthers(t.wire, rsid);
  }

  lemma StepKeepsDeliveries(st: State, op: Op)
    requires WireInv(st.tables.wire, st.hist)
    ensures var w, v := st.tables.wire, Step(st, op).tables.wire;
            if op.OnWire? && op.wireOp.Confirm? then OthersKept(w, v, op.wireOp.rsid) else DeliveriesKept(w, v)
  {
    StepIsExec(st, op);
    if op.OnWire? && op.wireOp.Confirm? {
      ConfirmStep(st.tables, op.wireOp.rsid);
    } else if Exec(st.tables, op).Success? {
      ExecKeepsDeliveries(st.tables, st.hist, op);
    } else {
      SameDeliveries(st.tables.wire, st.tables.wire);
    }
  }

  /**
   A plan and its carrier leave only when the peer has acknowledged the terminal
   number, or when the session's unregistration is confirmed.
   */
  lemma DeliveryLeavesOnlyWhenFinished(ops: seq<Op>, op: Op)
    ensures var w, v := Run(ops).tables.wire, Step(Run(ops), op).tables.wire;
            if op.OnWire? && op.wireOp.Confirm? then OthersKept(w, v, op.wireOp.rsid) else DeliveriesKept(w, v)
  {
    RunKeeps(ops);
    StepKeepsDeliveries(Run(ops), op);
  }

  /** At every point the unsent drafts are exactly a suffix, and numbers follow the ordinals. */
  lemma UnsentDraftsAreSuffix(ops: seq<Op>, d: string)
    requires d in Run(ops).tables.wire.plans
    ensures d in Run(ops).hist.sent
    ensures var w, numbers := Run(ops).tables.wire, Run(ops).hist.sent[d];
            var p := w.plans[d];
            && (forall o: nat :: DraftKey(d, o) in w.drafts <==> |numbers| <= o <= p.terminalOrdinal)
            && (p.state.Pending? <==> exists o: nat :: DraftKey(d, o) in w.drafts)
            && (forall i, j :: 0 <= i < j < |numbers| ==> numbers[i] < numbers[j])
            && (p.state.Queued? ==> |numbers| == p.terminalOrdinal + 1 && p.terminalSeq == Some(numbers[p.terminalOrdinal]))
  {
    RunKeeps(ops);
    var w, numbers := Run(ops).tables.wire, Run(ops).hist.sent[d];
    assert PlanInv(w, Run(ops).hist.sent, d);
    if w.plans[d].state.Pending? { assert DraftKey(d, |numbers|) in w.drafts; }
  }

  lemma QueueTakesNextDraft(w: Wire, h: Hist, rsid: string, text: string, k: DraftKey, carrier: Option<Carrier>)
    requires PlansInv(w, h.sent) && SeqsInv(w) && QueueOutbound(w, rsid, text, Some(k), carrier).Success?
    ensures k in w.drafts && w.drafts[k] == text && k.deliveryId in h.sent && |h.sent[k.deliveryId]| == k.ordinal
    ensures var (v, num) := QueueOutbound(w, rsid, text, Some(k), carrier).value;
            && v.drafts.Keys == w.drafts.Keys - {k} && num == Load(w, rsid).highestTx + 1 && Load(v, rsid).highestTx == num
  {
    LoadInv(w, rsid);
    QueueDataAdvances(Load(w, rsid), text);
    QueueNumber(w, rsid, text, Some(k), carrier);
    QueueIsStoreThenConsume(w, rsid, text, k, carrier);
    NextDraftIsFirstUnsent(w, h.sent, rsid, k, text);
    assert PlanInv(w, h.sent, k.deliveryId);
    StoringKeepsDrafts(w, h, rsid, QueueData(Load(w, rsid), text).value.0);
  }

  /** Draft `k` is the next ordinal, gets the next number, and is the only draft that goes. */
  ghost predicate SendsDraft(w: Wire, h: Hist, v: Wire, next: Hist, rsid: string, text: string, k: DraftKey) {
    && k in w.drafts && w.drafts[k] == text
    && k.deliveryId in h.sent && |h.sent[k.deliveryId]| == k.ordinal
    && next.sent == h.sent[k.deliveryId := h.sent[k.deliveryId] + [Load(w, rsid).highestTx + 1]]
    && v.drafts.Keys == w.drafts.Keys - {k}
  }

  lemma QueueSendsDraft(w: Wire, h: Hist, rsid: string, text: string, k: DraftKey, carrier: Option<Carrier>)
    requires PlansInv(w, h.sent) && SeqsInv(w) && QueueOutbound(w, rsid, text, Some(k), carrier).Success?
    ensures var v := QueueOutbound(w, rsid, text, Some(k), carrier).value.0;
            SendsDraft(w, h, v, RecordWire(h, w, v, Queue(rsid, text, Some(k), carrier)), rsid, text, k)
  {
    QueueTakesNextDraft(w, h, rsid, text, k, carrier);
  }

  /** In every run, queueing a draft sends exactly the next one. */
  lemma DraftSentOnce(ops: seq<Op>, rsid: string, text: string, k: DraftKey, carrier: Option<Carrier>)
    requires Exec(Run(ops).tables, OnWire(Queue(rsid, text, Some(k), carrier))).Success?
    ensures var st, next := Run(ops), Step(Run(ops), OnWire(Queue(rsid, text, Some(k), carrier)));
            SendsDraft(st.tables.wire, st.hist, next.tables.wire, next.hist, rsid, text, k)
  {
    StepQueue(Run(ops), rsid, text, k, carrier);
    RunKeeps(ops);
    QueueSendsDraft(Run(ops).tables.wire, Run(ops).hist, rsid, text, k, carrier);
  }

  lemma StepQueue(st: State, rsid: string, text: string, k: DraftKey, carrier: Option<Carrier>)
    requires Exec(st.tables, OnWire(Queue(rsid, text, Some(k), carrier))).Success?
    ensures QueueOutbound(st.tables.wire, rsid, text, Some(k), carrier).Success?
    ensures var v := QueueOutbound(st.tables.wire, rsid, text, Some(k), carrier).value.0;
            var op := Queue(rsid, text, Some(k), carrier);
            Step(st, OnWire(op)).tables.wire == v && Step(st, OnWire(op)).hist == RecordWire(st.hist, st.tables.wire, v, op)
  {
  }

  /** Plans that clean-up removes have no drafts left. */
  lemma StoringKeepsDrafts(w: Wire, h: Hist, rsid: string, s: SeqState)
    requires PlansInv(w, h.sent)
    ensures StoreSeq(w, rsid, s).drafts == w.drafts
  {
    forall k | k in w.drafts ensures k.deliveryId !in RetiredPlans(w, rsid, s.lastPeerAck) {
      assert PlanInv(w, h.sent, k.deliveryId);
      assert DraftKey(k.deliveryId, k.ordinal) in w.drafts;
    }
  }
}
