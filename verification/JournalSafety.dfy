/** Safety of the journal over every run. */
module JournalSafety {
  import opened Wrappers
  import opened JournalRecords
  import opened SemanticTables
  import opened SemanticInvariant
  import opened SemanticSteps
  import opened Sequences
  import opened WireTables
  import WireInvariant
  import opened WireSteps
  import opened WireDeliveries
  import opened Journal
  import opened JournalSteps

  // ----- One operation -----

  lemma {:induction false} ClassifyBatchesKeep(s: Sem, ids: seq<string>)
    requires SemInv(s)
    ensures Kept(s, ClassifyBatches(s, ids).0)
  {
    if ids == [] {
      OneKeepsInvRefl(s);
    } else {
      ClassifyBatchesKeep(s, ids[..|ids| - 1]);
      var (mid, ok) := ClassifyBatches(s, ids[..|ids| - 1]);
      if ok && ClassifyBatch(mid, ids[|ids| - 1]).Success? {
        ClassifyBatchKeepsInv(mid, ids[|ids| - 1]);
        KeptTransitive(s, mid, ClassifyBatch(mid, ids[|ids| - 1]).value);
      }
    }
  }

  lemma {:induction false} ClassifyGroupsKeep(s: Sem, groups: seq<seq<Key>>)
    requires SemInv(s)
    ensures Kept(s, ClassifyGroups(s, groups).0)
  {
    if groups == [] {
      OneKeepsInvRefl(s);
    } else {
      ClassifyGroupsKeep(s, groups[..|groups| - 1]);
      var (mid, ok) := ClassifyGroups(s, groups[..|groups| - 1]);
      if ok && MarkIndeterminateMany(mid, groups[|groups| - 1]).Success? {
        IndeterminateKeepsInv(mid, groups[|groups| - 1]);
        KeptTransitive(s, mid, MarkIndeterminateMany(mid, groups[|groups| - 1]).value);
      }
    }
  }

  lemma RestartKeeps(s: Sem, ids: seq<string>, groups: seq<seq<Key>>)
    requires SemInv(s)
    ensures Kept(s, RestartSem(s, ids, groups).0)
  {
    OneKeepsInvRefl(s);
    ClassifyBatchesKeep(s, ids);
    var mid := ClassifyBatches(s, ids).0;
    ClassifyGroupsKeep(mid, groups);
    KeptTransitive(s, mid, ClassifyGroups(mid, groups).0);
  }

  lemma ExecSemKeeps(s: Sem, op: SemOp)
    requires SemInv(s) && ExecSem(s, op).Success?
    ensures Kept(s, ExecSem(s, op).value)
  {
    match op
    case RecordOutcomes(entries) => RecordTerminalsKeepsInv(s, entries);
    case RequestCancel(key) => CancelKeepsInv(s, key);
    case MarkUncertain(keys) => IndeterminateKeepsInv(s, keys);
    case MarkBatchUncertain(rsid, p) => AtomicIndeterminateKeepsInv(s, rsid, p);
    case CommitTerminal(rsid, id, digest, carrier, entries) => CommitKeepsInv(s, rsid, id, digest, carrier, entries);
    case CommitLate(rsid, id, digest, carrier, entries) => CommitLateKeepsInv(s, rsid, id, digest, carrier, entries);
    case AddEvidence(id, e) => EvidenceKeepsInv(s, id, e);
    case Resolve(id, x) => ResolveKeepsInv(s, id, x);
  }

  lemma ExecInvokeKeepsSem(t: Tables, d: Delivery, b: Binding)
    requires SemInv(t.sem) && ExecInvoke(t, d, b).Success?
    ensures SemStep(t.sem, ExecInvoke(t, d, b).value.0.sem, ExecInvoke(t, d, b).value.1)
  {
    OneKeepsInvRefl(t.sem);
    if AcceptInvocation(t.sem, b, d.identity, d.sorted).Success? {
      InvokeSends(t.sem, b, d.identity, d.sorted, d.cut);
    }
  }

  lemma ExecInvokeBatchKeepsSem(t: Tables, d: Delivery, p: BatchPayload)
    requires SemInv(t.sem) && ExecInvokeBatch(t, d, p).Success?
    ensures SemStep(t.sem, ExecInvokeBatch(t, d, p).value.0.sem, ExecInvokeBatch(t, d, p).value.1)
  {
    OneKeepsInvRefl(t.sem);
    if AcceptBatch(t.sem, d.env.rsid, p, d.identity, d.sorted).Success? {
      BatchSends(t.sem, d.env.rsid, p, d.identity, d.sorted, d.cut);
    }
  }

  lemma ExecCancelKeepsSem(t: Tables, d: Delivery, id: string)
    requires SemInv(t.sem) && ExecCancel(t, d, id).Success?
    ensures SemStep(t.sem, ExecCancel(t, d, id).value.0.sem, ExecCancel(t, d, id).value.1)
  {
    OneKeepsInvRefl(t.sem);
    var key := Key(d.env.rsid, id);
    if CancelInvocation(t.sem, key).Success? { CancelKeepsInv(t.sem, key); }
  }

  lemma ExecUnregisterKeepsSem(t: Tables, rsid: string, reason: string, keys: seq<Key>)
    requires SemInv(t.sem) && ExecUnregister(t, rsid, reason, keys).Success?
    ensures SemStep(t.sem, ExecUnregister(t, rsid, reason, keys).value.0.sem, [])
    ensures ExecUnregister(t, rsid, reason, keys).value.1 == []
  {
    UnregisterKeepsInv(t.sem, rsid, keys);
  }

  /** Every operation keeps the semantic invariant and sends only what it may send. */
  lemma ExecKeepsSem(t: Tables, op: Op)
    requires SemInv(t.sem) && Exec(t, op).Success?
    ensures SemStep(t.sem, Exec(t, op).value.0.sem, Exec(t, op).value.1)
  {
    match op
    case Invoke(d, b) => ExecInvokeKeepsSem(t, d, b);
    case InvokeBatch(d, p) => ExecInvokeBatchKeepsSem(t, d, p);
    case SendStep(b, identity, sent) => StepSends(t.sem, b, identity);
    case Cancel(d, id) => ExecCancelKeepsSem(t, d, id);
    case Unregister(rsid, reason, keys) => ExecUnregisterKeepsSem(t, rsid, reason, keys);
    case Restart(ids, groups) =>
      RestartKeeps(t.sem, ids, groups);
      Quietly(t.sem, RestartSem(t.sem, ids, groups).0);
    case OnSem(o) =>
      ExecSemKeeps(t.sem, o);
      Quietly(t.sem, ExecSem(t.sem, o).value);
    case OnWire(_) =>
      OneKeepsInvRefl(t.sem);
      Quietly(t.sem, t.sem);
  }

  ghost predicate WireStep(w: Wire, v: Wire, h: WireInvariant.Hist) {
    WireKept(w, v, Later(h, w, v))
  }

  lemma AfterArrival(w: Wire, mid: Wire, v: Wire, h: WireInvariant.Hist)
    requires WireInvariant.WireInv(w, h) && WireStep(w, mid, h)
    requires WireKept(mid, v, Later(h, w, mid)) && v.work.Keys == mid.work.Keys
    ensures WireStep(w, v, h)
  {
    WireAdvancesTransitive(w, mid, v);
    SameKeysRetireSame(h, w, mid, v);
  }

  /** How an inbound operation leaves the wire: as the arrival left it, or with one more row update. */
  datatype After = Plain | Replied(supersede: bool) | Dropped

  function Finish(w: Wire, d: Delivery, correlation: string, after: After): (v: Result<Wire>) {
    match after
    case Plain => Success(w)
    case Replied(supersede) => StoreReply(w, SlotOf(d.env), d.reply, supersede)
    case Dropped => Success(CancelJournaled(w, d.env.rsid, correlation))
  }

  ghost predicate Finishes(t: Wire, d: Delivery, correlation: string, v: Wire) {
    var arrived := Arrive(t, d.env, correlation, d.context, Journaled, None, false);
    arrived.Success? && exists after :: Finish(arrived.value.0, d, correlation, after) == Success(v)
  }

  lemma FinishKeeps(w: Wire, h: WireInvariant.Hist, d: Delivery, correlation: string, after: After)
    requires WireInvariant.WireInv(w, h) && Finish(w, d, correlation, after).Success?
    ensures WireKept(w, Finish(w, d, correlation, after).value, h)
    ensures Finish(w, d, correlation, after).value.work.Keys == w.work.Keys
  {
    match after
    case Plain => WireKeptRefl(w, h);
    case Replied(supersede) =>
      StoreReplyKeeps(w, h, SlotOf(d.env), d.reply, supersede);
      StoreReplyKeepsKeys(w, SlotOf(d.env), d.reply, supersede);
    case Dropped => CancelJournaledKeeps(w, h, d.env.rsid, correlation);
  }

  lemma FinishesKeeps(t: Wire, h: WireInvariant.Hist, d: Delivery, correlation: string, v: Wire)
    requires WireInvariant.WireInv(t, h) && Finishes(t, d, correlation, v)
    ensures WireStep(t, v, h)
  {
    ArriveKeeps(t, h, d.env, correlation, d.context, Journaled, None, false);
    var w := Arrive(t, d.env, correlation, d.context, Journaled, None, false).value.0;
    var after :| Finish(w, d, correlation, after) == Success(v);
    FinishKeeps(w, Later(h, t, w), d, correlation, after);
    AfterArrival(t, w, v, h);
  }

  lemma InvokeFinishes(t: Tables, d: Delivery, b: Binding)
    requires ExecInvoke(t, d, b).Success?
    ensures Finishes(t.wire, d, b.invocationId, ExecInvoke(t, d, b).value.0.wire)
  {
    var (w, arrival) := Arrive(t.wire, d.env, b.invocationId, d.context, Journaled, None, false).value;
    if TakesDecision(w, SlotOf(d.env), arrival, d.resume)
       && AnswersInvoke(AcceptInvocation(t.sem, b, d.identity, d.sorted).value.1) {
      var supersede := SupersedesInvoke(AcceptInvocation(t.sem, b, d.identity, d.sorted).value.1);
      assert Finish(w, d, b.invocationId, Replied(supersede)) == Success(ExecInvoke(t, d, b).value.0.wire);
    } else {
      assert Finish(w, d, b.invocationId, Plain) == Success(w);
    }
  }

  lemma InvokeBatchFinishes(t: Tables, d: Delivery, p: BatchPayload)
    requires ExecInvokeBatch(t, d, p).Success?
    ensures Finishes(t.wire, d, p.batchId, ExecInvokeBatch(t, d, p).value.0.wire)
  {
    var w := Arrive(t.wire, d.env, p.batchId, d.context, Journaled, None, false).value.0;
    if ExecInvokeBatch(t, d, p).value.0.wire == w {
      assert Finish(w, d, p.batchId, Plain) == Success(w);
    } else {
      assert Finish(w, d, p.batchId, Replied(false)) == Success(ExecInvokeBatch(t, d, p).value.0.wire);
    }
  }

  lemma CancelFinishes(t: Tables, d: Delivery, id: string)
    requires ExecCancel(t, d, id).Success?
    ensures Finishes(t.wire, d, id, ExecCancel(t, d, id).value.0.wire)
  {
    var w := Arrive(t.wire, d.env, id, d.context, Journaled, None, false).value.0;
    if ExecCancel(t, d, id).value.0.wire == w {
      assert Finish(w, d, id, Plain) == Success(w);
    } else {
      assert Finish(w, d, id, Dropped) == Success(ExecCancel(t, d, id).value.0.wire);
    }
  }

  lemma SameRows(w: Wire, v: Wire, h: WireInvariant.Hist)
    requires WireKept(w, v, h) && w.work.Keys == v.work.Keys
    ensures WireStep(w, v, h)
  {
    NothingRetired(h, w, v);
  }

  lemma AnswerKeeps(w: Wire, h: WireInvariant.Hist, k: Slot, reply: string, supersede: bool)
    requires WireInvariant.WireInv(w, h) && StoreReply(w, k, reply, supersede).Success?
    ensures WireStep(w, StoreReply(w, k, reply, supersede).value, h)
  {
    StoreReplyKeeps(w, h, k, reply, supersede);
    StoreReplyKeepsKeys(w, k, reply, supersede);
    SameRows(w, StoreReply(w, k, reply, supersede).value, h);
  }

  lemma SilenceKeeps(w: Wire, h: WireInvariant.Hist, k: Slot)
    requires WireInvariant.WireInv(w, h) && CompleteNoReply(w, k).Success?
    ensures WireStep(w, CompleteNoReply(w, k).value, h)
  {
    CompleteNoReplyKeeps(w, h, k);
    SameRows(w, CompleteNoReply(w, k).value, h);
  }

  lemma RowOpKeeps(w: Wire, h: WireInvariant.Hist, op: WireOp)
    requires WireInvariant.WireInv(w, h) && ExecWire(w, op).Success? && (op.AnswerRow? || op.SilenceRow? || op.Complete?)
    ensures WireStep(w, ExecWire(w, op).value, h)
  {
    match op
    case AnswerRow(k, reply, supersede) => AnswerKeeps(w, h, k, reply, supersede);
    case SilenceRow(k) => SilenceKeeps(w, h, k);
    case Complete(rsid) => IntentsKeepWire(w, CompleteUnregister(w, rsid), h);
  }

  lemma ExecWireKeeps(w: Wire, h: WireInvariant.Hist, op: WireOp)
    requires WireInvariant.WireInv(w, h) && ExecWire(w, op).Success? && !op.Confirm?
    ensures WireKept(w, ExecWire(w, op).value, RecordWire(h, w, ExecWire(w, op).value, op))
  {
    match op
    case TerminalReply(e, correlation, context, reply, supersede) =>
      ArriveKeeps(w, h, e, correlation, context, ReplyReady, Some(reply), supersede);
    case Coalesce(e, correlation, context) => ArriveKeeps(w, h, e, correlation, context, NoReply, None, false);
    case Observe(e) => ArriveAgainKeeps(w, h, e, AcceptInbound(Load(w, e.rsid), e).state);
    case AnswerRow(_, _, _) => RowOpKeeps(w, h, op);
    case SilenceRow(_) => RowOpKeeps(w, h, op);
    case Complete(_) => RowOpKeeps(w, h, op);
    case Stage(rsid, d, texts, inboundSeq) => StageKeeps(w, h, rsid, d, texts, inboundSeq);
    case Queue(rsid, text, draft, carrier) =>
      QueueKeeps(w, h, rsid, text, draft, carrier);
      QueueNumber(w, rsid, text, draft, carrier);
    case Acknowledge(rsid, ack) => AcknowledgeKeeps(w, h, rsid, ack);
    case Clean(k) => CleanedKeeps(w, h, k);
  }

  predicate IsInbound(op: Op) {
    op.Invoke? || op.InvokeBatch? || op.Cancel?
  }

  lemma InboundKeepsWire(t: Tables, h: WireInvariant.Hist, op: Op)
    requires WireInvariant.WireInv(t.wire, h) && IsInbound(op) && Exec(t, op).Success?
    ensures WireStep(t.wire, Exec(t, op).value.0.wire, h)
  {
    var v := Exec(t, op).value.0.wire;
    match op
    case Invoke(d, b) =>
      InvokeFinishes(t, d, b);
      FinishesKeeps(t.wire, h, d, b.invocationId, v);
    case InvokeBatch(d, p) =>
      InvokeBatchFinishes(t, d, p);
      FinishesKeeps(t.wire, h, d, p.batchId, v);
    case Cancel(d, id) =>
      CancelFinishes(t, d, id);
      FinishesKeeps(t.wire, h, d, id, v);
  }

  /** The other operations leave the wire tables alone, all but the unregister intents. */
  lemma OnlyIntents(t: Tables, op: Op)
    requires Exec(t, op).Success? && (op.SendStep? || op.Unregister? || op.Restart? || op.OnSem?)
    ensures Exec(t, op).value.0.wire == t.wire.(unregisters := Exec(t, op).value.0.wire.unregisters)
  {
  }

  lemma IntentsKeepWire(w: Wire, v: Wire, h: WireInvariant.Hist)
    requires WireInvariant.WireInv(w, h) && v == w.(unregisters := v.unregisters)
    ensures WireStep(w, v, h)
  {
    UnregistersKeep(w, v, h);
    SameRows(w, v, h);
  }

  lemma WireOpKeeps(w: Wire, h: WireInvariant.Hist, op: WireOp)
    requires WireInvariant.WireInv(w, h) && ExecWire(w, op).Success?
    ensures WireInvariant.WireInv(ExecWire(w, op).value, RecordWire(h, w, ExecWire(w, op).value, op))
    ensures forall r :: op != Confirm(r) ==> WireInvariant.SessionAdvances(w, ExecWire(w, op).value, r)
  {
    if op.Confirm? { ConfirmKeeps(w, h, op.rsid); } else { ExecWireKeeps(w, h, op); }
  }

  /** Every operation keeps the wire invariant; only a confirmed unregistration takes anything back. */
  lemma ExecKeepsWire(t: Tables, h: WireInvariant.Hist, op: Op)
    requires WireInvariant.WireInv(t.wire, h) && Exec(t, op).Success?
    ensures WireInvariant.WireInv(Exec(t, op).value.0.wire, RecordOp(h, t.wire, Exec(t, op).value.0.wire, op))
    ensures forall r :: op != OnWire(Confirm(r)) ==> WireInvariant.SessionAdvances(t.wire, Exec(t, op).value.0.wire, r)
  {
    if op.OnWire? {
      WireOpKeeps(t.wire, h, op.wireOp);
    } else if IsInbound(op) {
      InboundKeepsWire(t, h, op);
    } else {
      OnlyIntents(t, op);
      IntentsKeepWire(t.wire, Exec(t, op).value.0.wire, h);
    }
  }
}
