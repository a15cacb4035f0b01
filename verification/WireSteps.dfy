/** Every transaction on the wire tables keeps the invariant and only moves forward. */
module WireSteps {
  import opened Wrappers
  import opened Sequences
  import opened WireTables
  import opened WireInvariant

  ghost predicate WireKept(w: Wire, v: Wire, h: Hist) {
    WireInv(v, h) && WireAdvances(w, v)
  }

  lemma SessionAdvancesTransitive(u: Wire, v: Wire, w: Wire, r: string)
    requires RowsInv(u) && SessionAdvances(u, v, r) && SessionAdvances(v, w, r)
    ensures SessionAdvances(u, w, r)
  {
    forall k | k in w.work && k.rsid == r ensures RowAdvances(u, w, k) {
      assert RowAdvances(v, w, k);
      if k in v.work { assert RowAdvances(u, v, k); }
      if k in u.work { assert RowInv(u, k); }
    }
  }

  lemma WireAdvancesTransitive(u: Wire, v: Wire, w: Wire)
    requires RowsInv(u) && WireAdvances(u, v) && WireAdvances(v, w)
    ensures WireAdvances(u, w)
  {
    forall r ensures SessionAdvances(u, w, r) { SessionAdvancesTransitive(u, v, w, r); }
  }

  // ----- Rows -----

  ghost predicate RowsChange(w: Wire, v: Wire) {
    && v == w.(work := v.work) && v.work.Keys == w.work.Keys
    && forall k :: k in w.work ==> RowInv(v, k) && WorkMoves(w.work[k], v.work[k])
  }

  lemma PlanFrame(w: Wire, v: Wire, sent: map<string, seq<nat>>, d: string)
    requires d in w.plans && PlanInv(w, sent, d)
    requires v.plans == w.plans && v.drafts == w.drafts
    requires Load(w, w.plans[d].rsid).highestTx <= Load(v, w.plans[d].rsid).highestTx
    ensures PlanInv(v, sent, d)
  {
  }

  lemma PlansFrame(w: Wire, v: Wire, sent: map<string, seq<nat>>)
    requires PlansInv(w, sent) && v.plans == w.plans && v.drafts == w.drafts
    requires forall r :: Load(w, r).highestTx <= Load(v, r).highestTx
    ensures PlansInv(v, sent)
  {
    forall d | d in v.plans ensures PlanInv(v, sent, d) { PlanFrame(w, v, sent, d); }
  }

  lemma TerminalsFrame(w: Wire, v: Wire)
    requires TerminalsInv(w) && v.plans == w.plans && v.outbox.Keys <= w.outbox.Keys
    ensures TerminalsInv(v)
  {
    forall k, d | IsTerminal(v, k, d) ensures IsTerminal(w, k, d) {}
    forall k | k in v.outbox ensures exists d :: IsTerminal(v, k, d) {
      var d :| IsTerminal(w, k, d);
      assert IsTerminal(v, k, d);
    }
  }

  lemma RowsChangeCovers(w: Wire, v: Wire, retired: map<Slot, nat>)
    requires CoverInv(w, retired) && v.seqs == w.seqs && v.work.Keys == w.work.Keys
    ensures CoverInv(v, retired)
  {
    forall k: Slot | 1 <= k.num <= Load(v, k.rsid).lastRx ensures Covered(v, retired, k) {
      assert Covered(w, retired, k);
    }
  }

  lemma RowsChangeKeeps(w: Wire, v: Wire, h: Hist)
    requires WireInv(w, h) && RowsChange(w, v)
    ensures WireKept(w, v, h)
  {
    RowsChangeCovers(w, v, h.retired);
    PlansFrame(w, v, h.sent);
    TerminalsFrame(w, v);
    assert RowsInv(v);
    assert forall k :: k in v.work ==> RowAdvances(w, v, k);
  }

  lemma SupersedeKeeps(w: Wire, h: Hist, later: Slot)
    requires WireInv(w, h)
    ensures WireKept(w, Supersede(w, later), h)
  {
    var v := Supersede(w, later);
    forall k | k in w.work ensures RowInv(v, k) && WorkMoves(w.work[k], v.work[k]) { assert RowInv(w, k); }
    RowsChangeKeeps(w, v, h);
  }

  lemma CancelJournaledKeeps(w: Wire, h: Hist, rsid: string, invocationId: string)
    requires WireInv(w, h)
    ensures WireKept(w, CancelJournaled(w, rsid, invocationId), h)
  {
    var v := CancelJournaled(w, rsid, invocationId);
    forall k | k in w.work ensures RowInv(v, k) && WorkMoves(w.work[k], v.work[k]) { assert RowInv(w, k); }
    RowsChangeKeeps(w, v, h);
  }

  lemma SetRowKeeps(w: Wire, h: Hist, k: Slot, x: Work)
    requires WireInv(w, h) && k in w.work && WorkMoves(w.work[k], x)
    requires RowInv(w.(work := w.work[k := x]), k)
    ensures WireKept(w, w.(work := w.work[k := x]), h)
  {
    var v := w.(work := w.work[k := x]);
    assert v.work.Keys == w.work.Keys;
    forall i | i in w.work ensures RowInv(v, i) && WorkMoves(w.work[i], v.work[i]) { assert RowInv(w, i); }
    RowsChangeKeeps(w, v, h);
  }

  lemma WireKeptRefl(w: Wire, h: Hist)
    requires WireInv(w, h)
    ensures WireKept(w, w, h)
  {
    assert forall k :: k in w.work ==> RowInv(w, k);
    RowsChangeKeeps(w, w, h);
  }

  lemma StoreReplyKeeps(w: Wire, h: Hist, k: Slot, reply: string, supersede: bool)
    requires WireInv(w, h) && StoreReply(w, k, reply, supersede).Success?
    ensures WireKept(w, StoreReply(w, k, reply, supersede).value, h)
  {
    assert RowInv(w, k);
    if w.work[k].state.Journaled? {
      var base := if supersede then Supersede(w, k) else w;
      if supersede { SupersedeKeeps(w, h, k); } else { WireKeptRefl(w, h); }
      assert base.work[k] == w.work[k];
      SetRowKeeps(base, h, k, w.work[k].(state := ReplyReady, reply := Some(reply)));
      WireAdvancesTransitive(w, base, StoreReply(w, k, reply, supersede).value);
    } else {
      WireKeptRefl(w, h);
    }
  }

  lemma CompleteNoReplyKeeps(w: Wire, h: Hist, k: Slot)
    requires WireInv(w, h) && CompleteNoReply(w, k).Success?
    ensures WireKept(w, CompleteNoReply(w, k).value, h)
  {
    assert RowInv(w, k);
    if w.work[k].state.Journaled? {
      SetRowKeeps(w, h, k, w.work[k].(state := NoReply));
    } else {
      WireKeptRefl(w, h);
    }
  }

  // ----- Removing acknowledged plans -----

  ghost predicate Finished(w: Wire, rsid: string, d: string) {
    && d in w.plans && w.plans[d].rsid == rsid && w.plans[d].terminalSeq.Some?
    && w.plans[d].terminalSeq.value <= Load(w, rsid).lastPeerAck
    && Slot(rsid, w.plans[d].terminalSeq.value) !in w.outbox
  }

  ghost predicate AllFinished(w: Wire, rsid: string, gone: set<string>) {
    forall d :: d in gone ==> Finished(w, rsid, d)
  }

  lemma RemoveCovers(w: Wire, retired: map<Slot, nat>, rsid: string, gone: set<string>)
    requires RowsInv(w) && CoverInv(w, retired) && AllFinished(w, rsid, gone)
    ensures CoverInv(RemovePlans(w, rsid, gone), Retire(retired, w, RemovePlans(w, rsid, gone)))
  {
    var v := RemovePlans(w, rsid, gone);
    forall k: Slot | 1 <= k.num <= Load(v, k.rsid).lastRx ensures Covered(v, Retire(retired, w, v), k) {
      assert Covered(w, retired, k);
      if k in w.work && k !in v.work {
        assert RowInv(w, k) && Finished(w, rsid, w.work[k].deliveryId.value);
        assert HasTerminal(w, k);
      }
    }
  }

  lemma RemoveKeepsTerminals(w: Wire, rsid: string, gone: set<string>)
    requires TerminalsInv(w) && AllFinished(w, rsid, gone)
    ensures TerminalsInv(RemovePlans(w, rsid, gone))
  {
    var v := RemovePlans(w, rsid, gone);
    forall k, d | IsTerminal(v, k, d) ensures IsTerminal(w, k, d) {}
    forall k | k in v.outbox ensures exists d :: IsTerminal(v, k, d) {
      var d :| IsTerminal(w, k, d);
      assert d in gone ==> Finished(w, rsid, d);
      assert IsTerminal(v, k, d);
    }
  }

  lemma RemoveKeepsPlans(w: Wire, sent: map<string, seq<nat>>, rsid: string, gone: set<string>)
    requires PlansInv(w, sent)
    ensures PlansInv(RemovePlans(w, rsid, gone), sent)
  {
    var v := RemovePlans(w, rsid, gone);
    forall d | d in v.plans ensures PlanInv(v, sent, d) { assert PlanInv(w, sent, d); }
  }

  lemma RemoveKeepsRow(w: Wire, rsid: string, gone: set<string>, k: Slot)
    requires k in RemovePlans(w, rsid, gone).work && RowInv(w, k) && AllFinished(w, rsid, gone)
    ensures RowInv(RemovePlans(w, rsid, gone), k)
  {
    assert w.work[k].deliveryId.Some? && w.work[k].deliveryId.value in gone ==>
      Finished(w, rsid, w.work[k].deliveryId.value);
  }

  lemma RemovePlansKeeps(w: Wire, h: Hist, rsid: string, gone: set<string>)
    requires WireInv(w, h) && AllFinished(w, rsid, gone)
    ensures WireKept(w, RemovePlans(w, rsid, gone), h.(retired := Retire(h.retired, w, RemovePlans(w, rsid, gone))))
  {
    var v := RemovePlans(w, rsid, gone);
    RemoveCovers(w, h.retired, rsid, gone);
    RemoveKeepsPlans(w, h.sent, rsid, gone);
    RemoveKeepsTerminals(w, rsid, gone);
    forall k | k in v.work ensures RowInv(v, k) && RowAdvances(w, v, k) { RemoveKeepsRow(w, rsid, gone, k); }
  }

  // ----- Storing the sequence -----

  /** Replaces the sequence state of one session and, for new data, adds its row. */
  function Receive(w: Wire, r: string, s: SeqState, row: Option<Work>): (v: Wire) {
    w.(seqs := w.seqs[r := s],
       work := if row.Some? then w.work[Slot(r, s.lastRx) := row.value] else w.work)
  }

  ghost predicate Receivable(w: Wire, r: string, s: SeqState, row: Option<Work>) {
    && SeqAdvances(Load(w, r), s)
    && s.lastRx == Load(w, r).lastRx + (if row.Some? then 1 else 0)
    && (row.Some? ==>
          && row.value.deliveryId.None? && !row.value.state.DeliveryReady?
          && (row.value.reply.Some? <==> row.value.state.ReplyReady?))
  }

  lemma ReceiveKeepsRows(w: Wire, r: string, s: SeqState, row: Option<Work>)
    requires RowsInv(w) && Receivable(w, r, s, row)
    ensures RowsInv(Receive(w, r, s, row)) && WireAdvances(w, Receive(w, r, s, row))
  {
    var v := Receive(w, r, s, row);
    forall k | k in v.work ensures RowInv(v, k) && RowAdvances(w, v, k) {
      if k in w.work { assert RowInv(w, k); }
    }
  }

  lemma ReceiveCovers(w: Wire, retired: map<Slot, nat>, r: string, s: SeqState, row: Option<Work>)
    requires CoverInv(w, retired) && Receivable(w, r, s, row)
    ensures CoverInv(Receive(w, r, s, row), retired)
  {
    var v := Receive(w, r, s, row);
    forall k: Slot | 1 <= k.num <= Load(v, k.rsid).lastRx ensures Covered(v, retired, k) {
      if k.num <= Load(w, k.rsid).lastRx { assert Covered(w, retired, k); }
    }
  }

  lemma ReceiveKeeps(w: Wire, h: Hist, r: string, s: SeqState, row: Option<Work>)
    requires WireInv(w, h) && Receivable(w, r, s, row)
    ensures WireKept(w, Receive(w, r, s, row), h)
  {
    ReceiveKeepsRows(w, r, s, row);
    ReceiveCovers(w, h.retired, r, s, row);
    PlansFrame(w, Receive(w, r, s, row), h.sent);
    TerminalsFrame(w, Receive(w, r, s, row));
  }

  /** Storing a sequence state together with the clean-up it triggers. */
  function StoreWith(w: Wire, r: string, s: SeqState, row: Option<Work>): (v: Wire) {
    var stored := StoreSeq(w, r, s);
    if row.Some? then stored.(work := stored.work[Slot(r, s.lastRx) := row.value]) else stored
  }

  ghost predicate NewRow(w: Wire, r: string, s: SeqState, row: Option<Work>) {
    row.Some? ==> row.value.deliveryId.None? && Slot(r, s.lastRx) !in w.work
  }

  lemma StoreWithIsReceiveThenRemove(w: Wire, r: string, s: SeqState, row: Option<Work>, gone: set<string>)
    requires NewRow(w, r, s, row) && gone == RetiredPlans(w, r, s.lastPeerAck)
    ensures RemovePlans(Receive(w, r, s, row), r, gone) == StoreWith(w, r, s, row)
  {
    if row.Some? {
      assert RemovePlans(Receive(w, r, s, row), r, gone).work ==
        RemovePlans(w.(seqs := w.seqs[r := s]), r, gone).work[Slot(r, s.lastRx) := row.value];
    }
  }

  lemma RetireSame(retired: map<Slot, nat>, w: Wire, v: Wire, w2: Wire, v2: Wire)
    requires forall k :: Vanished(w, v, k) <==> Vanished(w2, v2, k)
    requires forall k :: Vanished(w, v, k) && Vanished(w2, v2, k) ==> TerminalOf(w, k) == TerminalOf(w2, k)
    ensures Retire(retired, w, v) == Retire(retired, w2, v2)
  {
    var a, b := Retire(retired, w, v), Retire(retired, w2, v2);
    assert a.Keys == b.Keys;
  }

  /** Rows of `mid` that `w` lacks and `v` still has leave no trace in the history. */
  lemma RetireIgnoresKept(w: Wire, mid: Wire, v: Wire, retired: map<Slot, nat>)
    requires mid.plans == w.plans
    requires forall k :: k in mid.work ==> k in v.work || (k in w.work && w.work[k] == mid.work[k])
    requires forall k :: k in w.work ==> k in mid.work && w.work[k] == mid.work[k]
    ensures Retire(retired, mid, v) == Retire(retired, w, v)
  {
    forall k ensures Vanished(mid, v, k) <==> Vanished(w, v, k) {}
    forall k | Vanished(w, v, k) ensures TerminalOf(mid, k) == TerminalOf(w, k) {}
    RetireSame(retired, mid, v, w, v);
  }

  lemma StoreWithKeeps(w: Wire, h: Hist, r: string, s: SeqState, row: Option<Work>)
    requires WireInv(w, h) && Receivable(w, r, s, row)
    ensures WireKept(w, StoreWith(w, r, s, row), h.(retired := Retire(h.retired, w, StoreWith(w, r, s, row))))
  {
    var mid := Receive(w, r, s, row);
    var gone := RetiredPlans(w, r, s.lastPeerAck);
    ReceiveKeeps(w, h, r, s, row);
    assert AllFinished(mid, r, gone);
    RemovePlansKeeps(mid, h, r, gone);
    assert Slot(r, s.lastRx) in w.work ==> RowInv(w, Slot(r, s.lastRx));
    StoreWithIsReceiveThenRemove(w, r, s, row, gone);
    RetireIgnoresKept(w, mid, RemovePlans(mid, r, gone), h.retired);
    WireAdvancesTransitive(w, mid, RemovePlans(mid, r, gone));
  }

  // ----- Arrivals -----

  function Later(h: Hist, w: Wire, v: Wire): (next: Hist) {
    h.(retired := Retire(h.retired, w, v))
  }

  lemma NothingRetired(h: Hist, w: Wire, v: Wire)
    requires w.work.Keys <= v.work.Keys
    ensures Later(h, w, v) == h
  {
    assert forall k :: !Vanished(w, v, k);
  }

  lemma SameKeysRetireSame(h: Hist, w: Wire, v: Wire, u: Wire)
    requires v.work.Keys == u.work.Keys
    ensures Later(h, w, v) == Later(h, w, u)
  {
    forall k ensures Vanished(w, v, k) <==> Vanished(w, u, k) { assert k in v.work.Keys <==> k in u.work.Keys; }
    RetireSame(h.retired, w, v, w, u);
  }

  lemma StoreReplyKeepsKeys(w: Wire, k: Slot, reply: string, supersede: bool)
    requires StoreReply(w, k, reply, supersede).Success?
    ensures StoreReply(w, k, reply, supersede).value.work.Keys == w.work.Keys
  {
  }

  lemma AckAdvances(s: SeqState, ack: nat)
    requires SeqInv(s) && ApplyAck(s, ack).Some?
    ensures SeqAdvances(s, ApplyAck(s, ack).value) && ApplyAck(s, ack).value.lastRx == s.lastRx
  {
  }

  lemma InboundAdvances(s: SeqState, e: Envelope)
    requires SeqInv(s)
    ensures match AcceptInbound(s, e)
            case InAccepted(t) => SeqAdvances(s, t) && t.lastRx == s.lastRx + 1 && e.num == t.lastRx
            case InDuplicate(t) => SeqAdvances(s, t) && t.lastRx == s.lastRx && 1 <= e.num <= s.lastRx
            case _ => true
  {
    if e.ack.Some? && ApplyAck(s, e.ack.value).Some? { AckAdvances(s, e.ack.value); }
  }

  lemma LoadInv(w: Wire, r: string)
    requires SeqsInv(w)
    ensures SeqInv(Load(w, r))
  {
  }

  lemma ArriveNewKeeps(w: Wire, h: Hist, e: Envelope, row: Work, supersede: bool, s: SeqState)
    requires WireInv(w, h) && AcceptInbound(Load(w, e.rsid), e) == InAccepted(s)
    requires row.deliveryId.None? && !row.state.DeliveryReady? && (row.reply.Some? <==> row.state.ReplyReady?)
    ensures var added := StoreWith(w, e.rsid, s, Some(row));
            var v := if supersede then Supersede(added, Slot(e.rsid, e.num)) else added;
            WireKept(w, v, Later(h, w, v))
  {
    LoadInv(w, e.rsid);
    InboundAdvances(Load(w, e.rsid), e);
    var added := StoreWith(w, e.rsid, s, Some(row));
    StoreWithKeeps(w, h, e.rsid, s, Some(row));
    if supersede {
      var v := Supersede(added, Slot(e.rsid, e.num));
      SupersedeKeeps(added, Later(h, w, added), Slot(e.rsid, e.num));
      WireAdvancesTransitive(w, added, v);
      SameKeysRetireSame(h, w, added, v);
    }
  }

  lemma ArriveAgainKeeps(w: Wire, h: Hist, e: Envelope, s: SeqState)
    requires WireInv(w, h) && AcceptInbound(Load(w, e.rsid), e) == InDuplicate(s)
    ensures var v := StoreSeq(w, e.rsid, s); WireKept(w, v, Later(h, w, v))
  {
    LoadInv(w, e.rsid);
    InboundAdvances(Load(w, e.rsid), e);
    StoreWithKeeps(w, h, e.rsid, s, None);
  }

  lemma ArriveKeeps(w: Wire, h: Hist, e: Envelope, correlation: string, context: string, state: WorkState,
                    reply: Option<string>, supersede: bool)
    requires WireInv(w, h) && Arrive(w, e, correlation, context, state, reply, supersede).Success?
    ensures var v := Arrive(w, e, correlation, context, state, reply, supersede).value.0;
            WireKept(w, v, Later(h, w, v))
  {
    var v := Arrive(w, e, correlation, context, state, reply, supersede).value.0;
    match AcceptInbound(Load(w, e.rsid), e)
    case InAccepted(s) =>
      LoadInv(w, e.rsid);
      InboundAdvances(Load(w, e.rsid), e);
      ArriveNewKeeps(w, h, e, Work(e.digest, e.kind, correlation, context, state, reply, None),
                     state.ReplyReady? && supersede, s);
    case InDuplicate(s) =>
      var stored := StoreSeq(w, e.rsid, s);
      ArriveAgainKeeps(w, h, e, s);
      if v != stored {
        var k := Slot(e.rsid, e.num);
        StoreReplyKeeps(stored, Later(h, w, stored), k, reply.value, supersede);
        StoreReplyKeepsKeys(stored, k, reply.value, supersede);
        WireAdvancesTransitive(w, stored, v);
        SameKeysRetireSame(h, w, stored, v);
      }
    case _ =>
      WireKeptRefl(w, h);
      NothingRetired(h, w, w);
  }
}
