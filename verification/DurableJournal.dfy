/**
 The journal object (packages/bridge-simulator/src/journal.ts): its tables are fields that the
 methods change in place.  A method that throws puts back what it had changed, as `#durable` does.
 */
module DurableJournal {
  import opened Wrappers
  import opened JournalRecords
  import opened MutationHolds
  import opened SemanticTables
  import opened SemanticInvariant
  import opened SemanticSteps
  import opened Sequences
  import opened WireTables
  import WireInvariant
  import opened WireSteps
  import opened WireDeliveries
  import opened Journal
  import opened JournalSafety
  import opened JournalRestart

  class DurableBridgeJournal {
    var records: Records
    var ledger: Ledger
    var batches: map<string, Batch>
    var wire: Wire
    ghost var hist: WireInvariant.Hist

    ghost function Semantics(): (s: Sem)
      reads this
    {
      Sem(records, ledger, batches)
    }

    ghost predicate Valid()
      reads this
    {
      SemInv(Semantics()) && WireInvariant.WireInv(wire, hist)
    }

    constructor ()
      ensures Valid() && Tables(Semantics(), wire) == INIT.tables
    {
      records, ledger, batches := map[], Ledger([], map[]), map[];
      wire := Wire(map[], map[], map[], map[], map[], map[]);
      hist := WireInvariant.Hist(map[], map[]);
    }

    // ----- Outcomes -----

    method RecordTerminals(entries: seq<(Key, Outcome)>) returns (ok: bool)
      requires Valid()
      modifies this`records
      ensures Valid()
      ensures ok == SemanticTables.RecordTerminals(old(Semantics()), entries).Success?
      ensures Semantics() == if ok then SemanticTables.RecordTerminals(old(Semantics()), entries).value else old(Semantics())
    {
      var saved := records;
      var i := 0;
      while i < |entries|
        invariant i <= |entries| && RecordAll(saved, entries[..i]) == Success(records)
      {
        var (k, outcome) := entries[i];
        assert entries[..i + 1][..i] == entries[..i];
        var next := if k in records then RecordTerminal(records[k], outcome) else Throw;
        if next.Throw? {
          RecordAllStops(saved, entries, i + 1);
          records := saved;
          return false;
        }
        records := records[k := next.value];
        i := i + 1;
      }
      assert entries[..i] == entries;
      RecordTerminalsKeepsInv(old(Semantics()), entries);
      return true;
    }

    // ----- Promotion -----

    method CollectUncertain(keys: seq<Key>) returns (uncertain: seq<Uncertain>)
      requires AllPresent(records, keys)
      ensures uncertain == UncertainOf(records, keys)
    {
      uncertain := [];
      var i := 0;
      while i < |keys|
        invariant i <= |keys| && uncertain == UncertainOf(records, keys[..i])
      {
        var r := records[keys[i]];
        assert keys[..i + 1][..i] == keys[..i];
        if r.binding.mutating && r.binding.scope.Some? {
          uncertain := uncertain + [Uncertain(keys[i], r.binding.scope.value)];
        }
        i := i + 1;
      }
      assert keys[..i] == keys;
    }

    method MarkEach(keys: seq<Key>, holds: seq<HoldId>) returns (ok: bool)
      requires AllPresent(records, keys)
      modifies this`records
      ensures ok == MarkAll(old(records), keys, holds).Success?
      ensures records == if ok then MarkAll(old(records), keys, holds).value else old(records)
    {
      var saved := records;
      var i := 0;
      while i < |keys|
        invariant i <= |keys| && MarkAll(saved, keys[..i], holds) == Success(records)
      {
        var k := keys[i];
        assert keys[..i + 1][..i] == keys[..i];
        var next := MarkIndeterminate(saved[k], HoldOf(saved, holds, k));
        if next.Throw? {
          MarkAllStops(saved, keys, holds, i + 1);
          records := saved;
          return false;
        }
        records := records[k := next.value];
        i := i + 1;
      }
      assert keys[..i] == keys;
      return true;
    }

    /** Installs the holds, then marks the records; both or neither. */
    method PromoteAll(rsid: string, keys: seq<Key>) returns (ok: bool)
      requires AllPresent(records, keys)
      modifies this`records, this`ledger
      ensures ok == Promote(old(Semantics()), rsid, keys).Success?
      ensures Semantics() == if ok then Promote(old(Semantics()), rsid, keys).value else old(Semantics())
    {
      var uncertain := CollectUncertain(keys);
      var covered := CoverUncertain(ledger, rsid, uncertain);
      if covered.Throw? { return false; }
      var saved := ledger;
      ledger := covered.value.0;
      ok := MarkEach(keys, covered.value.1);
      if !ok { ledger := saved; }
    }

    /** Holds and indeterminate records are written together, or neither is. */
    method MarkIndeterminateMany(keys: seq<Key>) returns (ok: bool)
      requires Valid()
      modifies this`records, this`ledger
      ensures Valid()
      ensures ok == SemanticTables.MarkIndeterminateMany(old(Semantics()), keys).Success?
      ensures Semantics() == if ok then SemanticTables.MarkIndeterminateMany(old(Semantics()), keys).value else old(Semantics())
    {
      if keys == [] { return true; }
      if !AllPresent(records, keys) { return false; }
      if forall i :: 0 <= i < |keys| ==> records[keys[i]].state.Indeterminate? { return true; }
      if exists i :: 0 <= i < |keys| && keys[i].rsid != keys[0].rsid { return false; }
      ghost var before := Semantics();
      ok := PromoteAll(keys[0].rsid, keys);
      if ok { IndeterminateKeepsInv(before, keys); }
    }

    // ----- Restart -----

    /** Groups the interrupted mutations by session, in the order the table lists its rows. */
    method GroupInterrupted(listing: seq<Key>) returns (groups: seq<seq<Key>>)
      requires NoDuplicates(listing) && forall k :: k in listing <==> k in records
      ensures groups == InterruptedGroups(records, listing) && ListsInterrupted(records, groups)
    {
      groups := [];
      var i := 0;
      while i < |listing|
        invariant i <= |listing| && groups == InterruptedGroups(records, listing[..i])
      {
        assert listing[..i + 1][..i] == listing[..i];
        if Interrupted(records[listing[i]]) { groups := AddToSession(groups, listing[i]); }
        i := i + 1;
      }
      assert listing[..i] == listing;
      GroupsListInterrupted(records, listing);
    }

    /** One transaction per session; a throw ends the classification and keeps what was committed. */
    method ClassifySessions(groups: seq<seq<Key>>) returns (ok: bool)
      requires Valid()
      modifies this`records, this`ledger
      ensures Valid() && (Semantics(), ok) == ClassifyGroups(old(Semantics()), groups)
    {
      ghost var before := Semantics();
      var i := 0;
      while i < |groups|
        invariant i <= |groups| && Valid() && ClassifyGroups(before, groups[..i]) == (Semantics(), true)
      {
        assert groups[..i + 1][..i] == groups[..i];
        var marked := MarkIndeterminateMany(groups[i]);
        if !marked {
          ClassifyGroupsStops(before, groups, i + 1);
          return false;
        }
        i := i + 1;
      }
      assert groups[..i] == groups;
      return true;
    }

    /**
     The second half of the constructor's classification.  When no session throws, no possibly
     dispatched mutation is left open.
     */
    method ClassifyInterruptedMutations(listing: seq<Key>) returns (ok: bool)
      requires Valid() && NoDuplicates(listing) && forall k :: k in listing <==> k in records
      modifies this`records, this`ledger
      ensures Valid() && (Semantics(), ok) == ClassifyGroups(old(Semantics()), InterruptedGroups(old(records), listing))
      ensures ok ==> forall k :: !IsInterrupted(records, k)
    {
      ghost var before := Semantics();
      var groups := GroupInterrupted(listing);
      ok := ClassifySessions(groups);
      if ok { GroupsLeaveNone(before, groups); }
    }

    // ----- Atomic dispatch -----

    method ClaimEachStep(rsid: string, p: BatchPayload) returns (ok: bool)
      modifies this`records
      ensures ok == ClaimSteps(old(records), rsid, p, |p.steps|).Success?
      ensures records == if ok then ClaimSteps(old(records), rsid, p, |p.steps|).value else old(records)
    {
      var saved := records;
      var i := 0;
      while i < |p.steps|
        invariant i <= |p.steps| && ClaimSteps(saved, rsid, p, i) == Success(records)
      {
        var k := StepKey(rsid, p, i);
        var next := if k !in records || records[k].binding.batch != Some(BatchRef(p.batchId, i, p.digest))
                       || records[k].dispatchMayHaveStarted then Throw else MarkExecuting(records[k]);
        if next.Throw? {
          ClaimStepsStops(saved, rsid, p, i + 1);
          records := saved;
          return false;
        }
        records := records[k := next.value];
        i := i + 1;
      }
      return true;
    }

    /** Claims the one dispatch of an atomic batch: every step, or none and no dispatch. */
    method MarkAtomicBatchDispatched(rsid: string, p: BatchPayload) returns (ok: bool)
      requires Valid()
      modifies this`records, this`batches
      ensures ok == ClaimAtomicBatch(old(Semantics()), rsid, p).Success?
      ensures Semantics() == if ok then ClaimAtomicBatch(old(Semantics()), rsid, p).value else old(Semantics())
      ensures !ok || old(batches)[p.batchId].payload.atomic ==> Valid()
    {
      ghost var before := Semantics();
      if p.steps == [] || p.batchId !in batches { return false; }
      var b := batches[p.batchId];
      if b.rsid != rsid || b.payload.digest != p.digest || !b.state.BatchReceived? { return false; }
      ok := ClaimEachStep(rsid, p);
      if ok {
        batches := batches[p.batchId := b.(state := BatchDispatched)];
        if b.payload.atomic { ClaimAtomicKeepsInv(before, rsid, p); }
      }
    }

    // ----- Acknowledgement -----

    /** The smallest blocking sequence number bounds what may be acknowledged. */
    method AcknowledgeableRxSeq(rsid: string) returns (ack: nat)
      requires Valid()
      ensures ack == Acknowledgeable(wire, rsid)
      ensures ack <= Load(wire, rsid).lastRx && forall i :: 1 <= i <= ack ==> !Blocks(wire, rsid, i)
    {
      var last := Load(wire, rsid).lastRx;
      var n := 1;
      while n <= last && !Blocks(wire, rsid, n)
        invariant 1 <= n <= last + 1 && FirstBlocked(wire, rsid, 1, last) == FirstBlocked(wire, rsid, n, last)
        decreases last + 1 - n
      {
        n := n + 1;
      }
      return n - 1;
    }

    // ----- Deliveries -----

    method StoreDrafts(d: string, texts: seq<string>) returns (drafts: map<DraftKey, string>)
      ensures drafts == InsertDrafts(wire.drafts, d, texts, |texts|)
    {
      drafts := wire.drafts;
      var i := 0;
      while i < |texts|
        invariant i <= |texts| && drafts == InsertDrafts(wire.drafts, d, texts, i)
      {
        drafts := drafts[DraftKey(d, i) := texts[i]];
        i := i + 1;
      }
    }

    /** Stages the ordered drafts of a delivery once; staging it again is a replay. */
    method StageDurableDelivery(rsid: string, d: string, texts: seq<string>, inboundSeq: Option<nat>) returns (ok: bool)
      requires Valid()
      modifies this`wire, this`hist
      ensures Valid()
      ensures ok == StageDelivery(old(wire), rsid, d, texts, inboundSeq).Success?
      ensures wire == if ok then StageDelivery(old(wire), rsid, d, texts, inboundSeq).value else old(wire)
    {
      ghost var before := wire;
      var saved := wire;
      if texts == [] || inboundSeq == Some(0) { return false; }
      if d in wire.plans {
        var p := wire.plans[d];
        if p.rsid != rsid || p.terminalOrdinal != |texts| - 1 || p.inboundSeq != inboundSeq { return false; }
      } else {
        if inboundSeq.Some? && exists p :: p in wire.plans && wire.plans[p].rsid == rsid && wire.plans[p].inboundSeq == inboundSeq {
          return false;
        }
        var drafts := StoreDrafts(d, texts);
        wire := wire.(plans := wire.plans[d := Plan(rsid, inboundSeq, Pending, |texts| - 1, None)], drafts := drafts);
      }
      var bound := BindOptional(wire, rsid, inboundSeq, d);
      if bound.Throw? {
        wire := saved;
        return false;
      }
      wire := bound.value;
      StageKeeps(before, hist, rsid, d, texts, inboundSeq);
      hist := Later(Staged(hist, before, d), before, wire);
      return true;
    }

    ghost method TrackQueue(rsid: string, text: string, k: DraftKey, carrier: Option<Carrier>)
      requires Valid() && QueueOutbound(wire, rsid, text, Some(k), carrier).Success?
      modifies this`hist
      ensures WireInvariant.WireInv(QueueOutbound(wire, rsid, text, Some(k), carrier).value.0, hist)
    {
      var (v, num) := QueueOutbound(wire, rsid, text, Some(k), carrier).value;
      QueueKeeps(wire, hist, rsid, text, Some(k), carrier);
      hist := Later(Sent(hist, Some(k), num), wire, v);
    }

    /** Gives the next draft its number, consumes it and stores the new sequence state, or does nothing. */
    method QueueDraft(rsid: string, text: string, k: DraftKey, carrier: Option<Carrier>) returns (sent: Option<nat>)
      requires Valid()
      modifies this`wire, this`hist
      ensures Valid()
      ensures sent.Some? == QueueOutbound(old(wire), rsid, text, Some(k), carrier).Success?
      ensures if sent.Some? then (wire, sent.value) == QueueOutbound(old(wire), rsid, text, Some(k), carrier).value else wire == old(wire)
    {
      var queued := NumberDraft(wire, rsid, text, k, carrier);
      if queued.Throw? { return None; }
      TrackQueue(rsid, text, k, carrier);
      wire := queued.value.0;
      return Some(queued.value.1);
    }

    // ----- Inbound invocations -----

    /** Journals an invocation and, when it is new, claims its one dispatch; all of it or nothing. */
    method AcceptInboundInvocation(d: Delivery, b: Binding) returns (ok: bool, sends: seq<Key>)
      requires Valid()
      modifies this
      ensures Valid()
      ensures ok == ExecInvoke(old(Tables(Semantics(), wire)), d, b).Success?
      ensures if ok then (Tables(Semantics(), wire), sends) == ExecInvoke(old(Tables(Semantics(), wire)), d, b).value
              else Tables(Semantics(), wire) == old(Tables(Semantics(), wire)) && sends == []
    {
      var before := Tables(Sem(records, ledger, batches), wire);
      var result := DecideInvocation(before, d, b);
      if result.Throw? { return false, []; }
      var (after, keys) := result.value;
      ExecInvokeKeepsSem(before, d, b);
      TrackInvoke(before, d, b);
      records, ledger, batches, wire := after.sem.records, after.sem.ledger, after.sem.batches, after.wire;
      return true, keys;
    }

    ghost method TrackInvoke(before: Tables, d: Delivery, b: Binding)
      requires before == Tables(Semantics(), wire) && Valid() && ExecInvoke(before, d, b).Success?
      modifies this`hist
      ensures WireInvariant.WireInv(ExecInvoke(before, d, b).value.0.wire, hist)
    {
      InvokeFinishes(before, d, b);
      FinishesKeeps(before.wire, hist, d, b.invocationId, ExecInvoke(before, d, b).value.0.wire);
      hist := Later(hist, before.wire, ExecInvoke(before, d, b).value.0.wire);
    }
  }

  /** The body of the accepting transaction and the claim that follows it. */
  method DecideInvocation(t: Tables, d: Delivery, b: Binding) returns (r: Result<(Tables, seq<Key>)>)
    ensures r == ExecInvoke(t, d, b)
  {
    if d.env.kind != "invoke" || b.rsid != d.env.rsid || b.invocationId == "" || b.batch.Some? { return Throw; }
    var arrived := Arrive(t.wire, d.env, b.invocationId, d.context, Journaled, None, false);
    if arrived.Throw? { return Throw; }
    var (w, arrival) := arrived.value;
    if !TakesDecision(w, SlotOf(d.env), arrival, d.resume) { return Success((t.(wire := w), [])); }
    var accepted := AcceptInvocation(t.sem, b, d.identity, d.sorted);
    if accepted.Throw? { return Throw; }
    var (s, decision) := accepted.value;
    if AnswersInvoke(decision) {
      var answered := StoreReply(w, SlotOf(d.env), d.reply, SupersedesInvoke(decision));
      if answered.Throw? { return Throw; }
      w := answered.value;
    }
    var (next, sends) := SendInvocation(s, KeyOf(b), decision, d.cut);
    return Success((Tables(next, w), sends));
  }

  /** The number, the sequence state and the draft that goes with them, when the window is free. */
  method NumberDraft(w: Wire, rsid: string, text: string, k: DraftKey, carrier: Option<Carrier>)
    returns (r: Result<(Wire, nat)>)
    ensures r == QueueOutbound(w, rsid, text, Some(k), carrier)
  {
    var s := Load(w, rsid);
    if s.outbox != [] { return Throw; }
    var queued := QueueData(s, text);
    if queued.None? { return Throw; }
    var (state, num) := queued.value;
    QueueIsConsume(w, rsid, text, k, carrier, state, num);
    var next := ConsumeDraft(w, rsid, state, num, k, text, carrier);
    return if next.Throw? then Throw else Success((next.value, num));
  }

  lemma QueueIsConsume(w: Wire, rsid: string, text: string, k: DraftKey, carrier: Option<Carrier>, s: SeqState, num: nat)
    requires Load(w, rsid).outbox == [] && QueueData(Load(w, rsid), text) == Some((s, num))
    ensures var next := ConsumeDraft(w, rsid, s, num, k, text, carrier);
            QueueOutbound(w, rsid, text, Some(k), carrier) == if next.Throw? then Throw else Success((next.value, num))
  {
  }

  // ----- A failure in a prefix is a failure of the whole -----

  lemma {:induction false} RecordAllStops(records: Records, entries: seq<(Key, Outcome)>, n: nat)
    requires n <= |entries| && RecordAll(records, entries[..n]).Throw?
    ensures RecordAll(records, entries).Throw?
    decreases |entries| - n
  {
    if n == |entries| {
      assert entries[..n] == entries;
    } else {
      assert entries[..n + 1][..n] == entries[..n];
      RecordAllStops(records, entries, n + 1);
    }
  }

  lemma {:induction false} MarkAllStops(records: Records, keys: seq<Key>, holds: seq<HoldId>, n: nat)
    requires n <= |keys| && AllPresent(records, keys) && MarkAll(records, keys[..n], holds).Throw?
    ensures MarkAll(records, keys, holds).Throw?
    decreases |keys| - n
  {
    if n == |keys| {
      assert keys[..n] == keys;
    } else {
      assert keys[..n + 1][..n] == keys[..n];
      MarkAllStops(records, keys, holds, n + 1);
    }
  }

  lemma {:induction false} ClaimStepsStops(records: Records, rsid: string, p: BatchPayload, n: nat)
    requires n <= |p.steps| && ClaimSteps(records, rsid, p, n).Throw?
    ensures ClaimSteps(records, rsid, p, |p.steps|).Throw?
    decreases |p.steps| - n
  {
    if n < |p.steps| { ClaimStepsStops(records, rsid, p, n + 1); }
  }

  lemma {:induction false} ClassifyGroupsStops(s: Sem, groups: seq<seq<Key>>, n: nat)
    requires n <= |groups| && !ClassifyGroups(s, groups[..n]).1
    ensures ClassifyGroups(s, groups) == ClassifyGroups(s, groups[..n])
    decreases |groups| - n
  {
    if n == |groups| {
      assert groups[..n] == groups;
    } else {
      assert groups[..n + 1][..n] == groups[..n];
      ClassifyGroupsStops(s, groups, n + 1);
    }
  }
}
