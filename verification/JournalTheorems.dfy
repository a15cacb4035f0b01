/** The promises of the journal, for every sequence of operations from an empty journal. */
module JournalTheorems {
  import opened Wrappers
  import opened JournalRecords
  import opened SemanticTables
  import opened SemanticInvariant
  import opened SemanticSteps
  import opened WireTables
  import WireInvariant
  import opened WireSteps
  import opened Journal
  import opened JournalSteps
  import opened JournalSafety

  // ----- The invariant of all runs -----

  ghost predicate SentInv(records: Records, sent: seq<Key>) {
    && (forall i :: 0 <= i < |sent| ==> sent[i] in records && !records[sent[i]].state.Received?)
    && (forall i, j :: 0 <= i < j < |sent| && sent[i] == sent[j] ==>
          sent[i] in records && !records[sent[i]].binding.mutating)
  }

  ghost predicate StateInv(st: State) {
    && SemInv(st.tables.sem)
    && WireInvariant.WireInv(st.tables.wire, st.hist)
    && SentInv(st.tables.sem.records, st.sent)
  }

  lemma SendsKeepSentInv(a: Sem, b: Sem, sent: seq<Key>, sends: seq<Key>)
    requires SentInv(a.records, sent) && SemStep(a, b, sends)
    ensures SentInv(b.records, sent + sends)
  {
    var all := sent + sends;
    forall i | 0 <= i < |all| ensures all[i] in b.records && !b.records[all[i]].state.Received? {
      if i >= |sent| { assert Dispatched(a, b, sends[i - |sent|]); }
    }
    forall i, j | |sent| <= i < j < |all| ensures all[i] != all[j] {
      assert all[i] == sends[i - |sent|] && all[j] == sends[j - |sent|];
    }
    forall i, j | 0 <= i < j < |all| && all[i] == all[j] ensures !b.records[all[i]].binding.mutating {
      if j >= |sent| { assert Dispatched(a, b, sends[j - |sent|]); }
    }
  }

  /** What `Exec` leaves is again a state of the invariant, with the sends appended. */
  lemma ExecKeepsState(st: State, op: Op)
    requires StateInv(st) && Exec(st.tables, op).Success?
    ensures var (t, sends) := Exec(st.tables, op).value;
            && StateInv(State(t, RecordOp(st.hist, st.tables.wire, t.wire, op), st.sent + sends))
            && SemAdvances(st.tables.sem, t.sem)
            && forall r :: op != OnWire(Confirm(r)) ==> WireInvariant.SessionAdvances(st.tables.wire, t.wire, r)
  {
    var (t, sends) := Exec(st.tables, op).value;
    ExecKeepsSem(st.tables, op);
    ExecKeepsWire(st.tables, st.hist, op);
    SendsKeepSentInv(st.tables.sem, t.sem, st.sent, sends);
  }

  lemma StepKeeps(st: State, op: Op)
    requires StateInv(st)
    ensures StateInv(Step(st, op))
    ensures SemAdvances(st.tables.sem, Step(st, op).tables.sem)
    ensures forall r :: op != OnWire(Confirm(r)) ==>
      WireInvariant.SessionAdvances(st.tables.wire, Step(st, op).tables.wire, r)
  {
    if Exec(st.tables, op).Success? {
      ExecKeepsState(st, op);
    } else {
      OneKeepsInvRefl(st.tables.sem);
      WireKeptRefl(st.tables.wire, st.hist);
    }
  }

  lemma {:induction false} RunKeeps(ops: seq<Op>)
    ensures StateInv(Run(ops))
  {
    if ops != [] {
      RunKeeps(ops[..|ops| - 1]);
      StepKeeps(Run(ops[..|ops| - 1]), ops[|ops| - 1]);
    }
  }

  lemma RunLast(ops: seq<Op>, more: seq<Op>)
    requires more != []
    ensures Run(ops + more) == Step(Run(ops + more[..|more| - 1]), more[|more| - 1])
  {
    var all := ops + more;
    assert all[..|all| - 1] == ops + more[..|more| - 1];
  }

  lemma {:induction false} RunAdvances(ops: seq<Op>, more: seq<Op>)
    ensures SemAdvances(Run(ops).tables.sem, Run(ops + more).tables.sem)
  {
    RunKeeps(ops);
    if more == [] {
      assert ops + more == ops;
      OneKeepsInvRefl(Run(ops).tables.sem);
    } else {
      var prefix := ops + more[..|more| - 1];
      RunAdvances(ops, more[..|more| - 1]);
      RunKeeps(prefix);
      RunLast(ops, more);
      StepKeeps(Run(prefix), more[|more| - 1]);
      SemAdvancesTransitive(Run(ops).tables.sem, Run(prefix).tables.sem, Run(ops + more).tables.sem);
    }
  }

  // ----- At most one dispatch of a mutation -----

  /** Whatever is redelivered, cancelled or restarted, the add-in is sent a mutating key at most once. */
  lemma MutationSentAtMostOnce(ops: seq<Op>, i: nat, j: nat)
    requires i < j < |Run(ops).sent| && Run(ops).sent[i] == Run(ops).sent[j]
    ensures Run(ops).sent[i] in Run(ops).tables.sem.records
    ensures !Run(ops).tables.sem.records[Run(ops).sent[i]].binding.mutating
  {
    RunKeeps(ops);
  }

  // ----- Acknowledgement -----

  ghost predicate NeverConfirms(ops: seq<Op>, r: string) {
    OnWire(Confirm(r)) !in ops
  }

  lemma {:induction false} SessionRunAdvances(ops: seq<Op>, more: seq<Op>, r: string)
    requires NeverConfirms(more, r)
    ensures WireInvariant.SessionAdvances(Run(ops).tables.wire, Run(ops + more).tables.wire, r)
  {
    RunKeeps(ops);
    if more == [] {
      assert ops + more == ops;
      WireKeptRefl(Run(ops).tables.wire, Run(ops).hist);
    } else {
      var prefix := ops + more[..|more| - 1];
      SessionRunAdvances(ops, more[..|more| - 1], r);
      RunKeeps(prefix);
      RunLast(ops, more);
      StepKeeps(Run(prefix), more[|more| - 1]);
      SessionAdvancesTransitive(Run(ops).tables.wire, Run(prefix).tables.wire, Run(ops + more).tables.wire, r);
    }
  }

  /** Until its unregistration is confirmed, a session's acknowledgement never goes down. */
  lemma AckNeverDecreases(ops: seq<Op>, more: seq<Op>, r: string)
    requires NeverConfirms(more, r)
    ensures Acknowledgeable(Run(ops).tables.wire, r) <= Acknowledgeable(Run(ops + more).tables.wire, r)
  {
    SessionRunAdvances(ops, more, r);
    WireInvariant.AckGrows(Run(ops).tables.wire, Run(ops + more).tables.wire, r);
  }

  /** At every point of every run an acknowledged number has been answered, staged or delivered. */
  lemma AckCoversWork(ops: seq<Op>, k: Slot)
    requires 1 <= k.num <= Acknowledgeable(Run(ops).tables.wire, k.rsid)
    ensures var st := Run(ops);
            var w := st.tables.wire;
            if k in w.work
            then
              || w.work[k].state.NoReply?
              || (&& w.work[k].deliveryId.Some? && w.work[k].deliveryId.value in w.plans
                  && w.plans[w.work[k].deliveryId.value].inboundSeq == Some(k.num)
                  && w.plans[w.work[k].deliveryId.value].rsid == k.rsid)
            else k in st.hist.retired && st.hist.retired[k] <= Load(w, k.rsid).lastPeerAck
  {
    RunKeeps(ops);
    WireInvariant.AckIsCovered(Run(ops).tables.wire, Run(ops).hist, k);
  }

  /** The table constraint on inbound rows holds at every point, and rows only move forward. */
  lemma InboundRowsMoveForward(ops: seq<Op>, more: seq<Op>, k: Slot)
    requires NeverConfirms(more, k.rsid) && k in Run(ops).tables.wire.work
    ensures WireInvariant.RowInv(Run(ops).tables.wire, k)
    ensures k in Run(ops + more).tables.wire.work ==>
      WireInvariant.WorkMoves(Run(ops).tables.wire.work[k], Run(ops + more).tables.wire.work[k])
  {
    RunKeeps(ops);
    SessionRunAdvances(ops, more, k.rsid);
    assert k in Run(ops + more).tables.wire.work ==>
      WireInvariant.RowAdvances(Run(ops).tables.wire, Run(ops + more).tables.wire, k);
  }

  // ----- Holds -----

  /** Every indeterminate mutation is named by a stored hold, and holds stay. */
  lemma HoldsCoverAndStay(ops: seq<Op>, more: seq<Op>, k: Key)
    requires k in Run(ops).tables.sem.records
    requires Run(ops).tables.sem.records[k].state.Indeterminate? && Run(ops).tables.sem.records[k].binding.mutating
    ensures var id := Run(ops).tables.sem.records[k].holdId;
            && id.Some? && k in id.value.keys && id.value in Run(ops).tables.sem.ledger.rows
            && id.value in Run(ops + more).tables.sem.ledger.rows
            && k in Run(ops + more).tables.sem.records && Run(ops + more).tables.sem.records[k].holdId == id
  {
    RunKeeps(ops);
    RunAdvances(ops, more);
    assert RecordInv(Run(ops).tables.sem.records[k]);
  }

  // ----- Batches -----

  /** A stored batch keeps its payload and its first terminal carrier for ever. */
  lemma BatchTerminalIsWriteOnce(ops: seq<Op>, more: seq<Op>, id: string)
    requires id in Run(ops).tables.sem.batches
    ensures var b := Run(ops).tables.sem.batches[id];
            && (b.terminal.Some? <==> b.state.BatchTerminal?)
            && id in Run(ops + more).tables.sem.batches
            && var c := Run(ops + more).tables.sem.batches[id];
               c.payload == b.payload && c.rsid == b.rsid && (b.terminal.Some? ==> c.terminal == b.terminal)
               && (b.terminal.Some? ==> c.state.BatchTerminal?)
  {
    RunKeeps(ops);
    RunKeeps(ops + more);
    RunAdvances(ops, more);
  }

  /** A commit that contradicts the stored terminal carrier changes no table at all. */
  lemma ConflictingCommitChangesNothing(st: State, rsid: string, id: string, digest: string, carrier: string, entries: seq<(string, Outcome)>)
    requires id in st.tables.sem.batches && st.tables.sem.batches[id].terminal.Some?
    requires st.tables.sem.batches[id].terminal.value != carrier
    ensures Step(st, OnSem(CommitTerminal(rsid, id, digest, carrier, entries))) == st
    ensures Step(st, OnSem(CommitLate(rsid, id, digest, carrier, entries))) == st
  {
    assert ExecSem(st.tables.sem, CommitTerminal(rsid, id, digest, carrier, entries)).Throw?;
    assert ExecSem(st.tables.sem, CommitLate(rsid, id, digest, carrier, entries)).Throw?;
  }

  /** Storing a reply changes, besides its own row, only older rows of the same type and correlation. */
  lemma SupersessionIsLocal(w: Wire, k: Slot, reply: string, supersede: bool, j: Slot)
    requires StoreReply(w, k, reply, supersede).Success? && j in w.work && j != k
    ensures var v := StoreReply(w, k, reply, supersede).value;
            && j in v.work
            && (v.work[j] != w.work[j] ==>
                  && supersede && j.rsid == k.rsid && j.num < k.num
                  && w.work[j].kind == w.work[k].kind && w.work[j].correlation == w.work[k].correlation
                  && v.work[j].state.NoReply?)
  {
    if supersede && w.work[k].state.Journaled? { assert Supersede(w, k).work[k] == w.work[k]; }
  }

  ghost predicate IsDispatched(st: State, id: string) {
    id in st.tables.sem.batches && st.tables.sem.batches[id].state.BatchDispatched?
  }

  ghost predicate Enters(st: State, op: Op, id: string) {
    !IsDispatched(st, id) && IsDispatched(Step(st, op), id)
  }

  /** An atomic batch enters `dispatched` at most once in a run. */
  lemma DispatchedAtMostOnce(ops: seq<Op>, op: Op, more: seq<Op>, again: Op, id: string)
    requires Enters(Run(ops), op, id)
    ensures !Enters(Run(ops + [op] + more), again, id)
  {
    RunLast(ops, [op]);
    assert ops + [op][..0] == ops;
    RunAdvances(ops + [op], more);
    RunKeeps(ops + [op] + more);
    StepKeeps(Run(ops + [op] + more), again);
  }

  // ----- Non-atomic batches -----

  /** The keys sent by one more operation. */
  ghost function SentBy(ops: seq<Op>, op: Op): (keys: seq<Key>) {
    var r := Exec(Run(ops).tables, op);
    if r.Success? then r.value.1 else []
  }

  ghost predicate IsStepOf(s: Sem, id: string, i: nat, k: Key) {
    id in s.batches && i < |s.batches[id].payload.steps| && k == StepKey(s.batches[id].rsid, s.batches[id].payload, i)
    && k in s.records && s.records[k].binding.batch == Some(BatchRef(id, i, s.batches[id].payload.digest))
  }

  /** A step of a non-atomic batch is sent only when all earlier steps have completed durably. */
  lemma StepsSentInOrder(ops: seq<Op>, op: Op, k: Key, id: string, i: nat)
    requires k in SentBy(ops, op)
    requires IsStepOf(Step(Run(ops), op).tables.sem, id, i, k)
    requires !Step(Run(ops), op).tables.sem.batches[id].payload.atomic
    ensures PredecessorsCompleted(Step(Run(ops), op).tables.sem.records, Step(Run(ops), op).tables.sem.batches[id], i)
  {
    RunKeeps(ops);
    StepKeeps(Run(ops), op);
    ExecKeepsSem(Run(ops).tables, op);
    var n :| 0 <= n < |SentBy(ops, op)| && SentBy(ops, op)[n] == k;
    assert Dispatched(Run(ops).tables.sem, Step(Run(ops), op).tables.sem, SentBy(ops, op)[n]);
    assert StartedInOrder(Step(Run(ops), op).tables.sem.records, Step(Run(ops), op).tables.sem.batches, k);
  }

  /** The steps of a batch are all completed, or completed up to one that ended otherwise. */
  ghost predicate SnapshotFinal(s: Sem, id: string) {
    && id in s.batches && !s.batches[id].payload.atomic && StepRows(s.records, s.batches[id])
    && exists f :: FinalAt(s, id, f)
  }

  ghost predicate FinalAt(s: Sem, id: string, f: nat)
    requires id in s.batches && StepRows(s.records, s.batches[id])
  {
    var b := s.batches[id];
    && f <= |b.payload.steps|
    && (forall j :: 0 <= j < f ==> IsCompleted(s.records[StepKey(b.rsid, b.payload, j)]))
    && (f < |b.payload.steps| ==>
          HasOutcome(s.records[StepKey(b.rsid, b.payload, f)]) && !IsCompleted(s.records[StepKey(b.rsid, b.payload, f)]))
  }

  lemma OutcomeStays(a: Sem, b: Sem, k: Key)
    requires SemInv(a) && SemInv(b) && SemAdvances(a, b) && k in a.records && HasOutcome(a.records[k])
    ensures k in b.records && HasOutcome(b.records[k]) && IsCompleted(b.records[k]) == IsCompleted(a.records[k])
  {
    assert RecordInv(a.records[k]) && RecordInv(b.records[k]);
  }

  lemma FinalStaysFinal(a: Sem, b: Sem, id: string, f: nat)
    requires SemInv(a) && SemInv(b) && SemAdvances(a, b)
    requires id in a.batches && StepRows(a.records, a.batches[id]) && FinalAt(a, id, f)
    ensures id in b.batches && b.batches[id].payload == a.batches[id].payload && b.batches[id].rsid == a.batches[id].rsid
    ensures StepRows(b.records, b.batches[id]) && FinalAt(b, id, f)
  {
    var x := a.batches[id];
    forall j | 0 <= j <= f && j < |x.payload.steps|
      ensures var k := StepKey(x.rsid, x.payload, j);
              k in b.records && HasOutcome(b.records[k]) && IsCompleted(b.records[k]) == IsCompleted(a.records[k])
    {
      OutcomeStays(a, b, StepKey(x.rsid, x.payload, j));
    }
  }

  lemma FinalNotDispatched(a: Sem, b: Sem, id: string, f: nat, i: nat)
    requires SemInv(a) && Kept(a, b)
    requires id in a.batches && !a.batches[id].payload.atomic && StepRows(a.records, a.batches[id]) && FinalAt(a, id, f)
    requires i < |a.batches[id].payload.steps|
    ensures !Dispatched(a, b, StepKey(a.batches[id].rsid, a.batches[id].payload, i))
  {
    var x := a.batches[id];
    FinalStaysFinal(a, b, id, f);
    assert StartedInOrder(b.records, b.batches, StepKey(x.rsid, x.payload, i));
    if f < i {
      assert !IsCompleted(b.records[StepKey(x.rsid, x.payload, f)]);
      assert !PredecessorsCompleted(b.records, b.batches[id], i);
    }
  }

  lemma FinalSendsNothing(a: Sem, b: Sem, sends: seq<Key>, id: string, f: nat, i: nat)
    requires SemInv(a) && SemStep(a, b, sends)
    requires id in a.batches && !a.batches[id].payload.atomic && StepRows(a.records, a.batches[id]) && FinalAt(a, id, f)
    requires i < |a.batches[id].payload.steps|
    ensures StepKey(a.batches[id].rsid, a.batches[id].payload, i) !in sends
  {
    FinalNotDispatched(a, b, id, f, i);
    forall n | 0 <= n < |sends| ensures sends[n] != StepKey(a.batches[id].rsid, a.batches[id].payload, i) {
      assert Dispatched(a, b, sends[n]);
    }
  }

  ghost predicate SameBatch(a: Sem, b: Sem, id: string) {
    id in a.batches && id in b.batches && b.batches[id].payload == a.batches[id].payload && b.batches[id].rsid == a.batches[id].rsid
  }

  ghost predicate IsStepKey(s: Sem, id: string, k: Key) {
    id in s.batches && exists i :: 0 <= i < |s.batches[id].payload.steps| && k == StepKey(s.batches[id].rsid, s.batches[id].payload, i)
  }

  lemma FinalSendsNoStep(a: Sem, b: Sem, sends: seq<Key>, id: string, f: nat, n: nat)
    requires SemInv(a) && SemStep(a, b, sends) && n < |sends|
    requires id in a.batches && !a.batches[id].payload.atomic && StepRows(a.records, a.batches[id]) && FinalAt(a, id, f)
    ensures !IsStepKey(a, id, sends[n])
  {
    var x := a.batches[id];
    forall i | 0 <= i < |x.payload.steps| ensures StepKey(x.rsid, x.payload, i) != sends[n] {
      FinalSendsNothing(a, b, sends, id, f, i);
    }
  }

  lemma FinalMove(a: Sem, b: Sem, sent: seq<Key>, sends: seq<Key>, id: string)
    requires SemInv(a) && SemStep(a, b, sends) && SnapshotFinal(a, id)
    ensures SnapshotFinal(b, id) && SameBatch(a, b, id)
    ensures forall n :: |sent| <= n < |sent + sends| ==> !IsStepKey(a, id, (sent + sends)[n])
  {
    var f :| FinalAt(a, id, f);
    FinalStaysFinal(a, b, id, f);
    forall n | |sent| <= n < |sent + sends| ensures !IsStepKey(a, id, (sent + sends)[n]) {
      FinalSendsNoStep(a, b, sends, id, f, n - |sent|);
    }
  }

  lemma StepMoves(st: State, op: Op) returns (sends: seq<Key>)
    requires SemInv(st.tables.sem)
    ensures Step(st, op).sent == st.sent + sends && SemStep(st.tables.sem, Step(st, op).tables.sem, sends)
  {
    if Exec(st.tables, op).Success? {
      ExecKeepsSem(st.tables, op);
      sends := Exec(st.tables, op).value.1;
    } else {
      OneKeepsInvRefl(st.tables.sem);
      Quietly(st.tables.sem, st.tables.sem);
      sends := [];
    }
  }

  /** One step from a final snapshot sends no step of the batch. */
  lemma FinalStep(st: State, op: Op, id: string)
    requires SemInv(st.tables.sem) && SnapshotFinal(st.tables.sem, id)
    ensures SnapshotFinal(Step(st, op).tables.sem, id) && SameBatch(st.tables.sem, Step(st, op).tables.sem, id)
    ensures st.sent <= Step(st, op).sent
    ensures forall n :: |st.sent| <= n < |Step(st, op).sent| ==> !IsStepKey(st.tables.sem, id, Step(st, op).sent[n])
  {
    var sends := StepMoves(st, op);
    FinalMove(st.tables.sem, Step(st, op).tables.sem, st.sent, sends, id);
  }

  lemma SameSteps(a: Sem, b: Sem, id: string, k: Key)
    requires SameBatch(a, b, id)
    ensures IsStepKey(a, id, k) <==> IsStepKey(b, id, k)
  {
  }

  /** Once the snapshot of a non-atomic batch is final, no step of it is ever sent again. */
  lemma {:induction false} NothingSentAfterFinal(ops: seq<Op>, more: seq<Op>, id: string, n: nat)
    requires SnapshotFinal(Run(ops).tables.sem, id)
    ensures SnapshotFinal(Run(ops + more).tables.sem, id) && SameBatch(Run(ops).tables.sem, Run(ops + more).tables.sem, id)
    ensures |Run(ops).sent| <= |Run(ops + more).sent|
    ensures |Run(ops).sent| <= n < |Run(ops + more).sent| ==> !IsStepKey(Run(ops).tables.sem, id, Run(ops + more).sent[n])
  {
    if more == [] {
      assert ops + more == ops;
    } else {
      var prefix, op := ops + more[..|more| - 1], more[|more| - 1];
      NothingSentAfterFinal(ops, more[..|more| - 1], id, n);
      RunKeeps(prefix);
      RunLast(ops, more);
      FinalStep(Run(prefix), op, id);
      if |Run(ops).sent| <= n < |Run(ops + more).sent| {
        SameSteps(Run(ops).tables.sem, Run(prefix).tables.sem, id, Run(ops + more).sent[n]);
      }
    }
  }
}
