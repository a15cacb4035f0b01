/** What one operation of the journal does to the semantic tables and to the add-in. */
module JournalSteps {
  import opened Wrappers
  import opened JournalRecords
  import opened SemanticTables
  import opened SemanticInvariant
  import opened SemanticSteps
  import opened Journal

  /** A key may be sent: it is durably claimed now, and a mutation was not claimed before. */
  ghost predicate Dispatched(a: Sem, b: Sem, k: Key) {
    && k in b.records && b.records[k].dispatchMayHaveStarted && !b.records[k].state.Received?
    && (k in a.records ==> !HasOutcome(a.records[k]))
    && (b.records[k].binding.mutating ==> k !in a.records || a.records[k].state.Received?)
  }

  ghost predicate SemStep(a: Sem, b: Sem, sends: seq<Key>) {
    && Kept(a, b) && NoDuplicates(sends)
    && forall i :: 0 <= i < |sends| ==> Dispatched(a, b, sends[i])
  }

  lemma Quietly(a: Sem, b: Sem)
    requires Kept(a, b)
    ensures SemStep(a, b, [])
  {
  }

  lemma KeptTransitive(a: Sem, b: Sem, c: Sem)
    requires Kept(a, b) && Kept(b, c)
    ensures Kept(a, c)
  {
    SemAdvancesTransitive(a, b, c);
  }

  /** Being unclaimed carries back along any change. */
  lemma ReceivedBefore(a: Sem, b: Sem, k: Key)
    requires SemInv(a) && SemAdvances(a, b) && k in b.records && b.records[k].state.Received?
    ensures k in a.records ==> a.records[k].state.Received? && !HasOutcome(a.records[k])
  {
    assert k in a.records ==> RecordInv(a.records[k]);
  }

  // ----- Single invocations -----

  lemma AcceptedIsReceived(s: Sem, b: Binding, identity: string, sorted: bool, next: Sem)
    requires AcceptInvocation(s, b, identity, sorted) == Success((next, Accepted))
    ensures KeyOf(b) !in s.records
    ensures KeyOf(b) in next.records && next.records[KeyOf(b)].state.Received? && next.records[KeyOf(b)].binding == b
  {
  }

  lemma ReexecutedIsRead(s: Sem, b: Binding, identity: string, sorted: bool, next: Sem)
    requires SemInv(s) && AcceptInvocation(s, b, identity, sorted) == Success((next, Redelivered(ReexecuteRead)))
    ensures Dispatched(s, next, KeyOf(b))
  {
  }

  lemma InvokeSends(s: Sem, b: Binding, identity: string, sorted: bool, cut: nat)
    requires SemInv(s) && b.batch.None? && AcceptInvocation(s, b, identity, sorted).Success?
    ensures var (mid, d) := AcceptInvocation(s, b, identity, sorted).value;
            var (next, sends) := SendInvocation(mid, KeyOf(b), d, cut);
            SemStep(s, next, sends)
  {
    var (mid, d) := AcceptInvocation(s, b, identity, sorted).value;
    AcceptKeepsInv(s, b, identity, sorted);
    if d.Accepted? && cut > 0 && ClaimInvocation(mid, KeyOf(b)).Success? {
      AcceptedIsReceived(s, b, identity, sorted, mid);
      ClaimInvocationKeepsInv(mid, KeyOf(b));
      KeptTransitive(s, mid, ClaimInvocation(mid, KeyOf(b)).value);
    } else if d == Redelivered(ReexecuteRead) && cut > 1 {
      ReexecutedIsRead(s, b, identity, sorted, mid);
    }
  }

  // ----- Batches -----

  lemma StoppedAtReads(records: Records, rsid: string, p: BatchPayload, i: nat, last: Redelivery, j: nat)
    requires StepsStored(records, rsid, p) && i <= |p.steps|
    requires forall x :: 0 <= x < i ==> IsCompleted(records[StepKey(rsid, p, x)])
    requires forall x :: 0 <= x < i ==>
      records[StepKey(rsid, p, x)].terminal.None? ==> records[StepKey(rsid, p, x)].holdId.Some?
    requires j < |p.steps| && IsReexecute(StoppedAt(records, rsid, p, i, last).steps[j])
    ensures j == i && last.ReexecuteRead?
  {
  }

  lemma RedeliveredRead(s: Sem, k: Key, b: Binding, next: Record, promotion: Option<HoldId>)
    requires k in s.records && RecordInv(s.records[k])
    requires DecideRedelivery(s.records[k], b, promotion) == Success((ReexecuteRead, next))
    ensures Dispatched(s, s.(records := s.records[k := next]), k)
  {
  }

  lemma RedeliveredMutation(s: Sem, k: Key, b: Binding)
    requires k in s.records && s.records[k].binding.mutating && s.records[k].binding.scope.Some?
    requires RedeliverMutation(s, k, b).Success?
    ensures RedeliverMutation(s, k, b).value.1 != Some(ReexecuteRead)
  {
  }

  lemma RedeliveredStepsRead(s: Sem, rsid: string, p: BatchPayload, next: Sem, ds: seq<StepDecision>, j: nat)
    requires SemInv(s) && StepsStored(s.records, rsid, p)
    requires RedeliverSteps(s, rsid, p) == Success((next, StepsDecided(ds)))
    requires j < |ds| && IsReexecute(ds[j])
    ensures |ds| == |p.steps| && j == FirstOpen(s.records, rsid, p, 0) && Dispatched(s, next, StepKey(rsid, p, j))
  {
    var i := FirstOpen(s.records, rsid, p, 0);
    if i == |p.steps| {
      StoppedAtReads(s.records, rsid, p, i, ReexecuteRead, j);
    } else {
      var k := StepKey(rsid, p, i);
      var r, b := s.records[k], StepBinding(rsid, p, i);
      assert RecordInv(r);
      if HasOutcome(r) || r.state.Indeterminate? || !r.binding.mutating || r.binding.scope.None? {
        var (decision, after) := DecideRedelivery(r, b, None).value;
        StoppedAtReads(s.records, rsid, p, i, decision, j);
        RedeliveredRead(s, k, b, after, None);
      } else {
        RedeliveredMutation(s, k, b);
        StoppedAtReads(s.records, rsid, p, i, RedeliverMutation(s, k, b).value.1.value, j);
      }
    }
  }

  lemma DecidedStepsRead(s: Sem, rsid: string, p: BatchPayload, identity: string, sorted: bool, next: Sem, ds: seq<StepDecision>, j: nat)
    requires SemInv(s) && AcceptBatchInvocations(s, rsid, p, identity, sorted) == Success((next, StepsDecided(ds)))
    requires j < |ds| && IsReexecute(ds[j])
    ensures |ds| == |p.steps| && StepsStored(s.records, rsid, p) && j == FirstOpen(s.records, rsid, p, 0)
    ensures Dispatched(s, next, StepKey(rsid, p, j))
  {
    assert StepsStored(s.records, rsid, p);
    RedeliveredStepsRead(s, rsid, p, next, ds, j);
  }

  lemma {:induction false} ReexecutedAtMostOne(rsid: string, p: BatchPayload, ds: seq<StepDecision>, n: nat, only: nat)
    requires n <= |ds| && n <= |p.steps|
    requires forall j :: 0 <= j < |ds| && IsReexecute(ds[j]) ==> j == only
    ensures Reexecuted(rsid, p, ds, n) ==
      if only < n && IsReexecute(ds[only]) then [StepKey(rsid, p, only)] else []
  {
    if n > 0 { ReexecutedAtMostOne(rsid, p, ds, n - 1, only); }
  }

  lemma BatchReads(s: Sem, rsid: string, p: BatchPayload, identity: string, sorted: bool, next: Sem, ds: seq<StepDecision>)
    requires SemInv(s) && AcceptBatchInvocations(s, rsid, p, identity, sorted) == Success((next, StepsDecided(ds)))
    requires |ds| == |p.steps| && Kept(s, next)
    ensures SemStep(s, next, Reexecuted(rsid, p, ds, |p.steps|))
  {
    if j :| 0 <= j < |ds| && IsReexecute(ds[j]) {
      DecidedStepsRead(s, rsid, p, identity, sorted, next, ds, j);
      forall i | 0 <= i < |ds| && IsReexecute(ds[i]) ensures i == j {
        DecidedStepsRead(s, rsid, p, identity, sorted, next, ds, i);
      }
      ReexecutedAtMostOne(rsid, p, ds, |p.steps|, j);
    } else {
      ReexecutedAtMostOne(rsid, p, ds, |p.steps|, |ds|);
    }
  }

  lemma {:induction false} ClaimedStepsDiffer(records: Records, rsid: string, p: BatchPayload, n: nat, i: nat, j: nat)
    requires i < j < n <= |p.steps| && ClaimSteps(records, rsid, p, n).Success?
    ensures StepKey(rsid, p, i) != StepKey(rsid, p, j)
  {
    if j < n - 1 {
      ClaimedStepsDiffer(records, rsid, p, n - 1, i, j);
    } else {
      ClaimStepsConsume(records, rsid, p, j, i);
    }
  }

  lemma AtomicSends(s: Sem, rsid: string, p: BatchPayload)
    requires SemInv(s) && ClaimAtomicBatch(s, rsid, p).Success? && s.batches[p.batchId].payload.atomic
    ensures SemStep(s, ClaimAtomicBatch(s, rsid, p).value, StepKeys(rsid, p))
  {
    var next := ClaimAtomicBatch(s, rsid, p).value;
    ClaimAtomicKeepsInv(s, rsid, p);
    forall i | 0 <= i < |p.steps| ensures Dispatched(s, next, StepKeys(rsid, p)[i]) {
      ClaimStepsConsume(s.records, rsid, p, |p.steps|, i);
      ReceivedBefore(s, s, StepKey(rsid, p, i));
    }
    forall i, j | 0 <= i < j < |p.steps| ensures StepKey(rsid, p, i) != StepKey(rsid, p, j) {
      ClaimedStepsDiffer(s.records, rsid, p, |p.steps|, i, j);
    }
  }

  /** Two steps in a row: what the second one sends could be sent from the start. */
  lemma Compose(a: Sem, b: Sem, c: Sem, sends: seq<Key>)
    requires SemInv(a) && Kept(a, b) && SemStep(b, c, sends)
    ensures SemStep(a, c, sends)
  {
    KeptTransitive(a, b, c);
    forall i | 0 <= i < |sends| ensures Dispatched(a, c, sends[i]) {
      var k := sends[i];
      if k in a.records { CompletedAdvances(a.records[k], b.records[k]); }
    }
  }

  lemma BoundBatch(s: Sem, rsid: string, p: BatchPayload)
    requires SemInv(s) && AcceptBatchBinding(s, rsid, p).Some?
    ensures var bound := AcceptBatchBinding(s, rsid, p).value;
            && Kept(s, bound) && p.batchId in bound.batches
            && bound.batches[p.batchId].rsid == rsid && bound.batches[p.batchId].payload == p
  {
    if p.batchId !in s.batches { NewBatchKeepsInv(s, Batch(rsid, p, BatchReceived, None)); } else { OneKeepsInvRefl(s); }
  }

  lemma AtomicBatchSends(s: Sem, mid: Sem, rsid: string, p: BatchPayload)
    requires SemInv(s) && Kept(s, mid) && p.batchId in mid.batches && mid.batches[p.batchId].payload.atomic
    requires ClaimAtomicBatch(mid, rsid, p).Success?
    ensures var claimed := ClaimAtomicBatch(mid, rsid, p).value;
            SemStep(s, claimed, StepKeys(rsid, p)) && SemStep(s, claimed, [])
  {
    var claimed := ClaimAtomicBatch(mid, rsid, p).value;
    AtomicSends(mid, rsid, p);
    Compose(s, mid, claimed, StepKeys(rsid, p));
    Quietly(s, claimed);
  }

  lemma BatchSends(s: Sem, rsid: string, p: BatchPayload, identity: string, sorted: bool, cut: nat)
    requires SemInv(s) && AcceptBatch(s, rsid, p, identity, sorted).Success?
    ensures var (mid, d) := AcceptBatch(s, rsid, p, identity, sorted).value;
            var (next, sends) := SendBatch(mid, rsid, p, d, cut);
            SemStep(s, next, sends)
  {
    var (mid, d) := AcceptBatch(s, rsid, p, identity, sorted).value;
    AcceptBatchKeepsInv(s, rsid, p, identity, sorted);
    Quietly(s, mid);
    if d.StepsDecided? && |d.steps| == |p.steps| {
      BoundBatch(s, rsid, p);
      var bound := AcceptBatchBinding(s, rsid, p).value;
      AcceptBatchInvocationsKeepsInv(bound, rsid, p, identity, sorted);
      if p.atomic {
        assert BatchAdvances(bound.batches[p.batchId], mid.batches[p.batchId]);
        if ClaimAtomicBatch(mid, rsid, p).Success? { AtomicBatchSends(s, mid, rsid, p); }
      } else {
        BatchReads(bound, rsid, p, identity, sorted, mid, d.steps);
        Compose(s, bound, mid, Reexecuted(rsid, p, d.steps, |p.steps|));
      }
    }
  }

  lemma StepSends(s: Sem, b: Binding, identity: string)
    requires SemInv(s) && ClaimStep(s, b, identity).Success?
    ensures var (next, claimed) := ClaimStep(s, b, identity).value;
            SemStep(s, next, if claimed then [KeyOf(b)] else [])
  {
    ClaimStepKeepsInv(s, b, identity);
    if ClaimStep(s, b, identity).value.1 { ReceivedBefore(s, s, KeyOf(b)); }
  }
}
