/** Every transaction on the semantic tables keeps the invariant and only advances. */
module SemanticSteps {
  import opened Wrappers
  import opened JournalRecords
  import opened MutationHolds
  import opened SemanticTables
  import opened SemanticInvariant

  /** The transaction, if it commits, keeps the invariant and only advances. */
  ghost predicate Kept(s: Sem, next: Sem) {
    SemInv(next) && SemAdvances(s, next)
  }

  // ----- General updates -----

  /** A row may start now: it is not a step, or its batch is atomic, or its predecessors are completed. */
  ghost predicate Startable(records: Records, batches: map<string, Batch>, k: Key)
    requires k in records
  {
    records[k].binding.batch.Some? ==>
      var ref := records[k].binding.batch.value;
      ref.batchId in batches && !batches[ref.batchId].payload.atomic ==>
        PredecessorsCompleted(records, batches[ref.batchId], ref.index)
  }

  lemma RecordsKeepInv(s: Sem, records: Records)
    requires SemInv(s) && RowsInv(records) && RecordsAdvance(s.records, records) && records.Keys == s.records.Keys
    requires forall k :: k in records ==> records[k].holdId == s.records[k].holdId
    requires forall k :: k in records && records[k].dispatchMayHaveStarted && !s.records[k].dispatchMayHaveStarted ==>
      Startable(s.records, s.batches, k)
    ensures Kept(s, s.(records := records))
  {
    forall k | k in records ensures StartedInOrder(records, s.batches, k) && RowOfBatch(records, s.batches, k) {
      assert StartedInOrder(s.records, s.batches, k);
      forall j: Key | j in records && IsCompleted(s.records[j]) ensures IsCompleted(records[j]) {
        CompletedAdvances(s.records[j], records[j]);
      }
      RowOfBatchKept(s.records, records, s.batches, k);
    }
  }

  lemma OneKeepsInv(s: Sem, k: Key, r: Record)
    requires SemInv(s) && k in s.records && RecordInv(r) && Advances(s.records[k], r)
    requires r.holdId == s.records[k].holdId
    requires r.dispatchMayHaveStarted && !s.records[k].dispatchMayHaveStarted ==> Startable(s.records, s.batches, k)
    ensures Kept(s, s.(records := s.records[k := r]))
  {
    RecordsKeepInv(s, s.records[k := r]);
  }

  lemma LedgerKeepsInv(s: Sem, ledger: Ledger)
    requires SemInv(s) && ledger.order == s.ledger.order && ledger.rows.Keys == s.ledger.rows.Keys
    requires ClearancesBound(ledger)
    ensures Kept(s, s.(ledger := ledger))
  {
  }

  lemma BatchKeepsInv(s: Sem, b: Batch)
    requires SemInv(s) && b.payload.batchId in s.batches && BatchAdvances(s.batches[b.payload.batchId], b)
    requires b.terminal.Some? <==> b.state.BatchTerminal?
    ensures Kept(s, SetBatch(s, b))
  {
    var next := SetBatch(s, b);
    forall k | k in s.records
      ensures RowOfBatch(next.records, next.batches, k) && StartedInOrder(next.records, next.batches, k)
    {
      assert RowOfBatch(s.records, s.batches, k) && StartedInOrder(s.records, s.batches, k);
    }
  }

  lemma NewBatchKeepsInv(s: Sem, b: Batch)
    requires SemInv(s) && b.payload.batchId !in s.batches && b.terminal.None? && !b.state.BatchTerminal?
    ensures Kept(s, SetBatch(s, b))
  {
    var next := SetBatch(s, b);
    forall k | k in s.records
      ensures RowOfBatch(next.records, next.batches, k) && StartedInOrder(next.records, next.batches, k)
    {
      assert RowOfBatch(s.records, s.batches, k) && StartedInOrder(s.records, s.batches, k);
    }
  }

  // ----- Single invocations -----

  lemma SingleCandidate(rsid: string, e: Uncertain)
    ensures CandidateHolds(rsid, [e]) == Success([HoldId(rsid, e.scope, [e.key])])
  {
    assert [e][..0] == [];
    assert GroupByScope(rsid, [e][..0]) == [];
    assert KeysOf([e]) == [e.key];
  }

  /** Promoting one record is installing one hold and marking that record with it. */
  lemma SinglePromotion(s: Sem, k: Key, rsid: string, holds: seq<HoldId>)
    requires k in s.records && s.records[k].binding.mutating && s.records[k].binding.scope.Some?
    ensures AllPresent(s.records, [k])
    ensures UncertainOf(s.records, [k]) == [Uncertain(k, s.records[k].binding.scope.value)]
    ensures MarkIndeterminate(s.records[k], HoldFor(holds, k)).Success? ==>
      MarkAll(s.records, [k], holds) ==
        Success(s.records[k := MarkIndeterminate(s.records[k], HoldFor(holds, k)).value])
  {
    assert [k][..0] == [];
    assert UncertainOf(s.records, [k][..0]) == [];
    assert MarkAll(s.records, [k][..0], holds) == Success(s.records);
  }

  /** A redelivered open mutation takes the hold the ledger gave its key. */
  lemma RedeliveryPromotes(s: Sem, k: Key, b: Binding, installed: Install, holdId: Option<HoldId>)
    requires SemInv(s) && k in s.records && s.records[k].binding == b && b.mutating && k.rsid == b.rsid
    requires !HasOutcome(s.records[k]) && !s.records[k].state.Indeterminate?
    requires InstallHolds(s.ledger, b.rsid, [Uncertain(k, b.scope.value)]) == Success(installed)
    requires holdId == if installed.InstallBlocked? then HoldFor(installed.holds, k) else Some(installed.holds[0])
    requires holdId.Some? && DecideRedelivery(s.records[k], b, holdId).Success?
    ensures var next := s.(records := s.records[k := DecideRedelivery(s.records[k], b, holdId).value.1],
                           ledger := if installed.Installed? then installed.ledger else s.ledger);
            Kept(s, next)
  {
    var e := Uncertain(k, b.scope.value);
    var holds := installed.holds;
    SingleCandidate(b.rsid, e);
    SinglePromotion(s, k, b.rsid, holds);
    assert HoldFor(holds, k) == holdId;
    assert CoverUncertain(s.ledger, b.rsid, [e]).Success?;
    PromoteKeepsInv(s, b.rsid, [k]);
  }

  lemma RedeliverKeepsInv(s: Sem, b: Binding)
    requires SemInv(s) && KeyOf(b) in s.records && b.batch.None? && RedeliverInvocation(s, b).Success?
    ensures Kept(s, RedeliverInvocation(s, b).value.0)
  {
    var k := KeyOf(b);
    var r := s.records[k];
    if b == r.binding {
      if r.binding.mutating && !HasOutcome(r) && !r.state.Indeterminate? {
        var e := Uncertain(k, b.scope.value);
        var installed := InstallHolds(s.ledger, b.rsid, [e]).value;
        SingleCandidate(b.rsid, e);
        if !installed.InstallBlocked? {
          RedeliveryPromotes(s, k, b, installed, Some(installed.holds[0]));
        }
      } else {
        OneKeepsInv(s, k, DecideRedelivery(r, b, None).value.1);
      }
    }
  }

  lemma InsertKeepsInv(s: Sem, b: Binding)
    requires SemInv(s) && KeyOf(b) !in s.records && b.batch.None? && CreateReceived(b).Success?
    ensures Kept(s, s.(records := s.records[KeyOf(b) := CreateReceived(b).value]))
  {
    var r := CreateReceived(b).value;
    var records := s.records[KeyOf(b) := r];
    CreateKeepsInv(b);
    forall k | k in s.records ensures StartedInOrder(records, s.batches, k) && RowOfBatch(records, s.batches, k) {
      OrderKept(s.records, records, s.batches, k);
      RowOfBatchKept(s.records, records, s.batches, k);
    }
  }

  lemma InsertWithLedgerKeepsInv(s: Sem, b: Binding, ledger: Ledger)
    requires SemInv(s) && KeyOf(b) !in s.records && b.batch.None? && CreateReceived(b).Success?
    requires ledger.order == s.ledger.order && ledger.rows.Keys == s.ledger.rows.Keys && ClearancesBound(ledger)
    ensures Kept(s, s.(records := s.records[KeyOf(b) := CreateReceived(b).value], ledger := ledger))
  {
    var mid := s.(ledger := ledger);
    LedgerKeepsInv(s, ledger);
    InsertKeepsInv(mid, b);
    SemAdvancesTransitive(s, mid, mid.(records := s.records[KeyOf(b) := CreateReceived(b).value]));
  }

  lemma AcceptNewKeepsInv(s: Sem, b: Binding, identity: string, sorted: bool)
    requires SemInv(s) && b.batch.None? && KeyOf(b) !in s.records && AcceptInvocation(s, b, identity, sorted).Success?
    ensures Kept(s, AcceptInvocation(s, b, identity, sorted).value.0)
  {
    var (next, decision) := AcceptInvocation(s, b, identity, sorted).value;
    if decision.Accepted? {
      if b.mutating { AuthorizeKeepsHolds(s.ledger, b.rsid, [b.scope.value], b.clearances, sorted, identity); }
      InsertWithLedgerKeepsInv(s, b, next.ledger);
    } else {
      OneKeepsInvRefl(s);
    }
  }

  lemma AcceptKeepsInv(s: Sem, b: Binding, identity: string, sorted: bool)
    requires SemInv(s) && b.batch.None? && AcceptInvocation(s, b, identity, sorted).Success?
    ensures Kept(s, AcceptInvocation(s, b, identity, sorted).value.0)
  {
    if KeyOf(b) in s.records { RedeliverKeepsInv(s, b); } else { AcceptNewKeepsInv(s, b, identity, sorted); }
  }

  lemma ClaimInvocationKeepsInv(s: Sem, k: Key)
    requires SemInv(s) && ClaimInvocation(s, k).Success? && s.records[k].binding.batch.None?
    ensures Kept(s, ClaimInvocation(s, k).value)
  {
    OneKeepsInv(s, k, MarkExecuting(s.records[k]).value);
  }

  lemma IndeterminateKeepsInv(s: Sem, keys: seq<Key>)
    requires SemInv(s) && MarkIndeterminateMany(s, keys).Success?
    ensures Kept(s, MarkIndeterminateMany(s, keys).value)
  {
    if MarkIndeterminateMany(s, keys).value != s {
      PromoteKeepsInv(s, keys[0].rsid, keys);
    }
  }

  // ----- Atomic batches -----

  lemma {:induction false} BatchRowsOf(records: Records, b: Batch, n: nat)
    requires n <= |b.payload.steps|
    ensures forall k :: k in BatchRows(records, b, n) ==> k.rsid == b.rsid
  {
    if n > 0 {
      BatchRowsOf(records, b, n - 1);
    }
  }

  lemma ClassifyBatchKeepsInv(s: Sem, batchId: string)
    requires SemInv(s) && ClassifyBatch(s, batchId).Success?
    ensures Kept(s, ClassifyBatch(s, batchId).value)
  {
    if DispatchedAtomic(s, batchId) {
      var b := s.batches[batchId];
      var open := OpenMutations(s.records, BatchRows(s.records, b, |b.payload.steps|));
      BatchRowsOf(s.records, b, |b.payload.steps|);
      PromoteKeepsInv(s, b.rsid, open);
      var mid := Promote(s, b.rsid, open).value;
      BatchKeepsInv(mid, b.(state := BatchIndeterminate));
      SemAdvancesTransitive(s, mid, ClassifyBatch(s, batchId).value);
    }
  }

  lemma AtomicIndeterminateKeepsInv(s: Sem, rsid: string, p: BatchPayload)
    requires SemInv(s) && MarkAtomicIndeterminate(s, rsid, p).Success?
    ensures Kept(s, MarkAtomicIndeterminate(s, rsid, p).value)
  {
    var b := s.batches[p.batchId];
    var open := OpenSteps(s.records, StepKeys(rsid, p));
    forall k | k in open ensures k.rsid == rsid {
      var i :| 0 <= i < |StepKeys(rsid, p)| && StepKeys(rsid, p)[i] == k;
      assert k == StepKey(rsid, p, i);
    }
    PromoteKeepsInv(s, rsid, open);
    var mid := Promote(s, rsid, open).value;
    BatchKeepsInv(mid, b.(state := BatchIndeterminate));
    SemAdvancesTransitive(s, mid, MarkAtomicIndeterminate(s, rsid, p).value);
  }

  lemma {:induction false} ClaimStepsKeepInv(s: Sem, rsid: string, p: BatchPayload, n: nat)
    requires SemInv(s) && p.batchId in s.batches && s.batches[p.batchId].payload.atomic && n <= |p.steps|
    requires ClaimSteps(s.records, rsid, p, n).Success?
    ensures Kept(s, s.(records := ClaimSteps(s.records, rsid, p, n).value))
  {
    if n == 0 {
      OneKeepsInvRefl(s);
    } else {
      ClaimStepsKeepInv(s, rsid, p, n - 1);
      var mid := s.(records := ClaimSteps(s.records, rsid, p, n - 1).value);
      var k := StepKey(rsid, p, n - 1);
      var r := MarkExecuting(mid.records[k]).value;
      OneKeepsInv(mid, k, r);
      SemAdvancesTransitive(s, mid, mid.(records := mid.records[k := r]));
    }
  }

  /** Each claimed step was received before the claim and no longer is after it. */
  lemma {:induction false} ClaimStepsConsume(records: Records, rsid: string, p: BatchPayload, n: nat, i: nat)
    requires i < n <= |p.steps| && ClaimSteps(records, rsid, p, n).Success?
    ensures StepKey(rsid, p, i) in records && records[StepKey(rsid, p, i)].state.Received?
    ensures var next := ClaimSteps(records, rsid, p, n).value;
            && StepKey(rsid, p, i) in next && !next[StepKey(rsid, p, i)].state.Received?
            && next[StepKey(rsid, p, i)].dispatchMayHaveStarted
  {
    ClaimStepsKeys(records, rsid, p, n - 1);
    if i < n - 1 {
      ClaimStepsConsume(records, rsid, p, n - 1, i);
    }
    ClaimStepsBackward(records, rsid, p, n - 1, StepKey(rsid, p, n - 1));
  }

  lemma {:induction false} ClaimStepsBackward(records: Records, rsid: string, p: BatchPayload, n: nat, k: Key)
    requires n <= |p.steps| && ClaimSteps(records, rsid, p, n).Success? && k in records
    requires k in ClaimSteps(records, rsid, p, n).value && ClaimSteps(records, rsid, p, n).value[k].state.Received?
    ensures records[k].state.Received?
  {
    if n > 0 {
      ClaimStepsKeys(records, rsid, p, n - 1);
      ClaimStepsBackward(records, rsid, p, n - 1, k);
    }
  }

  lemma OneKeepsInvRefl(s: Sem)
    requires SemInv(s)
    ensures Kept(s, s)
  {
  }

  lemma {:induction false} ClaimStepsKeys(records: Records, rsid: string, p: BatchPayload, n: nat)
    requires n <= |p.steps| && ClaimSteps(records, rsid, p, n).Success?
    ensures ClaimSteps(records, rsid, p, n).value.Keys == records.Keys
  {
    if n > 0 {
      ClaimStepsKeys(records, rsid, p, n - 1);
    }
  }

  lemma ClaimAtomicKeepsInv(s: Sem, rsid: string, p: BatchPayload)
    requires SemInv(s) && ClaimAtomicBatch(s, rsid, p).Success? && s.batches[p.batchId].payload.atomic
    ensures Kept(s, ClaimAtomicBatch(s, rsid, p).value)
  {
    ClaimStepsKeepInv(s, rsid, p, |p.steps|);
    var mid := s.(records := ClaimSteps(s.records, rsid, p, |p.steps|).value);
    BatchKeepsInv(mid, s.batches[p.batchId].(state := BatchDispatched));
    SemAdvancesTransitive(s, mid, ClaimAtomicBatch(s, rsid, p).value);
  }

  lemma CommitKeepsInv(s: Sem, rsid: string, batchId: string, digest: string, terminal: string,
                       steps: seq<(string, Outcome)>)
    requires SemInv(s) && CommitBatchTerminal(s, rsid, batchId, digest, terminal, steps).Success?
    ensures Kept(s, CommitBatchTerminal(s, rsid, batchId, digest, terminal, steps).value)
  {
    var b := s.batches[batchId];
    if b.terminal.None? {
      RecordTerminalsKeepsInv(s, Keyed(rsid, steps));
      var mid := RecordTerminals(s, Keyed(rsid, steps)).value;
      BatchKeepsInv(mid, b.(state := BatchTerminal, terminal := Some(terminal)));
      SemAdvancesTransitive(s, mid, CommitBatchTerminal(s, rsid, batchId, digest, terminal, steps).value);
    }
  }

  lemma CommitLateKeepsInv(s: Sem, rsid: string, batchId: string, digest: string, terminal: string,
                           steps: seq<(string, Outcome)>)
    requires SemInv(s) && CommitLateTerminal(s, rsid, batchId, digest, terminal, steps).Success?
    ensures Kept(s, CommitLateTerminal(s, rsid, batchId, digest, terminal, steps).value)
  {
    var next := CommitLateTerminal(s, rsid, batchId, digest, terminal, steps).value;
    if s.batches[batchId].terminal.None? {
      assert CommitBatchTerminal(s, rsid, batchId, digest, terminal, steps) == Success(next);
      CommitKeepsInv(s, rsid, batchId, digest, terminal, steps);
    }
  }

  // ----- Non-atomic batches -----

  /** The journal's prefix check covers every earlier step of the payload. */
  lemma PrefixCovers(s: Sem, b: Binding)
    requires SemInv(s) && KeyOf(b) in s.records && s.records[KeyOf(b)].binding == b && b.batch.Some?
    requires PrefixCompleted(s.records, b.rsid, b.batch.value)
    ensures Startable(s.records, s.batches, KeyOf(b))
  {
    var ref := b.batch.value;
    var batch := s.batches[ref.batchId];
    assert RowOfBatch(s.records, s.batches, KeyOf(b));
    forall j | 0 <= j < ref.index && j < |batch.payload.steps|
      ensures StepKey(batch.rsid, batch.payload, j) in s.records
      ensures IsCompleted(s.records[StepKey(batch.rsid, batch.payload, j)])
    {
      var k := StepKey(batch.rsid, batch.payload, j);
      assert s.records[k].binding == StepBinding(batch.rsid, batch.payload, j);
      assert s.records[k].binding.batch.value.index < ref.index;
    }
  }

  lemma ClaimStepKeepsInv(s: Sem, b: Binding, identity: string)
    requires SemInv(s) && ClaimStep(s, b, identity).Success?
    ensures Kept(s, ClaimStep(s, b, identity).value.0)
  {
    var (next, claimed) := ClaimStep(s, b, identity).value;
    if claimed {
      var k := KeyOf(b);
      PrefixCovers(s, b);
      if b.mutating {
        AuthorizeKeepsHolds(s.ledger, b.rsid, [b.scope.value], [], true, identity);
      }
      var mid := s.(records := next.records);
      OneKeepsInv(s, k, next.records[k]);
      LedgerKeepsInv(mid, next.ledger);
      assert next == mid.(ledger := next.ledger);
      SemAdvancesTransitive(s, mid, next);
    }
  }

  lemma {:induction false} InsertStepsEffect(records: Records, rsid: string, p: BatchPayload, n: nat)
    requires n <= |p.steps| && InsertSteps(records, rsid, p, n).Success?
    ensures var next := InsertSteps(records, rsid, p, n).value;
            && (forall k :: k in records ==> k in next && next[k] == records[k])
            && (forall i :: 0 <= i < n ==>
                  StepKey(rsid, p, i) in next
                  && CreateReceived(StepBinding(rsid, p, i)) == Success(next[StepKey(rsid, p, i)]))
  {
    if n > 0 {
      InsertStepsEffect(records, rsid, p, n - 1);
    }
  }

  lemma {:induction false} InsertStepsOrigin(records: Records, rsid: string, p: BatchPayload, n: nat, k: Key)
    returns (i: nat)
    requires n <= |p.steps| && InsertSteps(records, rsid, p, n).Success?
    requires k in InsertSteps(records, rsid, p, n).value && k !in records
    ensures i < n && k == StepKey(rsid, p, i)
  {
    i := n - 1;
    if k != StepKey(rsid, p, n - 1) {
      i := InsertStepsOrigin(records, rsid, p, n - 1, k);
    }
  }

  lemma InsertStepsRow(s: Sem, records: Records, rsid: string, p: BatchPayload, k: Key)
    requires SemInv(s) && p.batchId in s.batches && s.batches[p.batchId].rsid == rsid
    requires s.batches[p.batchId].payload == p && InsertSteps(s.records, rsid, p, |p.steps|) == Success(records)
    requires k in records
    ensures RecordInv(records[k]) && KeyOf(records[k].binding) == k
    ensures StartedInOrder(records, s.batches, k) && RowOfBatch(records, s.batches, k)
    ensures k in s.records || records[k].holdId.None?
  {
    InsertStepsEffect(s.records, rsid, p, |p.steps|);
    if k in s.records {
      assert RecordsAdvance(s.records, records);
      OrderKept(s.records, records, s.batches, k);
      RowOfBatchKept(s.records, records, s.batches, k);
    } else {
      var i := InsertStepsOrigin(s.records, rsid, p, |p.steps|, k);
      CreateKeepsInv(StepBinding(rsid, p, i));
      assert records[k].binding == StepBinding(rsid, p, i);
      forall j | 0 <= j < |p.steps|
        ensures StepKey(rsid, p, j) in records
        ensures records[StepKey(rsid, p, j)].binding == StepBinding(rsid, p, j)
      {
        assert CreateReceived(StepBinding(rsid, p, j)) == Success(records[StepKey(rsid, p, j)]);
      }
    }
  }

  /** New rows without holds, beside rows that stay as they were. */
  lemma InsertedKeepsInv(s: Sem, records: Records)
    requires SemInv(s) && (forall k :: k in s.records ==> k in records && records[k] == s.records[k])
    requires forall k :: k in records ==>
      && RecordInv(records[k]) && KeyOf(records[k].binding) == k
      && StartedInOrder(records, s.batches, k) && RowOfBatch(records, s.batches, k)
      && (k in s.records || records[k].holdId.None?)
    ensures Kept(s, s.(records := records))
  {
  }

  lemma InsertStepsKeepsInv(s: Sem, rsid: string, p: BatchPayload)
    requires SemInv(s) && p.batchId in s.batches && s.batches[p.batchId].rsid == rsid
    requires s.batches[p.batchId].payload == p && InsertSteps(s.records, rsid, p, |p.steps|).Success?
    ensures Kept(s, s.(records := InsertSteps(s.records, rsid, p, |p.steps|).value))
  {
    var records := InsertSteps(s.records, rsid, p, |p.steps|).value;
    InsertStepsEffect(s.records, rsid, p, |p.steps|);
    forall k | k in records
      ensures RecordInv(records[k]) && KeyOf(records[k].binding) == k
      ensures StartedInOrder(records, s.batches, k) && RowOfBatch(records, s.batches, k)
      ensures k in s.records || records[k].holdId.None?
    {
      InsertStepsRow(s, records, rsid, p, k);
    }
    InsertedKeepsInv(s, records);
  }

  lemma AcceptNewBatchKeepsInv(s: Sem, rsid: string, p: BatchPayload, identity: string, sorted: bool)
    requires SemInv(s) && p.batchId in s.batches && s.batches[p.batchId].rsid == rsid
    requires s.batches[p.batchId].payload == p && AcceptNewBatch(s, rsid, p, identity, sorted).Success?
    ensures Kept(s, AcceptNewBatch(s, rsid, p, identity, sorted).value.0)
  {
    var (next, decision) := AcceptNewBatch(s, rsid, p, identity, sorted).value;
    if decision.StepsDecided? {
      var scopes := StepScopes(p, |p.steps|);
      if scopes != [] {
        AuthorizeKeepsHolds(s.ledger, rsid, scopes, p.clearances, sorted, identity);
      }
      InsertStepsKeepsInv(s, rsid, p);
      var mid := s.(records := next.records);
      LedgerKeepsInv(mid, next.ledger);
      assert next == mid.(ledger := next.ledger);
      SemAdvancesTransitive(s, mid, next);
    }
  }

  lemma RedeliverStepsKeepsInv(s: Sem, rsid: string, p: BatchPayload)
    requires SemInv(s) && p.batchId in s.batches && s.batches[p.batchId].rsid == rsid
    requires s.batches[p.batchId].payload == p && StepRows(s.records, s.batches[p.batchId])
    requires RedeliverSteps(s, rsid, p).Success?
    ensures Kept(s, RedeliverSteps(s, rsid, p).value.0)
  {
    var i := FirstOpen(s.records, rsid, p, 0);
    if i < |p.steps| {
      var k := StepKey(rsid, p, i);
      var r := s.records[k];
      if HasOutcome(r) || r.state.Indeterminate? || !r.binding.mutating {
        assert PredecessorsCompleted(s.records, s.batches[p.batchId], i);
        assert Startable(s.records, s.batches, k);
        OneKeepsInv(s, k, DecideRedelivery(r, StepBinding(rsid, p, i), None).value.1);
      } else {
        RedeliverMutationKeepsInv(s, k, StepBinding(rsid, p, i));
      }
    }
  }

  lemma RedeliverMutationKeepsInv(s: Sem, k: Key, b: Binding)
    requires SemInv(s) && k in s.records && s.records[k].binding == b && b.mutating
    requires !HasOutcome(s.records[k]) && !s.records[k].state.Indeterminate?
    requires RedeliverMutation(s, k, b).Success?
    ensures Kept(s, RedeliverMutation(s, k, b).value.0)
  {
    var e := Uncertain(k, b.scope.value);
    var installed := InstallHolds(s.ledger, k.rsid, [e]).value;
    SingleCandidate(k.rsid, e);
    OneKeepsInvRefl(s);
    var holdId := if installed.InstallBlocked? then HoldFor(installed.holds, k) else Some(installed.holds[0]);
    if holdId.Some? {
      RedeliveryPromotes(s, k, b, installed, holdId);
    }
  }

  lemma AcceptBatchInvocationsKeepsInv(s: Sem, rsid: string, p: BatchPayload, identity: string, sorted: bool)
    requires SemInv(s) && p.batchId in s.batches && s.batches[p.batchId].rsid == rsid
    requires s.batches[p.batchId].payload == p
    requires AcceptBatchInvocations(s, rsid, p, identity, sorted).Success?
    ensures Kept(s, AcceptBatchInvocations(s, rsid, p, identity, sorted).value.0)
  {
    OneKeepsInvRefl(s);
    if forall i :: 0 <= i < |p.steps| ==> StepKey(rsid, p, i) !in s.records {
      if p.steps != [] {
        AcceptNewBatchKeepsInv(s, rsid, p, identity, sorted);
      }
    } else if StepsStored(s.records, rsid, p) && StepRows(s.records, s.batches[p.batchId]) && !p.atomic {
      RedeliverStepsKeepsInv(s, rsid, p);
    }
  }

  lemma AcceptBatchKeepsInv(s: Sem, rsid: string, p: BatchPayload, identity: string, sorted: bool)
    requires SemInv(s) && AcceptBatch(s, rsid, p, identity, sorted).Success?
    ensures Kept(s, AcceptBatch(s, rsid, p, identity, sorted).value.0)
  {
    var bound := AcceptBatchBinding(s, rsid, p);
    OneKeepsInvRefl(s);
    if bound.Some? {
      if p.batchId !in s.batches {
        NewBatchKeepsInv(s, Batch(rsid, p, BatchReceived, None));
      }
      AcceptBatchInvocationsKeepsInv(bound.value, rsid, p, identity, sorted);
      SemAdvancesTransitive(s, bound.value, AcceptBatch(s, rsid, p, identity, sorted).value.0);
    }
  }

  // ----- Session revocation -----

  lemma {:induction false} UnregisterAllEffect(records: Records, keys: seq<Key>, holds: seq<HoldId>, k: Key)
    requires AllPresent(records, keys) && UnregisterAll(records, keys, holds).Success?
    ensures UnregisterAll(records, keys, holds).value.Keys == records.Keys
    ensures k in records && k !in keys ==> UnregisterAll(records, keys, holds).value[k] == records[k]
    ensures k in keys ==> UnregisterRow(records, holds, k) == Success(UnregisterAll(records, keys, holds).value[k])
  {
    if keys != [] {
      UnregisterAllEffect(records, keys[..|keys| - 1], holds, k);
      assert keys == keys[..|keys| - 1] + [keys[|keys| - 1]];
    }
  }

  lemma UnregisterOne(r: Record, holdId: Option<HoldId>)
    requires RecordInv(r) && r.terminal.None? && !r.state.Indeterminate?
    requires holdId.Some? ==> r.binding.mutating && r.dispatchMayHaveStarted
    requires HandleUnregister(r, !r.dispatchMayHaveStarted, holdId).Success?
    ensures var next := HandleUnregister(r, !r.dispatchMayHaveStarted, holdId).value;
            && RecordInv(next) && Advances(r, next) && r.holdId.None?
            && next.dispatchMayHaveStarted == r.dispatchMayHaveStarted
            && next.holdId == (if r.binding.mutating && r.dispatchMayHaveStarted then holdId else None)
            && !next.state.Received? && !next.state.Executing?
  {
  }

  lemma UnregisterAllAdvances(records: Records, rsid: string, keys: seq<Key>, holds: seq<HoldId>)
    requires RowsInv(records) && ListsRevocable(records, rsid, keys) && UnregisterAll(records, keys, holds).Success?
    ensures var next := UnregisterAll(records, keys, holds).value;
            && RowsInv(next) && RecordsAdvance(records, next) && next.Keys == records.Keys
            && (forall k :: k in next ==> next[k].dispatchMayHaveStarted == records[k].dispatchMayHaveStarted)
            && HoldsAssigned(records, next, MutatingOf(records, StartedOf(records, keys)), holds)
  {
    var next := UnregisterAll(records, keys, holds).value;
    forall k: Key
      ensures next.Keys == records.Keys
      ensures k in keys ==>
        && RecordInv(next[k]) && Advances(records[k], next[k]) && records[k].holdId.None?
        && next[k].dispatchMayHaveStarted == records[k].dispatchMayHaveStarted
        && next[k].holdId == (if records[k].dispatchMayHaveStarted then HoldOf(records, holds, k) else None)
      ensures k in records && k !in keys ==> next[k] == records[k]
    {
      UnregisterAllEffect(records, keys, holds, k);
      if k in keys {
        assert Revocable(records, rsid, k);
        UnregisterOne(records[k], if records[k].dispatchMayHaveStarted then HoldOf(records, holds, k) else None);
      }
    }
  }

  lemma UnregisterKeepsInv(s: Sem, rsid: string, keys: seq<Key>)
    requires SemInv(s) && ListsRevocable(s.records, rsid, keys) && UnregisterRecords(s, rsid, keys).Success?
    ensures Kept(s, UnregisterRecords(s, rsid, keys).value)
  {
    var u := UncertainOf(s.records, StartedOf(s.records, keys));
    var (ledger, holds) := CoverUncertain(s.ledger, rsid, u).value;
    var records := UnregisterAll(s.records, keys, holds).value;
    UnregisterAllAdvances(s.records, rsid, keys, holds);
    UncertainSet(s.records, StartedOf(s.records, keys));
    forall k | k in KeySet(u) ensures k.rsid == rsid {
      assert k in StartedOf(s.records, keys);
      assert Revocable(s.records, rsid, k);
    }
    CoverKeepsTables(s.records, records, s.ledger, rsid, u);
    CoveredKeepsInv(s, records, ledger);
  }

  // ----- Evidence -----

  lemma EvidenceKeepsInv(s: Sem, id: HoldId, e: Evidence)
    requires SemInv(s) && RecordEvidence(s.ledger, id, e).Success?
    ensures Kept(s, s.(ledger := RecordEvidence(s.ledger, id, e).value))
  {
    LedgerKeepsInv(s, RecordEvidence(s.ledger, id, e).value);
  }

  lemma ResolveKeepsInv(s: Sem, id: HoldId, r: Resolution)
    requires SemInv(s) && ResolveHold(s.ledger, id, r).Success?
    ensures Kept(s, s.(ledger := ResolveHold(s.ledger, id, r).value))
  {
    LedgerKeepsInv(s, ResolveHold(s.ledger, id, r).value);
  }
}
