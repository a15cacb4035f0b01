/**
 What the bridge does in the journal with the reply to an atomic batch
 (packages/bridge-simulator/src/bridgeSimulator.ts): validate it, hold what is uncertain,
 journal the rest and commit the batch, each step of which may throw.
 */
module BatchSettlement {
  import opened Wrappers
  import opened JournalRecords
  import opened SemanticTables
  import opened SemanticInvariant
  import opened SemanticSteps
  import opened Journal
  import opened JournalSteps
  import opened JournalRestart
  import opened RestartFailure
  import opened RestartCondition
  import opened Utf16
  import opened CanonicalJson
  import R = BatchReplies
  import B = BridgeBatch
  import F = FixtureBatch
  import BatchAgreement

  // ----- The batch in flight -----

  lemma ExecutingTakes(r: Record, o: Outcome)
    requires RecordInv(r) && r.state.Executing? && OutcomeValid(o) && o.resultDigest.Some?
    ensures RecordTerminal(r, o) == Success(r.(state := Known(o.status), terminal := Some(o)))
  {
  }

  /** The request the add-in was sent is the stored batch. */
  ghost predicate Matches(p: BatchPayload, r: R.Request) {
    && r.batchId == p.batchId && r.digest == p.digest && |r.steps| == |p.steps|
    && forall i :: 0 <= i < |p.steps| ==>
         r.steps[i].invocationId == p.steps[i].invocationId && r.steps[i].mutating == p.steps[i].mutating
  }

  ghost predicate StepInFlight(s: Sem, rsid: string, p: BatchPayload, i: nat)
    requires i < |p.steps|
  {
    var k := StepKey(rsid, p, i);
    k in s.records && s.records[k].binding == StepBinding(rsid, p, i) && s.records[k].state.Executing?
  }

  ghost predicate DistinctKeys(rsid: string, p: BatchPayload) {
    forall i, j :: 0 <= i < j < |p.steps| ==> StepKey(rsid, p, i) != StepKey(rsid, p, j)
  }

  /** The batch is dispatched, and no step of it has been decided yet. */
  ghost predicate InFlight(s: Sem, rsid: string, p: BatchPayload) {
    && p.steps != [] && p.atomic
    && p.batchId in s.batches && s.batches[p.batchId] == Batch(rsid, p, BatchDispatched, None)
    && (forall i :: 0 <= i < |p.steps| ==> StepInFlight(s, rsid, p, i))
    && DistinctKeys(rsid, p)
  }

  lemma {:induction false} ClaimedIsExecuting(records: Records, rsid: string, p: BatchPayload, n: nat, i: nat)
    requires i < n <= |p.steps| && ClaimSteps(records, rsid, p, n).Success?
    ensures var next := ClaimSteps(records, rsid, p, n).value;
            StepKey(rsid, p, i) in next && next[StepKey(rsid, p, i)].state.Executing?
  {
    if i < n - 1 { ClaimedIsExecuting(records, rsid, p, n - 1, i); }
  }

  lemma ClaimedBinding(s: Sem, next: Records, rsid: string, p: BatchPayload, i: nat)
    requires SemInv(s) && i < |p.steps| && p.batchId in s.batches && s.batches[p.batchId].payload == p && s.batches[p.batchId].rsid == rsid
    requires ClaimSteps(s.records, rsid, p, |p.steps|) == Success(next) && RecordsAdvance(s.records, next)
    ensures StepKey(rsid, p, i) in next && next[StepKey(rsid, p, i)].binding == StepBinding(rsid, p, i)
  {
    var k := StepKey(rsid, p, i);
    ClaimStepsConsume(s.records, rsid, p, |p.steps|, i);
    ClaimedRef(s.records, rsid, p, |p.steps|, i);
    assert Advances(s.records[k], next[k]);
    assert RowOfBatch(s.records, s.batches, k);
  }

  lemma {:induction false} ClaimedRef(records: Records, rsid: string, p: BatchPayload, n: nat, i: nat)
    requires i < n <= |p.steps| && ClaimSteps(records, rsid, p, n).Success?
    ensures var next := ClaimSteps(records, rsid, p, n).value;
            StepKey(rsid, p, i) in next && next[StepKey(rsid, p, i)].binding.batch == Some(BatchRef(p.batchId, i, p.digest))
  {
    if i < n - 1 { ClaimedRef(records, rsid, p, n - 1, i); }
  }

  /** The claim of a stored atomic batch leaves it in flight. */
  lemma ClaimLeavesInFlight(s: Sem, rsid: string, p: BatchPayload)
    requires SemInv(s) && ClaimAtomicBatch(s, rsid, p).Success? && s.batches[p.batchId].payload == p && p.atomic
    ensures InFlight(ClaimAtomicBatch(s, rsid, p).value, rsid, p)
  {
    var next := ClaimAtomicBatch(s, rsid, p).value;
    ClaimAtomicKeepsInv(s, rsid, p);
    forall i | 0 <= i < |p.steps| ensures StepInFlight(next, rsid, p, i) {
      ClaimedIsExecuting(s.records, rsid, p, |p.steps|, i);
      ClaimedBinding(s, next.records, rsid, p, i);
    }
    forall i, j | 0 <= i < j < |p.steps| ensures StepKey(rsid, p, i) != StepKey(rsid, p, j) {
      ClaimedStepsDiffer(s.records, rsid, p, |p.steps|, i, j);
    }
  }

  // ----- What the bridge does with a reply -----

  /** The mutations that may have started, in step order. */
  function HeldKeys(rsid: string, p: BatchPayload, r: R.Request, v: B.Validated, n: nat): (keys: seq<Key>)
    requires n <= |p.steps|
  {
    if n == 0 then []
    else
      var rest := HeldKeys(rsid, p, r, v, n - 1);
      if B.IsHeld(r, v, n - 1) then rest + [StepKey(rsid, p, n - 1)] else rest
  }

  /** The steps that get a journal entry, in step order. */
  function KnownSteps(p: BatchPayload, ks: seq<B.Known>, n: nat): (steps: seq<(string, Outcome)>)
    requires n <= |p.steps| && n <= |ks|
  {
    if n == 0 then []
    else
      var rest := KnownSteps(p, ks, n - 1);
      if ks[n - 1].Journaled? then rest + [(p.steps[n - 1].invocationId, ks[n - 1].entry)] else rest
  }

  function AllJournaled(es: seq<Outcome>): (ks: seq<B.Known>)
    ensures |ks| == |es| && forall i :: 0 <= i < |es| ==> ks[i] == B.Journaled(es[i])
  {
    seq(|es|, i requires 0 <= i < |es| => B.Journaled(es[i]))
  }

  /** The last transaction: step outcomes and the batch carrier. */
  function Commit(s: Sem, rsid: string, p: BatchPayload, ks: seq<B.Known>, carrier: string): (r: (Sem, bool)) {
    if |ks| != |p.steps| then (s, false)
    else
      var next := CommitBatchTerminal(s, rsid, p.batchId, p.digest, carrier, KnownSteps(p, ks, |p.steps|));
      if next.Throw? then (s, false) else (next.value, true)
  }

  /** `#commitAtomicTerminalResponse`. */
  function CommitKnown(s: Sem, rsid: string, p: BatchPayload, v: B.Validated, digest: string, store: Value -> string, carrier: string)
    : (r: (Sem, bool))
    requires B.IsKnown(v)
  {
    var es := B.TerminalEntries(v, digest, store);
    if es.Throw? then (s, false) else Commit(s, rsid, p, AllJournaled(es.value), carrier)
  }

  /** `#commitAtomicIndeterminateResponse`: the holds are their own transaction, before the mapping. */
  function CommitUncertain(s: Sem, rsid: string, p: BatchPayload, r: R.Request, v: B.Validated, digest: string,
                           store: Value -> string, carrier: string): (out: (Sem, bool))
    requires |v.rows| == |r.steps|
  {
    var held := MarkIndeterminateMany(s, HeldKeys(rsid, p, r, v, |p.steps|));
    if held.Throw? then (s, false)
    else
      var ks := B.IndeterminateEntries(r, v, digest, store);
      if ks.Throw? then (held.value, false) else Commit(held.value, rsid, p, ks.value, carrier)
  }

  /** A reply without a batch result, or one that is refused, leaves the whole batch uncertain. */
  function GiveUp(s: Sem, rsid: string, p: BatchPayload): (out: (Sem, bool)) {
    var next := MarkAtomicIndeterminate(s, rsid, p);
    if next.Throw? then (s, false) else (next.value, true)
  }

  /** How the reply reached the bridge: its bytes, the negotiated cap and contract version. */
  datatype Arrival = Arrival(version: int, raw: nat, cap: nat, digest: string, carrier: string)

  /** The tables after a reply, and whether handling it ended without a throw. */
  function Receive(s: Sem, rsid: string, p: BatchPayload, r: R.Request, reply: Option<R.Reply>, a: Arrival, store: Value -> string)
    : (out: (Sem, bool))
  {
    if reply.None? then GiveUp(s, rsid, p)
    else
      match B.Verdict(reply.value, r, a.version, a.raw, a.cap)
      case Throw => (s, false)
      case Success(None) => GiveUp(s, rsid, p)
      case Success(Some(v)) =>
        if v.status.Indeterminate? && |v.rows| == |r.steps| then CommitUncertain(s, rsid, p, r, v, a.digest, store, a.carrier)
        else if B.IsKnown(v) then CommitKnown(s, rsid, p, v, a.digest, store, a.carrier)
        else (s, false)
  }

  // ----- Committing -----

  lemma {:induction false} HeldKeysAre(rsid: string, p: BatchPayload, r: R.Request, v: B.Validated, n: nat, k: Key)
    requires n <= |p.steps|
    ensures k in HeldKeys(rsid, p, r, v, n) <==> exists i :: 0 <= i < n && B.IsHeld(r, v, i) && k == StepKey(rsid, p, i)
  {
    if n > 0 {
      HeldKeysAre(rsid, p, r, v, n - 1, k);
      if B.IsHeld(r, v, n - 1) && k == StepKey(rsid, p, n - 1) { assert k in HeldKeys(rsid, p, r, v, n); }
    }
  }

  lemma {:induction false} HeldKeysDistinct(s: Sem, rsid: string, p: BatchPayload, r: R.Request, v: B.Validated, n: nat)
    requires n <= |p.steps| && InFlight(s, rsid, p)
    ensures NoDuplicates(HeldKeys(rsid, p, r, v, n))
  {
    if n > 0 {
      HeldKeysDistinct(s, rsid, p, r, v, n - 1);
      var rest := HeldKeys(rsid, p, r, v, n - 1);
      if B.IsHeld(r, v, n - 1) {
        forall i | 0 <= i < |rest| ensures rest[i] != StepKey(rsid, p, n - 1) {
          assert rest[i] in rest;
          HeldKeysAre(rsid, p, r, v, n - 1, rest[i]);
        }
        AppendDistinct(rest, StepKey(rsid, p, n - 1));
      }
    }
  }

  /** Step `i` gets a journal entry that its record can take. */
  ghost predicate CanTake(records: Records, rsid: string, p: BatchPayload, k: B.Known, i: nat)
    requires i < |p.steps|
  {
    k.Journaled? ==>
      && StepKey(rsid, p, i) in records && RecordInv(records[StepKey(rsid, p, i)])
      && records[StepKey(rsid, p, i)].state.Executing? && OutcomeValid(k.entry) && k.entry.resultDigest.Some?
  }

  predicate IsRecorded(rsid: string, p: BatchPayload, ks: seq<B.Known>, n: nat, k: Key)
    requires n <= |p.steps| && n <= |ks|
  {
    exists i :: 0 <= i < n && ks[i].Journaled? && k == StepKey(rsid, p, i)
  }

  function WithOutcome(r: Record, o: Outcome): (next: Record) {
    r.(state := Known(o.status), terminal := Some(o))
  }

  ghost predicate Recorded(records: Records, rsid: string, p: BatchPayload, ks: seq<B.Known>, n: nat, next: Records)
    requires n <= |p.steps| && n <= |ks|
  {
    && next.Keys == records.Keys
    && (forall i :: 0 <= i < n && ks[i].Journaled? ==>
          && StepKey(rsid, p, i) in records
          && next[StepKey(rsid, p, i)] == WithOutcome(records[StepKey(rsid, p, i)], ks[i].entry))
    && (forall k :: k in records && !IsRecorded(rsid, p, ks, n, k) ==> next[k] == records[k])
  }

  lemma OneMoreEntry(records: Records, rsid: string, p: BatchPayload, ks: seq<B.Known>, n: nat)
    requires 0 < n <= |p.steps| && n <= |ks| && ks[n - 1].Journaled?
    ensures Keyed(rsid, KnownSteps(p, ks, n)) ==
            Keyed(rsid, KnownSteps(p, ks, n - 1)) + [(StepKey(rsid, p, n - 1), ks[n - 1].entry)]
  {
  }

  lemma RecordLast(records: Records, entries: seq<(Key, Outcome)>, k: Key, o: Outcome)
    requires RecordAll(records, entries).Success? && k in RecordAll(records, entries).value
    requires RecordTerminal(RecordAll(records, entries).value[k], o).Success?
    ensures RecordAll(records, entries + [(k, o)])
            == Success(RecordAll(records, entries).value[k := RecordTerminal(RecordAll(records, entries).value[k], o).value])
  {
    assert (entries + [(k, o)])[..|entries|] == entries;
  }

  lemma RecordedStep(records: Records, rsid: string, p: BatchPayload, ks: seq<B.Known>, n: nat, prev: Records)
    requires 0 < n <= |p.steps| && n <= |ks| && DistinctKeys(rsid, p) && StepKey(rsid, p, n - 1) in records
    requires Recorded(records, rsid, p, ks, n - 1, prev)
    ensures prev[StepKey(rsid, p, n - 1)] == records[StepKey(rsid, p, n - 1)]
    ensures ks[n - 1].Held? ==> Recorded(records, rsid, p, ks, n, prev)
    ensures ks[n - 1].Journaled? ==>
      Recorded(records, rsid, p, ks, n, prev[StepKey(rsid, p, n - 1) := WithOutcome(records[StepKey(rsid, p, n - 1)], ks[n - 1].entry)])
  {
    var k := StepKey(rsid, p, n - 1);
    assert !IsRecorded(rsid, p, ks, n - 1, k);
    forall x ensures IsRecorded(rsid, p, ks, n, x) <==> IsRecorded(rsid, p, ks, n - 1, x) || (ks[n - 1].Journaled? && x == k) {}
  }

  /** The entries of the steps are all recorded, each in its own record. */
  lemma {:induction false} EntriesAreRecorded(records: Records, rsid: string, p: BatchPayload, ks: seq<B.Known>, n: nat)
    requires n <= |p.steps| && n <= |ks| && DistinctKeys(rsid, p)
    requires forall i :: 0 <= i < n ==> StepKey(rsid, p, i) in records && CanTake(records, rsid, p, ks[i], i)
    ensures RecordAll(records, Keyed(rsid, KnownSteps(p, ks, n))).Success?
    ensures Recorded(records, rsid, p, ks, n, RecordAll(records, Keyed(rsid, KnownSteps(p, ks, n))).value)
  {
    if n > 0 {
      EntriesAreRecorded(records, rsid, p, ks, n - 1);
      var entries := Keyed(rsid, KnownSteps(p, ks, n - 1));
      var prev, k := RecordAll(records, entries).value, StepKey(rsid, p, n - 1);
      RecordedStep(records, rsid, p, ks, n, prev);
      if ks[n - 1].Journaled? {
        assert CanTake(records, rsid, p, ks[n - 1], n - 1);
        ExecutingTakes(records[k], ks[n - 1].entry);
        OneMoreEntry(records, rsid, p, ks, n);
        RecordLast(records, entries, k, ks[n - 1].entry);
      }
    }
  }

  /** The step is held, or its outcome is recorded. */
  ghost predicate StepSettled(s: Sem, k: Key, known: B.Known) {
    if known.Held? then IsHeld(s, k)
    else k in s.records && s.records[k].terminal == Some(known.entry) && s.records[k].state == Known(known.entry.status)
  }

  /** The commit succeeds when each entry can be taken, and settles those steps. */
  lemma CommitSettles(s: Sem, rsid: string, p: BatchPayload, ks: seq<B.Known>, carrier: string)
    requires |ks| == |p.steps| && DistinctKeys(rsid, p)
    requires p.batchId in s.batches && s.batches[p.batchId] == Batch(rsid, p, BatchDispatched, None)
    requires forall i :: 0 <= i < |p.steps| ==> StepKey(rsid, p, i) in s.records && CanTake(s.records, rsid, p, ks[i], i)
    ensures var (next, ok) := Commit(s, rsid, p, ks, carrier);
            && ok && next.ledger == s.ledger
            && next.batches == s.batches[p.batchId := Batch(rsid, p, BatchTerminal, Some(carrier))]
            && Recorded(s.records, rsid, p, ks, |p.steps|, next.records)
  {
    EntriesAreRecorded(s.records, rsid, p, ks, |p.steps|);
  }

  lemma RecordedIsSettled(s: Sem, rsid: string, p: BatchPayload, ks: seq<B.Known>, next: Sem, i: nat)
    requires i < |p.steps| == |ks| && DistinctKeys(rsid, p) && next.ledger == s.ledger
    requires Recorded(s.records, rsid, p, ks, |p.steps|, next.records)
    requires ks[i].Held? ==> IsHeld(s, StepKey(rsid, p, i))
    ensures StepSettled(next, StepKey(rsid, p, i), ks[i])
  {
    var k := StepKey(rsid, p, i);
    if ks[i].Held? { assert !IsRecorded(rsid, p, ks, |p.steps|, k); }
  }

  lemma StepFacts(s: Sem, rsid: string, p: BatchPayload, r: R.Request, i: nat)
    requires SemInv(s) && InFlight(s, rsid, p) && Matches(p, r) && i < |p.steps|
    ensures var k := StepKey(rsid, p, i);
            && k in s.records && RecordInv(s.records[k]) && s.records[k].state.Executing?
            && s.records[k].dispatchMayHaveStarted && !HasOutcome(s.records[k])
            && s.records[k].binding.mutating == r.steps[i].mutating && k.rsid == rsid
  {
    assert StepInFlight(s, rsid, p, i) && RecordInv(s.records[StepKey(rsid, p, i)]);
  }

  lemma StepsDiffer(rsid: string, p: BatchPayload, r: R.Request)
    requires DistinctKeys(rsid, p) && Matches(p, r)
    ensures B.DistinctSteps(r)
  {
    forall i, j | 0 <= i < j < |r.steps| ensures r.steps[i].invocationId != r.steps[j].invocationId {
      assert StepKey(rsid, p, i) != StepKey(rsid, p, j);
    }
  }

  // ----- Known replies -----

  /** Every step of the batch is settled by what `ok` allows for it. */
  ghost predicate AllSettled(s: Sem, rsid: string, p: BatchPayload, ks: seq<B.Known>) {
    |ks| == |p.steps| && forall i :: 0 <= i < |p.steps| ==> StepSettled(s, StepKey(rsid, p, i), ks[i])
  }

  ghost predicate IsTerminal(s: Sem, rsid: string, p: BatchPayload, carrier: string) {
    p.batchId in s.batches && s.batches[p.batchId] == Batch(rsid, p, BatchTerminal, Some(carrier))
  }

  /** The entries of a known reply, as outcomes the journal takes. */
  ghost predicate EntriesOk(es: seq<Outcome>, reply: R.Reply, digest: string) {
    |es| == |reply.steps| && forall i :: 0 <= i < |es| ==> B.EntryOk(es[i], B.StatusOf(reply.steps[i], false), digest)
  }

  lemma KnownEntriesCommit(s: Sem, rsid: string, p: BatchPayload, r: R.Request, reply: R.Reply, es: seq<Outcome>, digest: string, carrier: string)
    requires SemInv(s) && InFlight(s, rsid, p) && Matches(p, r) && |reply.steps| == |r.steps| && EntriesOk(es, reply, digest)
    ensures var (next, ok) := Commit(s, rsid, p, AllJournaled(es), carrier);
            ok && IsTerminal(next, rsid, p, carrier) && AllSettled(next, rsid, p, AllJournaled(es))
  {
    var ks := AllJournaled(es);
    forall i | 0 <= i < |p.steps| ensures StepKey(rsid, p, i) in s.records && CanTake(s.records, rsid, p, ks[i], i) {
      StepFacts(s, rsid, p, r, i);
    }
    CommitSettles(s, rsid, p, ks, carrier);
    var next := Commit(s, rsid, p, ks, carrier).0;
    forall i | 0 <= i < |p.steps| ensures StepSettled(next, StepKey(rsid, p, i), ks[i]) {
      RecordedIsSettled(s, rsid, p, ks, next, i);
    }
  }

  ghost predicate SettledByReply(s: Sem, rsid: string, p: BatchPayload, reply: R.Reply, digest: string) {
    exists es :: EntriesOk(es, reply, digest) && AllSettled(s, rsid, p, AllJournaled(es))
  }

  /** A known reply is committed whole, or leaves the tables as they were. */
  lemma KnownReplySettles(s: Sem, rsid: string, p: BatchPayload, r: R.Request, reply: R.Reply, a: Arrival, store: Value -> string)
    requires SemInv(s) && InFlight(s, rsid, p) && Matches(p, r)
    requires B.Valid(reply, r, a.version, a.raw, a.cap) && !reply.status.Indeterminate?
    ensures var (next, ok) := Receive(s, rsid, p, r, Some(reply), a, store);
            && (ok <==> B.MessageSurvives(reply, r)) && (!ok ==> next == s)
            && (ok ==> IsTerminal(next, rsid, p, a.carrier) && SettledByReply(next, rsid, p, reply, a.digest))
  {
    var v := B.Accepted(reply, r, a.version, a.raw, a.cap).value;
    B.AcceptsExactlyValid(reply, r, a.version, a.raw, a.cap);
    B.TerminalEntriesIff(reply, r, a.version, a.raw, a.cap, a.digest, store);
    var es := B.TerminalEntries(v, a.digest, store);
    if es.Success? { KnownEntriesCommit(s, rsid, p, r, reply, es.value, a.digest, a.carrier); }
  }

  // ----- Indeterminate replies -----

  lemma HeldKeysOk(s: Sem, rsid: string, p: BatchPayload, r: R.Request, v: B.Validated, i: nat)
    requires SemInv(s) && InFlight(s, rsid, p) && Matches(p, r) && B.IsHeld(r, v, i)
    ensures GroupOk(s.records, HeldKeys(rsid, p, r, v, |p.steps|))
  {
    var keys := HeldKeys(rsid, p, r, v, |p.steps|);
    HeldKeysDistinct(s, rsid, p, r, v, |p.steps|);
    HeldKeysAre(rsid, p, r, v, |p.steps|, StepKey(rsid, p, i));
    forall k | k in keys ensures IsInterrupted(s.records, k) && k.rsid == rsid {
      HeldKeysAre(rsid, p, r, v, |p.steps|, k);
      var j :| 0 <= j < |p.steps| && B.IsHeld(r, v, j) && k == StepKey(rsid, p, j);
      StepFacts(s, rsid, p, r, j);
    }
    assert keys[0] in keys;
  }

  /** Step `i` is a mutation that may have started. */
  predicate MayHaveRun(r: R.Request, reply: R.Reply, i: nat) {
    i < |r.steps| && i < |reply.steps| && r.steps[i].mutating && !reply.steps[i].execution.NotStarted?
  }

  /** No hold stands in the way of a mutation that may have started. */
  ghost predicate NoneBlocked(s: Sem, rsid: string, p: BatchPayload, r: R.Request, reply: R.Reply) {
    forall i :: 0 <= i < |p.steps| && MayHaveRun(r, reply, i) ==> !HoldBlocks(s, StepKey(rsid, p, i))
  }

  lemma NoneBlockedIs(s: Sem, rsid: string, p: BatchPayload, r: R.Request, v: B.Validated, reply: R.Reply)
    requires v.rows == reply.steps && |reply.steps| == |r.steps| == |p.steps|
    ensures NoneBlocked(s, rsid, p, r, reply) <==> forall k :: k in HeldKeys(rsid, p, r, v, |p.steps|) ==> !HoldBlocks(s, k)
  {
    var keys := HeldKeys(rsid, p, r, v, |p.steps|);
    forall k ensures k in keys <==> exists i :: 0 <= i < |p.steps| && B.IsHeld(r, v, i) && k == StepKey(rsid, p, i) {
      HeldKeysAre(rsid, p, r, v, |p.steps|, k);
    }
    if NoneBlocked(s, rsid, p, r, reply) {
      forall k | k in keys ensures !HoldBlocks(s, k) {
        var i :| 0 <= i < |p.steps| && B.IsHeld(r, v, i) && k == StepKey(rsid, p, i);
        assert MayHaveRun(r, reply, i);
      }
    } else {
      var i :| 0 <= i < |p.steps| && MayHaveRun(r, reply, i) && HoldBlocks(s, StepKey(rsid, p, i));
      assert B.IsHeld(r, v, i);
      assert StepKey(rsid, p, i) in keys;
    }
  }

  lemma MarkedIsHeld(s: Sem, mid: Sem, k: Key)
    requires SemInv(mid) && RecordsAdvance(s.records, mid.records) && k in s.records && s.records[k].binding.mutating
    requires k in mid.records && mid.records[k].state.Indeterminate?
    ensures IsHeld(mid, k)
  {
    assert RecordInv(mid.records[k]) && Advances(s.records[k], mid.records[k]);
  }

  /** Promoting a session's interrupted mutations holds each of them and touches nothing else. */
  lemma GroupIsHeld(s: Sem, g: seq<Key>)
    requires SemInv(s) && GroupOk(s.records, g) && MarkIndeterminateMany(s, g).Success?
    ensures var mid := MarkIndeterminateMany(s, g).value;
            && Kept(s, mid) && mid.batches == s.batches && mid.records.Keys == s.records.Keys
            && (forall k :: k in g ==> IsHeld(mid, k))
            && (forall k :: k in s.records && k !in g ==> mid.records[k] == s.records[k])
  {
    var mid := MarkIndeterminateMany(s, g).value;
    GroupEffect(s, g);
    IndeterminateKeepsInv(s, g);
    forall k | k in g ensures IsHeld(mid, k) {
      assert IsInterrupted(s.records, k) && k in mid.records.Keys;
      MarkedIsHeld(s, mid, k);
    }
  }

  /** What holding the mutations that may have started leaves. */
  ghost predicate HoldsStored(s: Sem, mid: Sem, rsid: string, p: BatchPayload, r: R.Request, reply: R.Reply) {
    && Kept(s, mid) && mid.batches == s.batches && mid.records.Keys == s.records.Keys
    && (forall i :: 0 <= i < |p.steps| && MayHaveRun(r, reply, i) ==> IsHeld(mid, StepKey(rsid, p, i)))
    && (forall i :: 0 <= i < |p.steps| && !MayHaveRun(r, reply, i) && StepKey(rsid, p, i) in s.records ==>
          mid.records[StepKey(rsid, p, i)] == s.records[StepKey(rsid, p, i)])
  }

  lemma HeldIffMayHaveRun(rsid: string, p: BatchPayload, r: R.Request, v: B.Validated, reply: R.Reply, i: nat)
    requires DistinctKeys(rsid, p) && v.rows == reply.steps && |reply.steps| == |r.steps| == |p.steps| && i < |p.steps|
    ensures StepKey(rsid, p, i) in HeldKeys(rsid, p, r, v, |p.steps|) <==> MayHaveRun(r, reply, i)
  {
    HeldKeysAre(rsid, p, r, v, |p.steps|, StepKey(rsid, p, i));
    if MayHaveRun(r, reply, i) { assert B.IsHeld(r, v, i); }
  }

  lemma HoldingStores(s: Sem, rsid: string, p: BatchPayload, r: R.Request, v: B.Validated, reply: R.Reply, i: nat)
    requires SemInv(s) && InFlight(s, rsid, p) && Matches(p, r) && B.IsHeld(r, v, i)
    requires v.rows == reply.steps && |reply.steps| == |r.steps|
    ensures var mid := MarkIndeterminateMany(s, HeldKeys(rsid, p, r, v, |p.steps|));
            && (mid.Success? <==> NoneBlocked(s, rsid, p, r, reply))
            && (mid.Success? ==> HoldsStored(s, mid.value, rsid, p, r, reply))
  {
    var keys := HeldKeys(rsid, p, r, v, |p.steps|);
    HeldKeysOk(s, rsid, p, r, v, i);
    GroupClassifiesIff(s, keys);
    NoneBlockedIs(s, rsid, p, r, v, reply);
    if MarkIndeterminateMany(s, keys).Success? {
      GroupIsHeld(s, keys);
      forall j | 0 <= j < |p.steps| ensures StepKey(rsid, p, j) in keys <==> MayHaveRun(r, reply, j) {
        HeldIffMayHaveRun(rsid, p, r, v, reply, j);
      }
    }
  }

  ghost predicate KnownsOk(ks: seq<B.Known>, reply: R.Reply, r: R.Request, digest: string) {
    |ks| == |reply.steps| == |r.steps| && forall i :: 0 <= i < |ks| ==> B.KnownOk(ks[i], reply, r, digest, i)
  }

  lemma UncertainEntriesCommit(s: Sem, mid: Sem, rsid: string, p: BatchPayload, r: R.Request, reply: R.Reply, ks: seq<B.Known>, digest: string, carrier: string)
    requires SemInv(s) && InFlight(s, rsid, p) && Matches(p, r) && KnownsOk(ks, reply, r, digest)
    requires HoldsStored(s, mid, rsid, p, r, reply)
    ensures var (next, ok) := Commit(mid, rsid, p, ks, carrier);
            ok && IsTerminal(next, rsid, p, carrier) && AllSettled(next, rsid, p, ks)
  {
    forall i | 0 <= i < |p.steps|
      ensures StepKey(rsid, p, i) in mid.records && CanTake(mid.records, rsid, p, ks[i], i)
      ensures ks[i].Held? ==> IsHeld(mid, StepKey(rsid, p, i))
    {
      StepFacts(s, rsid, p, r, i);
      assert B.KnownOk(ks[i], reply, r, digest, i) && StepKey(rsid, p, i) in mid.records.Keys;
    }
    CommitSettles(mid, rsid, p, ks, carrier);
    var next := Commit(mid, rsid, p, ks, carrier).0;
    forall i | 0 <= i < |p.steps| ensures StepSettled(next, StepKey(rsid, p, i), ks[i]) {
      RecordedIsSettled(mid, rsid, p, ks, next, i);
    }
  }

  ghost predicate SettledByUncertain(s: Sem, rsid: string, p: BatchPayload, r: R.Request, reply: R.Reply, digest: string) {
    exists ks :: KnownsOk(ks, reply, r, digest) && AllSettled(s, rsid, p, ks)
  }

  lemma ReplyHasStarted(reply: R.Reply, r: R.Request, v: B.Validated, a: Arrival) returns (i: nat)
    requires B.Valid(reply, r, a.version, a.raw, a.cap) && reply.status.Indeterminate? && v.rows == reply.steps
    ensures B.IsHeld(r, v, i)
  {
    i :| 0 <= i < |r.steps| && B.StartedMutation(reply, r, i);
  }

  /**
   An indeterminate reply is settled exactly when no hold stands in the way and the trigger's message
   survives; when only the message does not, the holds are stored and the batch stays dispatched.
   */
  lemma UncertainReplySettles(s: Sem, rsid: string, p: BatchPayload, r: R.Request, reply: R.Reply, a: Arrival, store: Value -> string)
    requires SemInv(s) && InFlight(s, rsid, p) && Matches(p, r)
    requires B.Valid(reply, r, a.version, a.raw, a.cap) && reply.status.Indeterminate?
    ensures var (next, ok) := Receive(s, rsid, p, r, Some(reply), a, store);
            && (ok <==> NoneBlocked(s, rsid, p, r, reply) && B.MessageSurvives(reply, r))
            && (ok ==> IsTerminal(next, rsid, p, a.carrier) && SettledByUncertain(next, rsid, p, r, reply, a.digest))
            && (!NoneBlocked(s, rsid, p, r, reply) ==> next == s)
            && (!ok && NoneBlocked(s, rsid, p, r, reply) ==> HoldsStored(s, next, rsid, p, r, reply))
  {
    var v := B.Accepted(reply, r, a.version, a.raw, a.cap).value;
    B.AcceptsExactlyValid(reply, r, a.version, a.raw, a.cap);
    var i := ReplyHasStarted(reply, r, v, a);
    HoldingStores(s, rsid, p, r, v, reply, i);
    StepsDiffer(rsid, p, r);
    B.IndeterminateEntriesIff(reply, r, a.version, a.raw, a.cap, a.digest, store);
    var held, ks := MarkIndeterminateMany(s, HeldKeys(rsid, p, r, v, |p.steps|)), B.IndeterminateEntries(r, v, a.digest, store);
    if held.Success? && ks.Success? {
      UncertainEntriesCommit(s, held.value, rsid, p, r, reply, ks.value, a.digest, a.carrier);
    }
  }

  // ----- Refused replies -----

  ghost predicate NoMutationBlocked(s: Sem, rsid: string, p: BatchPayload) {
    forall i :: 0 <= i < |p.steps| && p.steps[i].mutating ==> !HoldBlocks(s, StepKey(rsid, p, i))
  }

  lemma {:induction false} OpenStepsAre(records: Records, keys: seq<Key>)
    requires AllPresent(records, keys) && SemanticTables.NoDuplicates(keys)
    requires forall i :: 0 <= i < |keys| ==> records[keys[i]].state.Executing? && !HasOutcome(records[keys[i]])
    ensures forall k :: k in OpenSteps(records, keys) <==> k in keys && records[k].binding.mutating
    ensures SemanticTables.NoDuplicates(OpenSteps(records, keys))
  {
    if keys != [] {
      var n := |keys| - 1;
      var rest := OpenSteps(records, keys[..n]);
      OpenStepsAre(records, keys[..n]);
      assert keys == keys[..n] + [keys[n]];
      forall i | 0 <= i < |rest| ensures rest[i] != keys[n] { assert rest[i] in rest && rest[i] in keys[..n]; }
      AppendDistinct(rest, keys[n]);
    }
  }

  lemma OpenOfBatch(s: Sem, rsid: string, p: BatchPayload, r: R.Request)
    requires SemInv(s) && InFlight(s, rsid, p) && Matches(p, r)
    ensures AllPresent(s.records, StepKeys(rsid, p))
    ensures var open := OpenSteps(s.records, StepKeys(rsid, p));
            && AllOpen(s.records, rsid, open)
            && forall i :: 0 <= i < |p.steps| ==> (StepKey(rsid, p, i) in open <==> p.steps[i].mutating)
  {
    var keys := StepKeys(rsid, p);
    forall i | 0 <= i < |keys|
      ensures keys[i] in s.records && s.records[keys[i]].state.Executing? && !HasOutcome(s.records[keys[i]])
      ensures s.records[keys[i]].binding.mutating == p.steps[i].mutating && keys[i].rsid == rsid
    {
      StepFacts(s, rsid, p, r, i);
    }
    OpenStepsAre(s.records, keys);
    var open := OpenSteps(s.records, keys);
    forall i | 0 <= i < |open| ensures IsOpen(s.records, open[i]) && open[i].rsid == rsid {
      assert open[i] in open && open[i] in keys;
    }
    forall i | 0 <= i < |p.steps| ensures StepKey(rsid, p, i) in open <==> p.steps[i].mutating {
      assert keys[i] in keys && keys[i] == StepKey(rsid, p, i);
    }
  }

  lemma BlockedStepsAre(s: Sem, rsid: string, p: BatchPayload, open: seq<Key>)
    requires forall k :: k in open ==> k in StepKeys(rsid, p)
    requires forall i :: 0 <= i < |p.steps| ==> (StepKey(rsid, p, i) in open <==> p.steps[i].mutating)
    ensures NoMutationBlocked(s, rsid, p) <==> forall i :: 0 <= i < |open| ==> !HoldBlocks(s, open[i])
  {
    if NoMutationBlocked(s, rsid, p) {
      forall i | 0 <= i < |open| ensures !HoldBlocks(s, open[i]) {
        assert open[i] in open && open[i] in StepKeys(rsid, p);
        var j :| 0 <= j < |p.steps| && StepKeys(rsid, p)[j] == open[i];
        assert StepKey(rsid, p, j) == open[i];
      }
    } else {
      var i :| 0 <= i < |p.steps| && p.steps[i].mutating && HoldBlocks(s, StepKey(rsid, p, i));
      var j :| 0 <= j < |open| && open[j] == StepKey(rsid, p, i);
    }
  }

  /** The batch is uncertain as a whole: every mutation of it is held. */
  ghost predicate GivenUp(s: Sem, rsid: string, p: BatchPayload) {
    && p.batchId in s.batches && s.batches[p.batchId] == Batch(rsid, p, BatchIndeterminate, None)
    && forall i :: 0 <= i < |p.steps| && p.steps[i].mutating ==> IsHeld(s, StepKey(rsid, p, i))
  }

  lemma GivingUpPromotes(s: Sem, rsid: string, p: BatchPayload)
    requires InFlight(s, rsid, p) && AllPresent(s.records, StepKeys(rsid, p))
    ensures MarkAtomicIndeterminate(s, rsid, p).Success? <==> Promote(s, rsid, OpenSteps(s.records, StepKeys(rsid, p))).Success?
  {
    forall i | 0 <= i < |p.steps|
      ensures StepKey(rsid, p, i) in s.records
      ensures s.records[StepKey(rsid, p, i)].binding.batch == Some(BatchRef(p.batchId, i, p.digest))
    {
      assert StepInFlight(s, rsid, p, i);
    }
  }

  /** Giving up succeeds exactly when no hold stands in the way of a mutation of the batch. */
  lemma GiveUpIff(s: Sem, rsid: string, p: BatchPayload, r: R.Request)
    requires SemInv(s) && InFlight(s, rsid, p) && Matches(p, r)
    ensures var (next, ok) := GiveUp(s, rsid, p);
            (ok <==> NoMutationBlocked(s, rsid, p)) && (ok ==> GivenUp(next, rsid, p)) && (!ok ==> next == s)
  {
    OpenOfBatch(s, rsid, p, r);
    var open := OpenSteps(s.records, StepKeys(rsid, p));
    GivingUpPromotes(s, rsid, p);
    PromoteIff(s, rsid, open);
    BlockedStepsAre(s, rsid, p, open);
    if MarkAtomicIndeterminate(s, rsid, p).Success? { GiveUpHolds(s, rsid, p, r, open); }
  }

  lemma GiveUpHolds(s: Sem, rsid: string, p: BatchPayload, r: R.Request, open: seq<Key>)
    requires SemInv(s) && InFlight(s, rsid, p) && Matches(p, r) && MarkAtomicIndeterminate(s, rsid, p).Success?
    requires AllPresent(s.records, StepKeys(rsid, p)) && open == OpenSteps(s.records, StepKeys(rsid, p))
    requires forall i :: 0 <= i < |p.steps| ==> (StepKey(rsid, p, i) in open <==> p.steps[i].mutating)
    ensures GivenUp(MarkAtomicIndeterminate(s, rsid, p).value, rsid, p)
  {
    var next := MarkAtomicIndeterminate(s, rsid, p).value;
    AtomicIndeterminateKeepsInv(s, rsid, p);
    PromoteRecords(s, rsid, open);
    forall i | 0 <= i < |p.steps| && p.steps[i].mutating ensures IsHeld(next, StepKey(rsid, p, i)) {
      StepFacts(s, rsid, p, r, i);
      MarkedIsHeld(s, next, StepKey(rsid, p, i));
    }
  }

  // ----- Every reply -----

  /** When handling a reply ends without a throw, said of the reply and of the tables that receive it. */
  ghost predicate Settleable(s: Sem, rsid: string, p: BatchPayload, r: R.Request, reply: Option<R.Reply>, a: Arrival) {
    if reply.Some? && B.Valid(reply.value, r, a.version, a.raw, a.cap) then
      && B.MessageSurvives(reply.value, r)
      && (reply.value.status.Indeterminate? ==> NoneBlocked(s, rsid, p, r, reply.value))
    else
      && (reply.Some? ==> !B.Unmeasurable(reply.value, r, a.version, a.raw, a.cap))
      && NoMutationBlocked(s, rsid, p)
  }

  lemma RefusedReply(s: Sem, rsid: string, p: BatchPayload, r: R.Request, reply: R.Reply, a: Arrival, store: Value -> string)
    requires !B.Valid(reply, r, a.version, a.raw, a.cap)
    ensures Receive(s, rsid, p, r, Some(reply), a, store) ==
            if B.Unmeasurable(reply, r, a.version, a.raw, a.cap) then (s, false) else GiveUp(s, rsid, p)
  {
  }

  /**
   A batch in flight leaves the dispatched state exactly when its reply is settleable: the validator
   does not throw, the trigger's message survives its cut if it is journaled, and no hold stands in the
   way of the mutations to be held.  Otherwise its row is as it was.
   */
  lemma ReplySettlesBatch(s: Sem, rsid: string, p: BatchPayload, r: R.Request, reply: Option<R.Reply>, a: Arrival, store: Value -> string)
    requires SemInv(s) && InFlight(s, rsid, p) && Matches(p, r)
    ensures var (next, ok) := Receive(s, rsid, p, r, reply, a, store);
            && (ok <==> Settleable(s, rsid, p, r, reply, a))
            && p.batchId in next.batches
            && (ok <==> !next.batches[p.batchId].state.BatchDispatched?)
            && (!ok ==> next.batches == s.batches)
  {
    if reply.None? {
      GiveUpIff(s, rsid, p, r);
    } else if !B.Valid(reply.value, r, a.version, a.raw, a.cap) {
      GiveUpIff(s, rsid, p, r);
      RefusedReply(s, rsid, p, r, reply.value, a, store);
    } else if reply.value.status.Indeterminate? {
      UncertainReplySettles(s, rsid, p, r, reply.value, a, store);
    } else {
      KnownReplySettles(s, rsid, p, r, reply.value, a, store);
    }
  }

  // ----- Every batch of the fixture -----

  /** The fixture answered, within the cap, with a reply the bridge does not refuse. */
  predicate Answered(r: R.Request, attempts: seq<F.Attempt>, done: seq<F.HandlerOutcome>, reply: Option<R.Reply>, raw: nat, rollbackFails: bool) {
    && reply.Some? && raw <= r.maxBytes
    && (F.AllDone(done) || BatchAgreement.Agrees(r, attempts, done, rollbackFails))
  }

  /** What settling a batch of the fixture comes down to. */
  ghost predicate FixtureSettleable(s: Sem, rsid: string, p: BatchPayload, r: R.Request, attempts: seq<F.Attempt>,
                                    done: seq<F.HandlerOutcome>, reply: Option<R.Reply>, raw: nat, rollbackFails: bool)
  {
    if !Answered(r, attempts, done, reply, raw, rollbackFails) then NoMutationBlocked(s, rsid, p)
    else if F.AllDone(done) then BatchAgreement.ResultsHaveForms(done)
    else
      && !BatchAgreement.CutBreaks(r, done, rollbackFails)
      && (rollbackFails ==> forall i :: 0 <= i < |done| && RunMutation(r, i) && i < |p.steps| ==> !HoldBlocks(s, StepKey(rsid, p, i)))
  }

  predicate RunMutation(r: R.Request, i: nat) {
    i < |r.steps| && r.steps[i].mutating
  }

  lemma RunIsStarted(s: Sem, rsid: string, p: BatchPayload, r: R.Request, done: seq<F.HandlerOutcome>, message: Text)
    requires 0 < |done| <= |r.steps| == |p.steps|
    ensures NoneBlocked(s, rsid, p, r, F.IndeterminateReply(r, done, message)) <==>
            forall i :: 0 <= i < |done| && RunMutation(r, i) && i < |p.steps| ==> !HoldBlocks(s, StepKey(rsid, p, i))
  {
    var reply := F.IndeterminateReply(r, done, message);
    forall i | 0 <= i < |r.steps| ensures MayHaveRun(r, reply, i) <==> i < |done| && RunMutation(r, i) {}
  }

  lemma FixtureSettleableIs(s: Sem, rsid: string, p: BatchPayload, r: R.Request, attempts: seq<F.Attempt>, executed: seq<F.HandlerOutcome>,
                            contract: R.Reply -> Option<Text>, rollbackFails: bool, message: Text, a: Arrival)
    requires |executed| <= |r.steps| == |p.steps| && BatchAgreement.SettledOk(r, attempts, F.Settled(r, executed, contract))
    requires a.version == R.RESULT_CONTRACT_VERSION && a.cap == r.maxBytes
    ensures var reply := F.ReplyOf(r, executed, contract, rollbackFails, message);
            Settleable(s, rsid, p, r, reply, a) <==>
              FixtureSettleable(s, rsid, p, r, attempts, F.Settled(r, executed, contract), reply, a.raw, rollbackFails)
  {
    var reply, done := F.ReplyOf(r, executed, contract, rollbackFails, message), F.Settled(r, executed, contract);
    if reply.Some? {
      BatchAgreement.SettledReplyAgrees(r, attempts, executed, contract, rollbackFails, message, a.raw);
      B.AcceptsExactlyValid(reply.value, r, a.version, a.raw, a.cap);
      if !F.AllDone(done) {
        BatchAgreement.CutBreaksIs(r, done, rollbackFails, message);
        if rollbackFails { RunIsStarted(s, rsid, p, r, done, message); }
      }
    }
  }

  /**
   End to end: whatever the handlers do, the batch leaves the dispatched state exactly when its results
   have canonical forms, its trigger's journaled message survives, and no hold stands in the way of the
   mutations that must be held.
   */
  lemma FixtureBatchSettles(s: Sem, rsid: string, p: BatchPayload, r: R.Request, attempts: seq<F.Attempt>, size: R.Reply -> nat,
                            contract: R.Reply -> Option<Text>, rollbackFails: bool, message: Text, a: Arrival, store: Value -> string)
    requires SemInv(s) && InFlight(s, rsid, p) && Matches(p, r) && |r.steps| == |attempts|
    requires a.version == R.RESULT_CONTRACT_VERSION && a.cap == r.maxBytes
    requires var reply := F.BatchReply(r, attempts, size, contract, rollbackFails, message); reply.Some? ==> a.raw == size(reply.value)
    ensures var reply := F.BatchReply(r, attempts, size, contract, rollbackFails, message);
            var done := F.Settled(r, F.Executed(r, attempts, size, |r.steps|), contract);
            var (next, ok) := Receive(s, rsid, p, r, reply, a, store);
            && (ok <==> FixtureSettleable(s, rsid, p, r, attempts, done, reply, a.raw, rollbackFails))
            && p.batchId in next.batches && (ok <==> !next.batches[p.batchId].state.BatchDispatched?)
  {
    var executed := F.Executed(r, attempts, size, |r.steps|);
    BatchAgreement.SettledIsOk(r, attempts, size, contract);
    FixtureSettleableIs(s, rsid, p, r, attempts, executed, contract, rollbackFails, message, a);
    ReplySettlesBatch(s, rsid, p, r, F.ReplyOf(r, executed, contract, rollbackFails, message), a, store);
  }

  // ----- A reply that strands the batch -----

  lemma {:induction false} StepIsRow(records: Records, b: Batch, n: nat, i: nat)
    requires i < n <= |b.payload.steps| && StepKey(b.rsid, b.payload, i) in records
    requires records[StepKey(b.rsid, b.payload, i)].binding.batch == Some(BatchRef(b.payload.batchId, i, b.payload.digest))
    ensures StepKey(b.rsid, b.payload, i) in BatchRows(records, b, n)
  {
    if i < n - 1 { StepIsRow(records, b, n - 1, i); }
  }

  lemma BlockedStepStopsRestart(s: Sem, rsid: string, p: BatchPayload, j: nat)
    requires p.batchId in s.batches && s.batches[p.batchId] == Batch(rsid, p, BatchDispatched, None) && p.atomic && j < |p.steps|
    requires StepKey(rsid, p, j) in s.records && s.records[StepKey(rsid, p, j)].binding == StepBinding(rsid, p, j)
    requires p.steps[j].mutating && !s.records[StepKey(rsid, p, j)].state.Indeterminate? && HoldBlocks(s, StepKey(rsid, p, j))
    ensures !Restartable(s)
  {
    var b, k := s.batches[p.batchId], StepKey(rsid, p, j);
    StepIsRow(s.records, b, |p.steps|, j);
    assert k in OpenOf(s, b);
    var i :| 0 <= i < |OpenOf(s, b)| && OpenOf(s, b)[i] == k;
    assert DispatchedAtomic(s, p.batchId) && !BatchReady(s, p.batchId);
  }

  lemma BrokenMessageLeavesHolds(s: Sem, rsid: string, p: BatchPayload, r: R.Request, reply: R.Reply, a: Arrival, store: Value -> string)
    requires SemInv(s) && InFlight(s, rsid, p) && Matches(p, r)
    requires B.Valid(reply, r, a.version, a.raw, a.cap) && reply.status.Indeterminate? && NoneBlocked(s, rsid, p, r, reply)
    requires !B.MessageSurvives(reply, r)
    ensures var v := B.Accepted(reply, r, a.version, a.raw, a.cap).value;
            var keys := HeldKeys(rsid, p, r, v, |p.steps|);
            && GroupOk(s.records, keys)
            && MarkIndeterminateMany(s, keys) == Success(Receive(s, rsid, p, r, Some(reply), a, store).0)
  {
    var v := B.Accepted(reply, r, a.version, a.raw, a.cap).value;
    B.AcceptsExactlyValid(reply, r, a.version, a.raw, a.cap);
    var i := ReplyHasStarted(reply, r, v, a);
    HeldKeysOk(s, rsid, p, r, v, i);
    HoldingStores(s, rsid, p, r, v, reply, i);
    StepsDiffer(rsid, p, r);
    B.IndeterminateEntriesIff(reply, r, a.version, a.raw, a.cap, a.digest, store);
  }

  /** A mutation that never started is blocked by the hold of one that did and conflicts with it. */
  lemma HoldBlocksTheRest(s: Sem, next: Sem, rsid: string, p: BatchPayload, keys: seq<Key>, i: nat, j: nat)
    requires SemInv(s) && InFlight(s, rsid, p) && GroupOk(s.records, keys) && MarkIndeterminateMany(s, keys) == Success(next)
    requires i < |p.steps| && j < |p.steps| && StepKey(rsid, p, i) in keys && StepKey(rsid, p, j) !in keys
    requires ScopesClash(s.records, StepKey(rsid, p, i), StepKey(rsid, p, j)) && p.steps[j].mutating
    ensures SemInv(next) && !Restartable(next)
  {
    var k := StepKey(rsid, p, j);
    assert StepInFlight(s, rsid, p, j);
    GroupIsPromoted(s, keys);
    PromoteBlocks(s, keys[0].rsid, keys, k);
    GroupIsHeld(s, keys);
    BlockedStepStopsRestart(next, rsid, p, j);
  }

  /**
   An indeterminate reply whose journaled message breaks in the cut leaves its holds behind; if one of
   them conflicts with a mutation of the batch that never started, no restart from there succeeds.
   */
  lemma BrokenMessageStrands(s: Sem, rsid: string, p: BatchPayload, r: R.Request, reply: R.Reply, a: Arrival,
                             store: Value -> string, i: nat, j: nat, ids: seq<string>, groups: seq<seq<Key>>)
    requires SemInv(s) && InFlight(s, rsid, p) && Matches(p, r)
    requires B.Valid(reply, r, a.version, a.raw, a.cap) && reply.status.Indeterminate? && NoneBlocked(s, rsid, p, r, reply)
    requires !B.MessageSurvives(reply, r)
    requires i < |p.steps| && j < |p.steps| && MayHaveRun(r, reply, i) && p.steps[j].mutating && !MayHaveRun(r, reply, j)
    requires ScopesClash(s.records, StepKey(rsid, p, i), StepKey(rsid, p, j))
    ensures !RestartSem(Receive(s, rsid, p, r, Some(reply), a, store).0, ids, groups).1
  {
    var v := B.Accepted(reply, r, a.version, a.raw, a.cap).value;
    var keys, next := HeldKeys(rsid, p, r, v, |p.steps|), Receive(s, rsid, p, r, Some(reply), a, store).0;
    BrokenMessageLeavesHolds(s, rsid, p, r, reply, a, store);
    HeldIffMayHaveRun(rsid, p, r, v, reply, i);
    HeldIffMayHaveRun(rsid, p, r, v, reply, j);
    HoldBlocksTheRest(s, next, rsid, p, keys, i, j);
    RestartSucceedsIff(next, ids, groups);
  }
}
