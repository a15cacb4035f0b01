/** What every transaction on the semantic tables keeps. */
module SemanticInvariant {
  import opened Wrappers
  import opened JournalRecords
  import opened MutationHolds
  import opened SemanticTables

  // ----- The invariant -----

  ghost predicate RowsInv(records: Records) {
    forall k :: k in records ==> KeyOf(records[k].binding) == k && RecordInv(records[k])
  }

  /** Holds and indeterminate mutations name each other. */
  ghost predicate HoldsCover(records: Records, l: Ledger) {
    && (forall k :: k in records && records[k].holdId.Some? ==>
          records[k].holdId.value in l.rows && k in records[k].holdId.value.keys)
    && (forall id, k :: id in l.rows && k in id.keys ==> k in records && records[k].holdId == Some(id))
  }

  /** The stored steps of a batch are all the steps of its payload. */
  ghost predicate StepRows(records: Records, b: Batch) {
    forall i :: 0 <= i < |b.payload.steps| ==>
      && StepKey(b.rsid, b.payload, i) in records
      && records[StepKey(b.rsid, b.payload, i)].binding == StepBinding(b.rsid, b.payload, i)
  }

  ghost predicate RowOfBatch(records: Records, batches: map<string, Batch>, k: Key) {
    k in records && records[k].binding.batch.Some? ==>
      var ref := records[k].binding.batch.value;
      && ref.batchId in batches
      && ref.index < |batches[ref.batchId].payload.steps|
      && k == StepKey(batches[ref.batchId].rsid, batches[ref.batchId].payload, ref.index)
      && StepRows(records, batches[ref.batchId])
  }

  ghost predicate BatchesInv(records: Records, batches: map<string, Batch>) {
    && (forall b :: b in batches ==>
          batches[b].payload.batchId == b && (batches[b].terminal.Some? <==> batches[b].state.BatchTerminal?))
    && (forall k :: k in records ==> RowOfBatch(records, batches, k))
  }

  /** Every earlier step of a non-atomic batch has a durable completed outcome. */
  ghost predicate PredecessorsCompleted(records: Records, b: Batch, i: nat) {
    forall j :: 0 <= j < i && j < |b.payload.steps| ==>
      StepKey(b.rsid, b.payload, j) in records && IsCompleted(records[StepKey(b.rsid, b.payload, j)])
  }

  ghost predicate StartedInOrder(records: Records, batches: map<string, Batch>, k: Key) {
    k in records && records[k].dispatchMayHaveStarted && records[k].binding.batch.Some? ==>
      var ref := records[k].binding.batch.value;
      ref.batchId in batches && !batches[ref.batchId].payload.atomic ==>
        PredecessorsCompleted(records, batches[ref.batchId], ref.index)
  }

  ghost predicate OrderInv(records: Records, batches: map<string, Batch>) {
    forall k :: k in records ==> StartedInOrder(records, batches, k)
  }

  ghost predicate SemInv(s: Sem) {
    && RowsInv(s.records)
    && LedgerInv(s.ledger)
    && ClearancesBound(s.ledger)
    && HoldsCover(s.records, s.ledger)
    && BatchesInv(s.records, s.batches)
    && OrderInv(s.records, s.batches)
  }

  // ----- Progress -----

  ghost predicate RecordsAdvance(a: Records, b: Records) {
    forall k :: k in a ==> k in b && Advances(a[k], b[k])
  }

  /** A batch keeps its payload and its terminal carrier, and never returns to an earlier state. */
  predicate BatchAdvances(a: Batch, b: Batch) {
    && b.rsid == a.rsid && b.payload == a.payload
    && (a.terminal.Some? ==> b.terminal == a.terminal)
    && (!a.state.BatchReceived? ==> !b.state.BatchReceived?)
    && (a.state.BatchTerminal? || a.state.BatchIndeterminate? ==> !b.state.BatchDispatched?)
  }

  /** No record, hold or batch row is lost, and none of them loses what it has learnt. */
  ghost predicate SemAdvances(a: Sem, b: Sem) {
    && RecordsAdvance(a.records, b.records)
    && a.ledger.rows.Keys <= b.ledger.rows.Keys
    && forall x :: x in a.batches ==> x in b.batches && BatchAdvances(a.batches[x], b.batches[x])
  }

  lemma SemAdvancesTransitive(a: Sem, b: Sem, c: Sem)
    requires SemAdvances(a, b) && SemAdvances(b, c)
    ensures SemAdvances(a, c)
  {
    forall k | k in a.records ensures k in c.records && Advances(a.records[k], c.records[k]) {
      assert k in b.records;
    }
  }

  // ----- Updates that neither dispatch nor promote -----

  /** The record is kept or changes without touching dispatch or holds. */
  ghost predicate Quiet(a: Record, b: Record) {
    && RecordInv(b) && Advances(a, b)
    && b.holdId == a.holdId && b.dispatchMayHaveStarted == a.dispatchMayHaveStarted
  }

  ghost predicate QuietUpdate(a: Records, b: Records) {
    a.Keys == b.Keys && forall k :: k in a ==> Quiet(a[k], b[k])
  }

  lemma CompletedAdvances(a: Record, b: Record)
    requires Advances(a, b)
    ensures IsCompleted(a) ==> IsCompleted(b)
    ensures HasOutcome(a) ==> HasOutcome(b)
  {
  }

  lemma OrderKept(a: Records, b: Records, batches: map<string, Batch>, k: Key)
    requires RecordsAdvance(a, b) && k in a && StartedInOrder(a, batches, k)
    requires b[k].dispatchMayHaveStarted == a[k].dispatchMayHaveStarted
    ensures StartedInOrder(b, batches, k)
  {
    forall j: Key | j in a ensures IsCompleted(a[j]) ==> j in b && IsCompleted(b[j]) {
      CompletedAdvances(a[j], b[j]);
    }
  }

  lemma RowOfBatchKept(a: Records, b: Records, batches: map<string, Batch>, k: Key)
    requires RecordsAdvance(a, b) && k in a && RowOfBatch(a, batches, k)
    ensures RowOfBatch(b, batches, k)
  {
  }

  lemma QuietKeepsCover(a: Records, b: Records, l: Ledger)
    requires HoldsCover(a, l) && QuietUpdate(a, b)
    ensures HoldsCover(b, l)
  {
    forall k | k in b && b[k].holdId.Some? ensures b[k].holdId.value in l.rows && k in b[k].holdId.value.keys {
      assert Quiet(a[k], b[k]);
    }
    forall id, k | id in l.rows && k in id.keys ensures k in b && b[k].holdId == Some(id) {
      assert k in a.Keys && Quiet(a[k], b[k]);
    }
  }

  lemma QuietAdvances(a: Records, b: Records)
    requires RowsInv(a) && QuietUpdate(a, b)
    ensures RecordsAdvance(a, b) && RowsInv(b)
  {
    forall k | k in a ensures k in b && Advances(a[k], b[k]) { assert k in a.Keys && Quiet(a[k], b[k]); }
    forall k | k in b ensures KeyOf(b[k].binding) == k && RecordInv(b[k]) { assert k in a.Keys && Quiet(a[k], b[k]); }
  }

  lemma QuietKeepsInv(s: Sem, records: Records)
    requires SemInv(s) && QuietUpdate(s.records, records)
    ensures SemInv(s.(records := records)) && SemAdvances(s, s.(records := records))
  {
    QuietAdvances(s.records, records);
    QuietKeepsCover(s.records, records, s.ledger);
    forall k | k in records ensures StartedInOrder(records, s.batches, k) && RowOfBatch(records, s.batches, k) {
      assert k in s.records.Keys && Quiet(s.records[k], records[k]);
      OrderKept(s.records, records, s.batches, k);
      RowOfBatchKept(s.records, records, s.batches, k);
    }
  }

  lemma QuietRefl(records: Records)
    requires RowsInv(records)
    ensures QuietUpdate(records, records)
  {
  }

  lemma QuietOne(a: Records, b: Records, k: Key, r: Record)
    requires QuietUpdate(a, b) && k in b && Quiet(b[k], r)
    ensures QuietUpdate(a, b[k := r])
  {
  }

  lemma {:induction false} RecordAllQuiet(records: Records, entries: seq<(Key, Outcome)>)
    requires RowsInv(records) && RecordAll(records, entries).Success?
    ensures QuietUpdate(records, RecordAll(records, entries).value)
  {
    if entries == [] {
      QuietRefl(records);
    } else {
      var n := |entries| - 1;
      RecordAllQuiet(records, entries[..n]);
      var prev := RecordAll(records, entries[..n]).value;
      var k := entries[n].0;
      RecordTerminalAdvances(prev[k], entries[n].1);
      QuietOne(records, prev, k, RecordTerminal(prev[k], entries[n].1).value);
    }
  }

  lemma RecordTerminalsKeepsInv(s: Sem, entries: seq<(Key, Outcome)>)
    requires SemInv(s) && RecordTerminals(s, entries).Success?
    ensures SemInv(RecordTerminals(s, entries).value)
    ensures SemAdvances(s, RecordTerminals(s, entries).value)
  {
    RecordAllQuiet(s.records, entries);
    QuietKeepsInv(s, RecordAll(s.records, entries).value);
  }

  lemma CancelKeepsInv(s: Sem, k: Key)
    requires SemInv(s) && CancelInvocation(s, k).Success?
    ensures SemInv(CancelInvocation(s, k).value.0)
    ensures SemAdvances(s, CancelInvocation(s, k).value.0)
  {
    QuietRefl(s.records);
    var r := RequestCancellation(s.records[k]).value.1;
    QuietOne(s.records, s.records, k, r);
    QuietKeepsInv(s, s.records[k := r]);
  }

  // ----- Promotion: holds and indeterminate records change together -----

  lemma {:induction false} MarkAllEffect(records: Records, keys: seq<Key>, holds: seq<HoldId>)
    requires AllPresent(records, keys) && MarkAll(records, keys, holds).Success?
    ensures MarkAll(records, keys, holds).value.Keys == records.Keys
    ensures forall k :: k in keys ==>
      && MarkIndeterminate(records[k], HoldOf(records, holds, k)).Success?
      && MarkAll(records, keys, holds).value[k] == MarkIndeterminate(records[k], HoldOf(records, holds, k)).value
    ensures forall k :: k in records && k !in keys ==> MarkAll(records, keys, holds).value[k] == records[k]
  {
    if keys != [] {
      MarkAllEffect(records, keys[..|keys| - 1], holds);
      assert keys == keys[..|keys| - 1] + [keys[|keys| - 1]];
    }
  }

  lemma {:induction false} UncertainOfKeys(records: Records, keys: seq<Key>)
    requires AllPresent(records, keys) && RowsInv(records)
    ensures forall i :: 0 <= i < |UncertainOf(records, keys)| ==>
      UncertainOf(records, keys)[i].key in keys && records[UncertainOf(records, keys)[i].key].binding.mutating
    ensures forall k :: k in keys && records[k].binding.mutating ==>
      exists i :: 0 <= i < |UncertainOf(records, keys)| && UncertainOf(records, keys)[i].key == k
  {
    if keys != [] {
      var n := |keys| - 1;
      var rest, last := UncertainOf(records, keys[..n]), keys[n];
      UncertainOfKeys(records, keys[..n]);
      assert keys == keys[..n] + [last];
      var u := UncertainOf(records, keys);
      forall k | k in keys && records[k].binding.mutating ensures exists i :: 0 <= i < |u| && u[i].key == k {
        if k in keys[..n] {
          var i :| 0 <= i < |rest| && rest[i].key == k;
          assert u[i].key == k;
        } else {
          assert u[|u| - 1].key == k;
        }
      }
    }
  }

  function KeySet(u: seq<Uncertain>): (ks: set<Key>)
    ensures forall k :: k in ks <==> exists i :: 0 <= i < |u| && u[i].key == k
  {
    set i | 0 <= i < |u| :: u[i].key
  }

  /** The holds name exactly the keys of `ks`, each key once, and are all new. */
  ghost predicate FreshFor(l: Ledger, rsid: string, ks: set<Key>, c: seq<HoldId>) {
    && Separate(c)
    && (forall id :: id in c ==> id !in l.rows && id.rsid == rsid && |id.keys| > 0)
    && (forall id, k :: id in c && k in id.keys ==> k in ks)
    && (forall k :: k in ks ==> HoldFor(c, k).Some?)
  }

  lemma CandidatesFresh(records: Records, l: Ledger, rsid: string, u: seq<Uncertain>)
    requires HoldsCover(records, l) && CandidateHolds(rsid, u).Success?
    requires forall i :: 0 <= i < |u| ==> u[i].key in records && records[u[i].key].holdId.None?
    ensures FreshFor(l, rsid, KeySet(u), CandidateHolds(rsid, u).value)
  {
    var c := CandidateHolds(rsid, u).value;
    CandidatesSound(rsid, u);
    forall id, k | id in c && k in id.keys ensures k in KeySet(u) && id !in l.rows {
      var i :| 0 <= i < |u| && u[i].key == k;
      assert u[i] in u;
    }
    forall id | id in c ensures id !in l.rows {
      assert id.keys[0] in id.keys;
    }
  }

  /** Keys without a hold can only be covered by installing new holds for exactly those keys. */
  lemma CoverIsFresh(records: Records, l: Ledger, rsid: string, u: seq<Uncertain>)
    requires HoldsCover(records, l) && u != []
    requires forall i :: 0 <= i < |u| ==> u[i].key in records && records[u[i].key].holdId.None?
    requires CoverUncertain(l, rsid, u).Success?
    ensures var (next, c) := CoverUncertain(l, rsid, u).value;
            next == UpsertAll(l, c) && FreshFor(l, rsid, KeySet(u), c)
  {
    var c := CandidateHolds(rsid, u).value;
    CandidatesFresh(records, l, rsid, u);
    CandidatesSound(rsid, u);
    assert c[0] in c && !IsPresent(l, c[0]);
    assert u[0] in u;
    var conflicts := Conflicts(l, l.order, rsid, ScopesOf(c));
    assert forall id :: id in conflicts ==> u[0].key !in id.keys;
    assert HoldFor(conflicts, u[0].key).None?;
  }

  lemma {:induction false} UpsertAllFresh(l: Ledger, ids: seq<HoldId>)
    ensures forall id :: id in ids ==> id in UpsertAll(l, ids).rows && UpsertAll(l, ids).rows[id] == FRESH
  {
    if ids != [] {
      UpsertAllFresh(l, ids[..|ids| - 1]);
      assert ids == ids[..|ids| - 1] + [ids[|ids| - 1]];
    }
  }

  lemma FreshKeepsLedger(l: Ledger, rsid: string, ks: set<Key>, c: seq<HoldId>)
    requires LedgerInv(l) && ClearancesBound(l) && FreshFor(l, rsid, ks, c)
    requires forall k :: k in ks ==> k.rsid == rsid
    ensures var next := UpsertAll(l, c);
            && LedgerInv(next) && ClearancesBound(next)
            && next.rows.Keys == l.rows.Keys + set id | id in c
  {
    UpsertAllRows(l, c);
    UpsertAllFresh(l, c);
  }

  lemma FreshKeepsCover(a: Records, b: Records, l: Ledger, rsid: string, ks: set<Key>, c: seq<HoldId>)
    requires HoldsCover(a, l) && FreshFor(l, rsid, ks, c) && a.Keys == b.Keys
    requires forall k :: k in ks ==> k in a && a[k].holdId.None? && b[k].holdId == HoldFor(c, k)
    requires forall k :: k in a && k !in ks ==> b[k].holdId == a[k].holdId
    ensures HoldsCover(b, UpsertAll(l, c))
  {
    UpsertAllRows(l, c);
    var next := UpsertAll(l, c);
    forall id, k | id in next.rows && k in id.keys ensures k in b && b[k].holdId == Some(id) {
      if id in l.rows {
        assert a[k].holdId == Some(id);
      } else {
        HoldForUnique(c, id, k);
      }
    }
  }

  /** Records that move to indeterminate or stay, together with a ledger that covers them. */
  lemma CoveredKeepsInv(s: Sem, records: Records, ledger: Ledger)
    requires SemInv(s) && RowsInv(records) && RecordsAdvance(s.records, records) && s.records.Keys == records.Keys
    requires forall k :: k in records ==> records[k].dispatchMayHaveStarted == s.records[k].dispatchMayHaveStarted
    requires LedgerInv(ledger) && ClearancesBound(ledger) && HoldsCover(records, ledger)
    requires s.ledger.rows.Keys <= ledger.rows.Keys
    ensures var next := s.(records := records, ledger := ledger); SemInv(next) && SemAdvances(s, next)
  {
    forall k | k in records ensures StartedInOrder(records, s.batches, k) && RowOfBatch(records, s.batches, k) {
      OrderKept(s.records, records, s.batches, k);
      RowOfBatchKept(s.records, records, s.batches, k);
    }
  }

  /** The keys that get a hold when `keys` are promoted. */
  function MutatingOf(records: Records, keys: seq<Key>): (ks: set<Key>)
    requires AllPresent(records, keys)
  {
    set i | 0 <= i < |keys| && records[keys[i]].binding.mutating :: keys[i]
  }

  lemma UncertainSet(records: Records, keys: seq<Key>)
    requires AllPresent(records, keys) && RowsInv(records)
    ensures KeySet(UncertainOf(records, keys)) == MutatingOf(records, keys)
  {
    UncertainOfKeys(records, keys);
  }

  lemma MarkAllAdvances(records: Records, keys: seq<Key>, holds: seq<HoldId>)
    requires RowsInv(records) && AllPresent(records, keys) && MarkAll(records, keys, holds).Success?
    ensures var next := MarkAll(records, keys, holds).value;
            && RowsInv(next) && RecordsAdvance(records, next) && next.Keys == records.Keys
            && (forall k :: k in next ==> next[k].dispatchMayHaveStarted == records[k].dispatchMayHaveStarted)
            && (forall k :: k in keys ==> next[k].state.Indeterminate?
                                          && next[k].holdId == HoldOf(records, holds, k) && records[k].holdId.None?)
            && (forall k :: k in records && k !in keys ==> next[k] == records[k])
  {
    MarkAllEffect(records, keys, holds);
    forall k | k in keys ensures MarkIndeterminate(records[k], HoldOf(records, holds, k)).Success? {
      MarkIndeterminateAdvances(records[k], HoldOf(records, holds, k));
    }
  }

  ghost predicate HoldTables(records: Records, l: Ledger) {
    RowsInv(records) && LedgerInv(l) && ClearancesBound(l) && HoldsCover(records, l)
  }

  /** After marking, exactly the mutating keys carry the hold chosen for them. */
  ghost predicate HoldsAssigned(a: Records, b: Records, ks: set<Key>, holds: seq<HoldId>) {
    && a.Keys == b.Keys
    && (forall k :: k in ks ==> k in a && a[k].holdId.None? && b[k].holdId == HoldFor(holds, k))
    && (forall k :: k in a && k !in ks ==> b[k].holdId == a[k].holdId)
  }

  lemma MarkAllAssigns(records: Records, keys: seq<Key>, holds: seq<HoldId>)
    requires RowsInv(records) && AllPresent(records, keys) && MarkAll(records, keys, holds).Success?
    ensures HoldsAssigned(records, MarkAll(records, keys, holds).value, MutatingOf(records, keys), holds)
  {
    MarkAllAdvances(records, keys, holds);
    var next := MarkAll(records, keys, holds).value;
    forall k | k in records && k !in MutatingOf(records, keys) ensures next[k].holdId == records[k].holdId {
      assert k in keys ==> !records[k].binding.mutating;
    }
  }

  lemma CoverKeepsTables(a: Records, b: Records, l: Ledger, rsid: string, u: seq<Uncertain>)
    requires HoldTables(a, l) && CoverUncertain(l, rsid, u).Success?
    requires HoldsAssigned(a, b, KeySet(u), CoverUncertain(l, rsid, u).value.1)
    requires forall k :: k in KeySet(u) ==> k.rsid == rsid
    ensures var ledger := CoverUncertain(l, rsid, u).value.0;
            && LedgerInv(ledger) && ClearancesBound(ledger) && HoldsCover(b, ledger)
            && l.rows.Keys <= ledger.rows.Keys
  {
    var (ledger, holds) := CoverUncertain(l, rsid, u).value;
    if u == [] {
      assert KeySet(u) == {};
    } else {
      assert forall i :: 0 <= i < |u| ==> u[i].key in KeySet(u);
      CoverIsFresh(a, l, rsid, u);
      FreshKeepsLedger(l, rsid, KeySet(u), holds);
      FreshKeepsCover(a, b, l, rsid, KeySet(u), holds);
    }
  }

  /** Promotion makes every listed record indeterminate, changes no other record and keeps the invariant. */
  lemma PromoteKeepsInv(s: Sem, rsid: string, keys: seq<Key>)
    requires SemInv(s) && AllPresent(s.records, keys) && Promote(s, rsid, keys).Success?
    requires forall k :: k in keys ==> k.rsid == rsid
    ensures var next := Promote(s, rsid, keys).value;
            && SemInv(next) && SemAdvances(s, next) && next.batches == s.batches
            && next.records.Keys == s.records.Keys
            && (forall k :: k in keys ==> next.records[k].state.Indeterminate?)
            && (forall k :: k in s.records && k !in keys ==> next.records[k] == s.records[k])
  {
    var holds := CoverUncertain(s.ledger, rsid, UncertainOf(s.records, keys)).value.1;
    var records := MarkAll(s.records, keys, holds).value;
    MarkAllAdvances(s.records, keys, holds);
    MarkAllAssigns(s.records, keys, holds);
    UncertainSet(s.records, keys);
    CoverKeepsTables(s.records, records, s.ledger, rsid, UncertainOf(s.records, keys));
    CoveredKeepsInv(s, records, Promote(s, rsid, keys).value.ledger);
  }
}
