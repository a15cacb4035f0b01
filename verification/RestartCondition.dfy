/** When a restart succeeds, said of the tables it finds. */
module RestartCondition {
  import opened Wrappers
  import opened JournalRecords
  import opened SemanticTables
  import opened SemanticInvariant
  import opened Journal
  import opened JournalSafety
  import opened JournalRestart
  import opened RestartFailure

  // ----- The condition -----

  /** An open mutation of a dispatched atomic batch. */
  ghost predicate OpenIn(s: Sem, id: string, k: Key) {
    DispatchedAtomic(s, id) && k in OpenOf(s, s.batches[id])
  }

  /** Batches `a` and `b` have no conflicting open mutations. */
  ghost predicate BatchesApart(s: Sem, a: string, b: string) {
    forall j, k :: OpenIn(s, a, j) && OpenIn(s, b, k) ==> !ScopesClash(s.records, j, k)
  }

  /** An interrupted mutation that no dispatched batch takes with it. */
  ghost predicate Remaining(s: Sem, k: Key) {
    IsInterrupted(s.records, k) && forall id :: !OpenIn(s, id, k)
  }

  ghost predicate ClashesWithBatch(s: Sem, k: Key) {
    exists id, j :: OpenIn(s, id, j) && ScopesClash(s.records, j, k)
  }

  ghost predicate Restartable(s: Sem) {
    && (forall id :: DispatchedAtomic(s, id) ==> BatchReady(s, id))
    && (forall a, b :: DispatchedAtomic(s, a) && DispatchedAtomic(s, b) && a != b ==> BatchesApart(s, a, b))
    && (forall k :: Remaining(s, k) ==> !HoldBlocks(s, k) && !ClashesWithBatch(s, k))
  }

  /** One group per session that has remaining mutations, in any order. */
  ghost predicate ListsRemaining(s: Sem, groups: seq<seq<Key>>) {
    && (forall g: seq<Key> :: g in groups ==> NoDuplicates(g) && g != [])
    && (forall g: seq<Key>, k: Key :: g in groups && k in g ==> Remaining(s, k) && k.rsid == g[0].rsid)
    && (forall i, j :: 0 <= i < j < |groups| && groups[i] != [] && groups[j] != [] ==> groups[i][0].rsid != groups[j][0].rsid)
    && (forall k :: Remaining(s, k) ==> exists g: seq<Key> :: g in groups && k in g)
  }

  // ----- What classifying a list of batches does -----

  /** An open mutation of one of the listed batches. */
  ghost predicate Taken(s: Sem, ids: seq<string>, k: Key) {
    exists id :: id in ids && OpenIn(s, id, k)
  }

  ghost predicate ClashesWithTaken(s: Sem, ids: seq<string>, k: Key) {
    exists j :: Taken(s, ids, j) && ScopesClash(s.records, j, k)
  }

  ghost predicate SameBatch(s: Sem, mid: Sem, id: string) {
    id in s.batches && id in mid.batches && mid.batches[id].rsid == s.batches[id].rsid && mid.batches[id].payload == s.batches[id].payload
  }

  ghost predicate RecordTaken(s: Sem, ids: seq<string>, mid: Sem, k: Key)
    requires k in s.records
  {
    && k in mid.records && mid.records[k].binding == s.records[k].binding
    && (if Taken(s, ids, k) then mid.records[k].state.Indeterminate? else mid.records[k] == s.records[k])
  }

  /** The open mutations of the listed batches became indeterminate, and they block what they clash with. */
  ghost predicate BatchesEffect(s: Sem, ids: seq<string>, mid: Sem) {
    && mid.records.Keys == s.records.Keys
    && (forall k :: k in s.records ==> RecordTaken(s, ids, mid, k))
    && (forall k :: k in s.records ==> (HoldBlocks(mid, k) <==> HoldBlocks(s, k) || ClashesWithTaken(s, ids, k)))
  }

  lemma {:induction false} SameBatchRows(a: Records, b: Records, x: Batch, y: Batch, n: nat)
    requires n <= |x.payload.steps| && x.rsid == y.rsid && x.payload == y.payload && a.Keys == b.Keys
    requires forall k :: k in a ==> k in b && a[k].binding == b[k].binding
    ensures BatchRows(a, x, n) == BatchRows(b, y, n)
  {
    if n > 0 {
      SameBatchRows(a, b, x, y, n - 1);
      var k := StepKey(x.rsid, x.payload, n - 1);
      assert k in a.Keys <==> k in b.Keys;
    }
  }

  lemma {:induction false} SameOpenMutations(a: Records, b: Records, keys: seq<Key>)
    requires AllPresent(a, keys) && AllPresent(b, keys) && forall k :: k in keys ==> a[k] == b[k]
    ensures OpenMutations(a, keys) == OpenMutations(b, keys)
  {
    if keys != [] {
      var n := |keys| - 1;
      assert forall k :: k in keys[..n] ==> k in keys;
      assert keys[n] in keys;
      SameOpenMutations(a, b, keys[..n]);
    }
  }

  lemma {:induction false} RowsNameBatch(records: Records, b: Batch, n: nat, k: Key)
    requires n <= |b.payload.steps| && k in BatchRows(records, b, n)
    ensures records[k].binding.batch.Some? && records[k].binding.batch.value.batchId == b.payload.batchId
  {
    if k in BatchRows(records, b, n - 1) { RowsNameBatch(records, b, n - 1, k); }
  }

  lemma OpenNamesBatch(s: Sem, id: string, k: Key)
    requires BatchesInv(s.records, s.batches) && OpenIn(s, id, k)
    ensures k in s.records && s.records[k].binding.batch.Some? && s.records[k].binding.batch.value.batchId == id
  {
    var b := s.batches[id];
    RowsNameBatch(s.records, b, |b.payload.steps|, k);
  }

  /** What an earlier batch took leaves the open mutations of a later one alone. */
  lemma OpenOfLater(s: Sem, ids: seq<string>, mid: Sem, id: string)
    requires BatchesInv(s.records, s.batches) && BatchesEffect(s, ids, mid)
    requires SameBatch(s, mid, id) && id !in ids
    ensures OpenOf(mid, mid.batches[id]) == OpenOf(s, s.batches[id])
    ensures BatchRows(mid.records, mid.batches[id], |mid.batches[id].payload.steps|)
         == BatchRows(s.records, s.batches[id], |s.batches[id].payload.steps|)
    ensures forall k :: k in OpenOf(s, s.batches[id]) ==> mid.records[k] == s.records[k]
  {
    var b := s.batches[id];
    var rows := BatchRows(s.records, b, |b.payload.steps|);
    SameBatchRows(s.records, mid.records, b, mid.batches[id], |b.payload.steps|);
    forall k | k in rows ensures k in mid.records && mid.records[k] == s.records[k] {
      RowsNameBatch(s.records, b, |b.payload.steps|, k);
      if Taken(s, ids, k) {
        var x :| x in ids && OpenIn(s, x, k);
        OpenNamesBatch(s, x, k);
      }
      assert RecordTaken(s, ids, mid, k);
    }
    SameOpenMutations(s.records, mid.records, rows);
  }

  /** The next batch is ready exactly when it was at the start and clashes with nothing taken before it. */
  lemma NextIsReady(s: Sem, ids: seq<string>, mid: Sem, id: string)
    requires BatchesInv(s.records, s.batches) && BatchesEffect(s, ids, mid)
    requires DispatchedAtomic(s, id) && SameBatch(s, mid, id) && id !in ids
    ensures BatchReady(mid, id) <==> BatchReady(s, id) && forall k :: OpenIn(s, id, k) ==> !ClashesWithTaken(s, ids, k)
  {
    var open := OpenOf(s, s.batches[id]);
    OpenOfLater(s, ids, mid, id);
    forall i | 0 <= i < |open|
      ensures OpenIn(s, id, open[i]) && mid.records[open[i]] == s.records[open[i]]
      ensures HoldBlocks(mid, open[i]) <==> HoldBlocks(s, open[i]) || ClashesWithTaken(s, ids, open[i])
    {
      assert open[i] in open;
    }
    forall k | OpenIn(s, id, k) ensures exists i :: 0 <= i < |open| && open[i] == k {}
  }

  lemma ClassifiedBatchRecords(m: Sem, id: string, next: Sem)
    requires DispatchedAtomic(m, id) && ClassifyBatch(m, id) == Success(next)
    ensures next.records.Keys == m.records.Keys
    ensures forall k :: k in m.records ==> next.records[k].binding == m.records[k].binding
    ensures forall k :: k in OpenOf(m, m.batches[id]) ==> k in m.records && next.records[k].state.Indeterminate?
    ensures forall k :: k in m.records && k !in OpenOf(m, m.batches[id]) ==> next.records[k] == m.records[k]
  {
    PromoteRecords(m, m.batches[id].rsid, OpenOf(m, m.batches[id]));
  }

  lemma ClassifiedBatchBlocks(m: Sem, id: string, next: Sem, k: Key)
    requires SemInv(m) && DispatchedAtomic(m, id) && ClassifyBatch(m, id) == Success(next) && k in m.records
    ensures HoldBlocks(next, k) <==> HoldBlocks(m, k) || ClashesWith(m.records, OpenOf(m, m.batches[id]), k)
  {
    var b, open := m.batches[id], OpenOf(m, m.batches[id]);
    BatchClassifiesIff(m, id);
    OpenOfIsOpen(m, b);
    PromoteBlocks(m, b.rsid, open, k);
    var promoted := Promote(m, b.rsid, open).value;
    assert next.records == promoted.records && next.ledger == promoted.ledger;
    assert HoldBlocks(next, k) <==> HoldBlocks(promoted, k);
  }

  lemma TakenStep(s: Sem, ids: seq<string>, k: Key)
    requires ids != []
    ensures Taken(s, ids, k) <==> Taken(s, ids[..|ids| - 1], k) || OpenIn(s, ids[|ids| - 1], k)
  {
    var n := |ids| - 1;
    assert ids == ids[..n] + [ids[n]];
  }

  lemma ClashesStep(s: Sem, mid: Sem, ids: seq<string>, open: seq<Key>, k: Key)
    requires ids != [] && mid.records.Keys == s.records.Keys && k in s.records
    requires forall j :: j in s.records ==> j in mid.records && mid.records[j].binding == s.records[j].binding
    requires forall j :: j in open <==> OpenIn(s, ids[|ids| - 1], j)
    ensures ClashesWithTaken(s, ids, k) <==>
            ClashesWithTaken(s, ids[..|ids| - 1], k) || ClashesWith(mid.records, open, k)
  {
    forall j ensures Taken(s, ids, j) <==> Taken(s, ids[..|ids| - 1], j) || j in open { TakenStep(s, ids, j); }
    forall j ensures ScopesClash(s.records, j, k) <==> ScopesClash(mid.records, j, k) {
      assert j in s.records.Keys <==> j in mid.records.Keys;
    }
  }

  lemma OneMoreBatch(s: Sem, ids: seq<string>, mid: Sem, next: Sem)
    requires SemInv(s) && SemInv(mid) && ids != [] && BatchesEffect(s, ids[..|ids| - 1], mid)
    requires ids[|ids| - 1] !in ids[..|ids| - 1] && SameBatch(s, mid, ids[|ids| - 1])
    requires DispatchedAtomic(s, ids[|ids| - 1]) && DispatchedAtomic(mid, ids[|ids| - 1])
    requires ClassifyBatch(mid, ids[|ids| - 1]) == Success(next)
    ensures BatchesEffect(s, ids, next)
  {
    var n := |ids| - 1;
    var id := ids[n];
    var open := OpenOf(s, s.batches[id]);
    OpenOfLater(s, ids[..n], mid, id);
    ClassifiedBatchRecords(mid, id, next);
    forall k | k in s.records
      ensures RecordTaken(s, ids, next, k)
      ensures HoldBlocks(next, k) <==> HoldBlocks(s, k) || ClashesWithTaken(s, ids, k)
    {
      assert RecordTaken(s, ids[..n], mid, k);
      TakenStep(s, ids, k);
      ClassifiedBatchBlocks(mid, id, next, k);
      forall j | j in s.records ensures j in mid.records && mid.records[j].binding == s.records[j].binding {
        assert RecordTaken(s, ids[..n], mid, j);
      }
      ClashesStep(s, mid, ids, open, k);
    }
  }

  lemma RepeatedBatch(s: Sem, ids: seq<string>, mid: Sem)
    requires ids != [] && ids[|ids| - 1] in ids[..|ids| - 1] && BatchesEffect(s, ids[..|ids| - 1], mid)
    ensures BatchesEffect(s, ids, mid)
  {
    var n := |ids| - 1;
    forall k ensures Taken(s, ids, k) <==> Taken(s, ids[..n], k) { TakenStep(s, ids, k); }
    forall k | k in s.records ensures RecordTaken(s, ids, mid, k) { assert RecordTaken(s, ids[..n], mid, k); }
  }

  lemma NothingTaken(s: Sem)
    ensures BatchesEffect(s, [], s)
  {
  }

  // ----- When every listed batch is classified -----

  /** The listed batches are ready and no two of them have conflicting open mutations. */
  ghost predicate AllReady(s: Sem, ids: seq<string>) {
    && (forall id :: id in ids && DispatchedAtomic(s, id) ==> BatchReady(s, id))
    && (forall a, b :: a in ids && b in ids && a != b ==> BatchesApart(s, a, b))
  }

  lemma ClashIsSymmetric(s: Sem, a: string, b: string)
    ensures BatchesApart(s, a, b) <==> BatchesApart(s, b, a)
  {
    forall j, k ensures ScopesClash(s.records, j, k) <==> ScopesClash(s.records, k, j) {}
  }

  /** Batch `id` has no open mutation in conflict with one of the listed batches. */
  ghost predicate ApartFromTaken(s: Sem, ids: seq<string>, id: string) {
    forall k :: OpenIn(s, id, k) ==> !ClashesWithTaken(s, ids, k)
  }

  lemma ApartFromAll(s: Sem, ids: seq<string>, id: string)
    ensures ApartFromTaken(s, ids, id) <==> forall a :: a in ids ==> BatchesApart(s, a, id)
  {
    if ApartFromTaken(s, ids, id) {
      forall a, j, k | a in ids && OpenIn(s, a, j) && OpenIn(s, id, k) ensures !ScopesClash(s.records, j, k) {
        assert Taken(s, ids, j) && !ClashesWithTaken(s, ids, k);
      }
    }
  }

  lemma AllReadyStep(s: Sem, ids: seq<string>)
    requires ids != [] && ids[|ids| - 1] !in ids[..|ids| - 1] && DispatchedAtomic(s, ids[|ids| - 1])
    ensures var prefix, id := ids[..|ids| - 1], ids[|ids| - 1];
            AllReady(s, ids) <==> AllReady(s, prefix) && BatchReady(s, id) && ApartFromTaken(s, prefix, id)
  {
    var prefix, id := ids[..|ids| - 1], ids[|ids| - 1];
    assert ids == prefix + [id];
    ApartFromAll(s, prefix, id);
    forall a | a in prefix ensures BatchesApart(s, a, id) <==> BatchesApart(s, id, a) { ClashIsSymmetric(s, a, id); }
  }

  lemma AllReadyRepeated(s: Sem, ids: seq<string>)
    requires ids != [] && ids[|ids| - 1] in ids[..|ids| - 1]
    ensures AllReady(s, ids) <==> AllReady(s, ids[..|ids| - 1])
  {
    assert ids == ids[..|ids| - 1] + [ids[|ids| - 1]];
    forall x ensures x in ids <==> x in ids[..|ids| - 1] {}
  }

  lemma StillTheBatch(s: Sem, ids: seq<string>, id: string)
    requires SemInv(s) && DispatchedAtomic(s, id) && ClassifyBatches(s, ids).1
    ensures var mid := ClassifyBatches(s, ids).0;
            SemInv(mid) && SameBatch(s, mid, id) && (DispatchedAtomic(mid, id) <==> id !in ids)
  {
    ClassifyBatchesKeep(s, ids);
    ClassifiedBatches(s, ids, id);
  }

  /** Classifying the listed batches succeeds exactly when they are all ready and apart, and has exactly that effect. */
  lemma {:induction false} BatchesClassifyIff(s: Sem, ids: seq<string>)
    requires SemInv(s) && forall id :: id in ids ==> DispatchedAtomic(s, id)
    ensures ClassifyBatches(s, ids).1 <==> AllReady(s, ids)
    ensures ClassifyBatches(s, ids).1 ==> BatchesEffect(s, ids, ClassifyBatches(s, ids).0)
  {
    if ids == [] {
      NothingTaken(s);
    } else {
      var n := |ids| - 1;
      var prefix, id := ids[..n], ids[n];
      assert ids == prefix + [id];
      BatchesClassifyIff(s, prefix);
      var (mid, ok) := ClassifyBatches(s, prefix);
      if id in prefix {
        AllReadyRepeated(s, ids);
        if ok {
          StillTheBatch(s, prefix, id);
          RepeatedBatch(s, ids, mid);
        }
      } else {
        AllReadyStep(s, ids);
        if ok { NextBatchIff(s, ids, mid); }
      }
    }
  }

  lemma NextBatchIff(s: Sem, ids: seq<string>, mid: Sem)
    requires SemInv(s) && ids != [] && ClassifyBatches(s, ids[..|ids| - 1]) == (mid, true)
    requires BatchesEffect(s, ids[..|ids| - 1], mid)
    requires ids[|ids| - 1] !in ids[..|ids| - 1] && DispatchedAtomic(s, ids[|ids| - 1])
    ensures ClassifyBatches(s, ids).1 <==> BatchReady(s, ids[|ids| - 1]) && ApartFromTaken(s, ids[..|ids| - 1], ids[|ids| - 1])
    ensures ClassifyBatches(s, ids).1 ==> BatchesEffect(s, ids, ClassifyBatches(s, ids).0)
  {
    var prefix, id := ids[..|ids| - 1], ids[|ids| - 1];
    StillTheBatch(s, prefix, id);
    BatchClassifiesIff(mid, id);
    NextIsReady(s, prefix, mid, id);
    if ClassifyBatch(mid, id).Success? { OneMoreBatch(s, ids, mid, ClassifyBatch(mid, id).value); }
  }

  // ----- The restart -----

  lemma RemainingAfterBatches(s: Sem, ids: seq<string>, mid: Sem, k: Key)
    requires ListsDispatched(s, ids) && BatchesEffect(s, ids, mid)
    ensures Remaining(s, k) <==> IsInterrupted(mid.records, k)
    ensures k in s.records ==> (HoldBlocks(mid, k) <==> HoldBlocks(s, k) || ClashesWithBatch(s, k))
  {
    assert k in s.records.Keys <==> k in mid.records.Keys;
    if k in s.records { assert RecordTaken(s, ids, mid, k); }
    assert Taken(s, ids, k) <==> exists id :: OpenIn(s, id, k);
    forall j ensures Taken(s, ids, j) <==> exists id :: OpenIn(s, id, j) {}
    if ClashesWithBatch(s, k) {
      var id, j :| OpenIn(s, id, j) && ScopesClash(s.records, j, k);
      assert Taken(s, ids, j);
    }
  }

  lemma AllReadyListed(s: Sem, ids: seq<string>)
    requires ListsDispatched(s, ids)
    ensures AllReady(s, ids) <==>
      && (forall id :: DispatchedAtomic(s, id) ==> BatchReady(s, id))
      && (forall a, b :: DispatchedAtomic(s, a) && DispatchedAtomic(s, b) && a != b ==> BatchesApart(s, a, b))
  {
  }

  lemma RemainingIsListed(s: Sem, ids: seq<string>, mid: Sem, groups: seq<seq<Key>>)
    requires ListsDispatched(s, ids) && BatchesEffect(s, ids, mid)
    ensures ListsRemaining(s, groups) <==> ListsInterrupted(mid.records, groups)
  {
    forall k ensures Remaining(s, k) <==> IsInterrupted(mid.records, k) { RemainingAfterBatches(s, ids, mid, k); }
  }

  lemma NoneBlockedAfterBatches(s: Sem, ids: seq<string>, mid: Sem)
    requires ListsDispatched(s, ids) && BatchesEffect(s, ids, mid)
    ensures (forall k :: IsInterrupted(mid.records, k) ==> !HoldBlocks(mid, k)) <==>
            (forall k :: Remaining(s, k) ==> !HoldBlocks(s, k) && !ClashesWithBatch(s, k))
  {
    forall k
      ensures Remaining(s, k) <==> IsInterrupted(mid.records, k)
      ensures k in s.records ==> (HoldBlocks(mid, k) <==> HoldBlocks(s, k) || ClashesWithBatch(s, k))
    {
      RemainingAfterBatches(s, ids, mid, k);
    }
  }

  /**
   A restart succeeds exactly when, in the tables it finds: each dispatched batch has rows, no
   settled mutation and no mutation that a hold blocks; no two of them have conflicting open
   mutations; and no other interrupted mutation is blocked by a hold or conflicts with a
   dispatched batch.  The order in which batches and sessions are listed does not matter.
   */
  lemma RestartSucceedsIff(s: Sem, ids: seq<string>, groups: seq<seq<Key>>)
    requires SemInv(s)
    ensures RestartSem(s, ids, groups).1 <==> ListsDispatched(s, ids) && ListsRemaining(s, groups) && Restartable(s)
  {
    if ListsDispatched(s, ids) {
      BatchesClassifyIff(s, ids);
      AllReadyListed(s, ids);
      var (mid, ok) := ClassifyBatches(s, ids);
      if ok {
        ClassifyBatchesKeep(s, ids);
        RemainingIsListed(s, ids, mid, groups);
        if ListsRemaining(s, groups) { ListedGroupsClassifyIff(mid, groups); }
        NoneBlockedAfterBatches(s, ids, mid);
      }
    }
  }

  // ----- Listings exist -----

  lemma {:induction false} Listing<T>(x: set<T>) returns (xs: seq<T>)
    ensures (forall e :: e in xs <==> e in x) && forall i, j :: 0 <= i < j < |xs| ==> xs[i] != xs[j]
    decreases |x|
  {
    if x == {} {
      xs := [];
    } else {
      var e :| e in x;
      var rest := Listing(x - {e});
      xs := [e] + rest;
    }
  }

  function SessionsOf(keys: seq<Key>): (groups: seq<seq<Key>>) {
    if keys == [] then [] else AddToSession(SessionsOf(keys[..|keys| - 1]), keys[|keys| - 1])
  }

  lemma {:induction false} SessionsAre(keys: seq<Key>)
    requires NoDuplicates(keys)
    ensures OnePerSession(SessionsOf(keys)) && forall k :: Grouped(SessionsOf(keys), k) <==> k in keys
  {
    if keys != [] {
      var n := |keys| - 1;
      SessionsAre(keys[..n]);
      assert keys == keys[..n] + [keys[n]];
      AddedToSession(SessionsOf(keys[..n]), keys[n]);
    }
  }

  lemma RemainingAreListed(s: Sem, keys: seq<Key>)
    requires NoDuplicates(keys) && forall k :: k in keys <==> Remaining(s, k)
    ensures ListsRemaining(s, SessionsOf(keys))
  {
    var groups := SessionsOf(keys);
    SessionsAre(keys);
    forall g: seq<Key> | g in groups ensures OneSession(g) && forall k :: k in g ==> Grouped(groups, k) {
      var i :| 0 <= i < |groups| && groups[i] == g;
    }
    forall k | Remaining(s, k) ensures exists g: seq<Key> :: g in groups && k in g {
      assert Grouped(groups, k);
      var i :| 0 <= i < |groups| && k in groups[i];
      assert groups[i] in groups;
    }
  }

  /** The tables can always be listed as a restart lists them. */
  lemma ListingsExist(s: Sem) returns (ids: seq<string>, groups: seq<seq<Key>>)
    ensures ListsDispatched(s, ids) && ListsRemaining(s, groups)
  {
    ids := Listing(set id | id in s.batches && DispatchedAtomic(s, id));
    var keys := Listing(set k | k in s.records && Remaining(s, k));
    RemainingAreListed(s, keys);
    groups := SessionsOf(keys);
  }

  /** Some restart succeeds exactly when the tables are restartable. */
  lemma RestartCanSucceedIff(s: Sem)
    requires SemInv(s)
    ensures (exists ids, groups :: RestartSem(s, ids, groups).1) <==> Restartable(s)
  {
    if Restartable(s) {
      var ids, groups := ListingsExist(s);
      RestartSucceedsIff(s, ids, groups);
    }
    if ids, groups :| RestartSem(s, ids, groups).1 { RestartSucceedsIff(s, ids, groups); }
  }
}
