/** What a restart classifies, when it succeeds, and when it cannot. */
module JournalRestart {
  import opened Wrappers
  import opened JournalRecords
  import opened MutationHolds
  import opened SemanticTables
  import opened SemanticInvariant
  import opened SemanticSteps
  import opened Journal
  import opened JournalSafety
  import opened JournalTheorems

  // ----- Batches -----

  lemma ClassifiedBatch(s: Sem, id: string)
    requires ClassifyBatch(s, id).Success?
    ensures !DispatchedAtomic(ClassifyBatch(s, id).value, id)
    ensures forall x :: x != id ==> DispatchedAtomic(ClassifyBatch(s, id).value, x) == DispatchedAtomic(s, x)
  {
  }

  lemma {:induction false} ClassifiedBatches(s: Sem, ids: seq<string>, id: string)
    requires ClassifyBatches(s, ids).1
    ensures DispatchedAtomic(ClassifyBatches(s, ids).0, id) <==> DispatchedAtomic(s, id) && id !in ids
  {
    if ids != [] {
      var n := |ids| - 1;
      ClassifiedBatches(s, ids[..n], id);
      ClassifiedBatch(ClassifyBatches(s, ids[..n]).0, ids[n]);
      assert ids == ids[..n] + [ids[n]];
    }
  }

  // ----- Sessions -----

  ghost predicate GroupOk(records: Records, g: seq<Key>) {
    && g != [] && NoDuplicates(g)
    && forall k :: k in g ==> IsInterrupted(records, k) && k.rsid == g[0].rsid
  }

  lemma GroupEffect(s: Sem, g: seq<Key>)
    requires GroupOk(s.records, g) && MarkIndeterminateMany(s, g).Success?
    ensures var next := MarkIndeterminateMany(s, g).value;
            && next.batches == s.batches && next.records.Keys == s.records.Keys
            && (forall k :: k in g ==> next.records[k].state.Indeterminate?)
            && (forall k :: k in s.records && k !in g ==> next.records[k] == s.records[k])
  {
    assert g[0] in g && IsInterrupted(s.records, g[0]);
    forall i | 0 <= i < |g| ensures IsInterrupted(s.records, g[i]) { assert g[i] in g; }
    var holds := CoverUncertain(s.ledger, g[0].rsid, UncertainOf(s.records, g)).value.1;
    MarkAllEffect(s.records, g, holds);
  }

  ghost predicate GroupsOk(records: Records, groups: seq<seq<Key>>) {
    && (forall i :: 0 <= i < |groups| ==> GroupOk(records, groups[i]))
    && (forall i, j :: 0 <= i < j < |groups| && groups[i] != [] && groups[j] != [] ==>
          groups[i][0].rsid != groups[j][0].rsid)
  }

  ghost predicate Grouped(groups: seq<seq<Key>>, k: Key) {
    exists i :: 0 <= i < |groups| && k in groups[i]
  }

  ghost predicate GroupsEffect(s: Sem, groups: seq<seq<Key>>, next: Sem) {
    && next.batches == s.batches && next.records.Keys == s.records.Keys
    && (forall k :: k in s.records && Grouped(groups, k) ==> next.records[k].state.Indeterminate?)
    && (forall k :: k in s.records && !Grouped(groups, k) ==> next.records[k] == s.records[k])
  }

  lemma LastGroupIsFresh(records: Records, groups: seq<seq<Key>>, k: Key)
    requires groups != [] && GroupsOk(records, groups) && k in groups[|groups| - 1]
    ensures k in records && !Grouped(groups[..|groups| - 1], k)
  {
    var n := |groups| - 1;
    assert GroupOk(records, groups[n]) && IsInterrupted(records, k);
    forall i | 0 <= i < n ensures k !in groups[..n][i] { assert GroupOk(records, groups[i]); }
  }

  lemma GroupedStep(groups: seq<seq<Key>>, k: Key)
    requires groups != []
    ensures Grouped(groups, k) <==> Grouped(groups[..|groups| - 1], k) || k in groups[|groups| - 1]
  {
    var n := |groups| - 1;
    if Grouped(groups, k) && k !in groups[n] {
      var i :| 0 <= i < |groups| && k in groups[i];
      assert groups[..n][i] == groups[i];
    }
    if i :| 0 <= i < n && k in groups[..n][i] { assert k in groups[i]; }
  }

  lemma OneMoreGroup(s: Sem, groups: seq<seq<Key>>, mid: Sem, next: Sem)
    requires groups != [] && GroupsOk(s.records, groups) && GroupsEffect(s, groups[..|groups| - 1], mid)
    requires MarkIndeterminateMany(mid, groups[|groups| - 1]) == Success(next)
    ensures GroupsEffect(s, groups, next)
  {
    var g := groups[|groups| - 1];
    assert GroupOk(s.records, g);
    forall k | k in g ensures IsInterrupted(mid.records, k) {
      LastGroupIsFresh(s.records, groups, k);
      assert IsInterrupted(s.records, k);
    }
    GroupEffect(mid, g);
    forall k | k in s.records
      ensures if Grouped(groups, k) then next.records[k].state.Indeterminate? else next.records[k] == s.records[k]
    {
      GroupedStep(groups, k);
    }
  }

  lemma {:induction false} ClassifiedGroups(s: Sem, groups: seq<seq<Key>>)
    requires GroupsOk(s.records, groups) && ClassifyGroups(s, groups).1
    ensures GroupsEffect(s, groups, ClassifyGroups(s, groups).0)
  {
    if groups != [] {
      ClassifiedGroups(s, groups[..|groups| - 1]);
      OneMoreGroup(s, groups, ClassifyGroups(s, groups[..|groups| - 1]).0, ClassifyGroups(s, groups).0);
    }
  }

  /** Classifying every listed session leaves no mutation interrupted. */
  lemma GroupsLeaveNone(s: Sem, groups: seq<seq<Key>>)
    requires ListsInterrupted(s.records, groups) && ClassifyGroups(s, groups).1
    ensures forall k :: !IsInterrupted(ClassifyGroups(s, groups).0.records, k)
  {
    var next := ClassifyGroups(s, groups).0;
    ListedGroupsOk(s.records, groups);
    ClassifiedGroups(s, groups);
    forall k ensures !IsInterrupted(next.records, k) {
      assert k in next.records.Keys <==> k in s.records.Keys;
      if IsInterrupted(s.records, k) { ListedIsGrouped(s.records, groups, k); }
    }
  }

  // ----- Grouping by session -----

  /** Adds the key to its session's group, or starts one. */
  function AddToSession(groups: seq<seq<Key>>, k: Key): (next: seq<seq<Key>>) {
    if groups == [] then [[k]]
    else if groups[0] != [] && groups[0][0].rsid == k.rsid then [groups[0] + [k]] + groups[1..]
    else [groups[0]] + AddToSession(groups[1..], k)
  }

  function InterruptedGroups(records: Records, listing: seq<Key>): (groups: seq<seq<Key>>) {
    if listing == [] then []
    else
      var n := |listing| - 1;
      var rest := InterruptedGroups(records, listing[..n]);
      if IsInterrupted(records, listing[n]) then AddToSession(rest, listing[n]) else rest
  }

  ghost predicate OneSession(g: seq<Key>) {
    g != [] && NoDuplicates(g) && forall k :: k in g ==> k.rsid == g[0].rsid
  }

  ghost predicate OnePerSession(groups: seq<seq<Key>>) {
    && (forall i :: 0 <= i < |groups| ==> OneSession(groups[i]))
    && (forall i, j :: 0 <= i < j < |groups| && groups[i] != [] && groups[j] != [] ==>
          groups[i][0].rsid != groups[j][0].rsid)
  }

  ghost predicate HasSession(groups: seq<seq<Key>>, rsid: string) {
    exists i :: 0 <= i < |groups| && groups[i] != [] && groups[i][0].rsid == rsid
  }

  lemma ConsGrouped(g: seq<Key>, rest: seq<seq<Key>>, k: Key)
    ensures Grouped([g] + rest, k) <==> k in g || Grouped(rest, k)
  {
    var groups: seq<seq<Key>> := [g] + rest;
    if k in g { assert k in groups[0]; }
    if i :| 0 <= i < |rest| && k in rest[i] { assert k in groups[i + 1]; }
    if Grouped(groups, k) && k !in g {
      var i :| 0 <= i < |groups| && k in groups[i];
      assert k in rest[i - 1];
    }
  }

  lemma ConsHasSession(g: seq<Key>, rest: seq<seq<Key>>, rsid: string)
    ensures HasSession([g] + rest, rsid) <==> (g != [] && g[0].rsid == rsid) || HasSession(rest, rsid)
  {
    var groups: seq<seq<Key>> := [g] + rest;
    if g != [] && g[0].rsid == rsid { assert groups[0][0].rsid == rsid; }
    if i :| 0 <= i < |rest| && rest[i] != [] && rest[i][0].rsid == rsid { assert groups[i + 1][0].rsid == rsid; }
    if HasSession(groups, rsid) && !(g != [] && g[0].rsid == rsid) {
      var i :| 0 <= i < |groups| && groups[i] != [] && groups[i][0].rsid == rsid;
      assert rest[i - 1][0].rsid == rsid;
    }
  }

  lemma ConsOnePerSession(g: seq<Key>, rest: seq<seq<Key>>)
    ensures OnePerSession([g] + rest) <==> OneSession(g) && OnePerSession(rest) && (g != [] ==> !HasSession(rest, g[0].rsid))
  {
    var groups: seq<seq<Key>> := [g] + rest;
    assert groups[0] == g && forall i :: 0 <= i < |rest| ==> groups[i + 1] == rest[i];
    if OnePerSession(groups) {
      forall i | 0 <= i < |rest| ensures OneSession(rest[i]) { assert OneSession(groups[i + 1]); }
      forall i, j | 0 <= i < j < |rest| && rest[i] != [] && rest[j] != [] ensures rest[i][0].rsid != rest[j][0].rsid {
        assert groups[i + 1][0].rsid != groups[j + 1][0].rsid;
      }
      forall i | 0 <= i < |rest| && rest[i] != [] ensures rest[i][0].rsid != g[0].rsid {
        assert groups[0][0].rsid != groups[i + 1][0].rsid;
      }
    }
  }

  /** The key joins the groups, nothing else does, and there is still one group per session. */
  lemma {:induction false} AddedToSession(groups: seq<seq<Key>>, k: Key)
    requires OnePerSession(groups) && !Grouped(groups, k)
    ensures OnePerSession(AddToSession(groups, k))
    ensures forall x :: Grouped(AddToSession(groups, k), x) <==> Grouped(groups, x) || x == k
    ensures forall r :: HasSession(AddToSession(groups, k), r) <==> HasSession(groups, r) || r == k.rsid
  {
    if groups == [] {
      assert AddToSession(groups, k) == [[k]] + [];
      ConsOnePerSession([k], []);
      forall x ensures Grouped([[k]] + [], x) <==> x == k { ConsGrouped([k], [], x); }
      forall r ensures HasSession([[k]] + [], r) <==> r == k.rsid { ConsHasSession([k], [], r); }
    } else {
      var g, rest := groups[0], groups[1..];
      assert groups == [g] + rest;
      ConsOnePerSession(g, rest);
      ConsGrouped(g, rest, k);
      var joins := g[0].rsid == k.rsid;
      if !joins { AddedToSession(rest, k); }
      var first, tail := if joins then g + [k] else g, if joins then rest else AddToSession(rest, k);
      assert AddToSession(groups, k) == [first] + tail;
      ConsOnePerSession(first, tail);
      forall x ensures Grouped([first] + tail, x) <==> Grouped(groups, x) || x == k {
        ConsGrouped(g, rest, x);
        ConsGrouped(first, tail, x);
      }
      forall r ensures HasSession([first] + tail, r) <==> HasSession(groups, r) || r == k.rsid {
        ConsHasSession(g, rest, r);
        ConsHasSession(first, tail, r);
      }
    }
  }

  lemma {:induction false} GroupsAreSessions(records: Records, listing: seq<Key>)
    requires NoDuplicates(listing)
    ensures OnePerSession(InterruptedGroups(records, listing))
    ensures forall k :: Grouped(InterruptedGroups(records, listing), k) <==> k in listing && IsInterrupted(records, k)
  {
    if listing != [] {
      var n := |listing| - 1;
      GroupsAreSessions(records, listing[..n]);
      assert listing == listing[..n] + [listing[n]];
      if IsInterrupted(records, listing[n]) { AddedToSession(InterruptedGroups(records, listing[..n]), listing[n]); }
    }
  }

  /** Grouping a listing of the table gives exactly its interrupted mutations, one group per session. */
  lemma GroupsListInterrupted(records: Records, listing: seq<Key>)
    requires NoDuplicates(listing) && forall k :: k in listing <==> k in records
    ensures ListsInterrupted(records, InterruptedGroups(records, listing))
  {
    var groups := InterruptedGroups(records, listing);
    GroupsAreSessions(records, listing);
    forall g: seq<Key> | g in groups ensures OneSession(g) && forall k :: k in g ==> Grouped(groups, k) {
      var i :| 0 <= i < |groups| && groups[i] == g;
    }
    forall k | IsInterrupted(records, k) ensures exists g: seq<Key> :: g in groups && k in g {
      var i :| 0 <= i < |groups| && k in groups[i];
      assert groups[i] in groups;
    }
  }

  // ----- The restart -----

  /** After a successful restart no possibly dispatched mutation is still open. */
  lemma RestartClassifiesAll(s: Sem, ids: seq<string>, groups: seq<seq<Key>>)
    requires SemInv(s) && RestartSem(s, ids, groups).1
    ensures var next := RestartSem(s, ids, groups).0;
            && Kept(s, next)
            && (forall k :: !IsInterrupted(next.records, k))
            && (forall id :: !DispatchedAtomic(next, id))
  {
    var mid := ClassifyBatches(s, ids).0;
    var next := ClassifyGroups(mid, groups).0;
    RestartKeeps(s, ids, groups);
    ListedGroupsOk(mid.records, groups);
    ClassifiedGroups(mid, groups);
    forall k ensures !IsInterrupted(next.records, k) {
      if IsInterrupted(mid.records, k) { ListedIsGrouped(mid.records, groups, k); }
    }
    forall id ensures !DispatchedAtomic(next, id) { ClassifiedBatches(s, ids, id); }
  }

  lemma ListedGroupsOk(records: Records, groups: seq<seq<Key>>)
    requires ListsInterrupted(records, groups)
    ensures GroupsOk(records, groups)
  {
    forall i | 0 <= i < |groups| ensures GroupOk(records, groups[i]) { assert groups[i] in groups; }
  }

  lemma ListedIsGrouped(records: Records, groups: seq<seq<Key>>, k: Key)
    requires ListsInterrupted(records, groups) && IsInterrupted(records, k)
    ensures Grouped(groups, k)
  {
    var g: seq<Key> :| g in groups && k in g;
    var i :| 0 <= i < |groups| && groups[i] == g;
  }

  lemma ListHasMember<T>(xs: seq<T>)
    requires xs != []
    ensures exists x :: x in xs
  {
    assert xs[0] in xs;
  }

  lemma ListedHasInterrupted(records: Records, groups: seq<seq<Key>>)
    requires ListsInterrupted(records, groups) && groups != []
    ensures exists k :: IsInterrupted(records, k)
  {
    ListedGroupsOk(records, groups);
    assert GroupOk(records, groups[0]) && groups[0][0] in groups[0];
  }

  /** A second restart finds nothing to do, in whatever order it looks. */
  lemma SecondRestartChangesNothing(s: Sem, ids: seq<string>, groups: seq<seq<Key>>, ids2: seq<string>, groups2: seq<seq<Key>>)
    requires SemInv(s) && RestartSem(s, ids, groups).1
    ensures var next := RestartSem(s, ids, groups).0;
            && RestartSem(next, [], []) == (next, true)
            && RestartSem(next, ids2, groups2).0 == next
  {
    var next := RestartSem(s, ids, groups).0;
    RestartClassifiesAll(s, ids, groups);
    if ListsDispatched(next, ids2) {
      if ids2 != [] { ListHasMember(ids2); }
      if ListsInterrupted(next.records, groups2) && groups2 != [] { ListedHasInterrupted(next.records, groups2); }
    }
  }

  /** The record is indeterminate and named by a stored hold. */
  ghost predicate IsHeld(s: Sem, k: Key) {
    && k in s.records && s.records[k].state.Indeterminate? && s.records[k].holdId.Some?
    && k in s.records[k].holdId.value.keys && s.records[k].holdId.value in s.ledger.rows
  }

  lemma InterruptedIsHeld(s: Sem, next: Sem, k: Key)
    requires SemInv(s) && Kept(s, next) && NoNewOutcome(s.records, next.records)
    requires IsInterrupted(s.records, k) && !IsInterrupted(next.records, k)
    ensures IsHeld(next, k)
  {
    assert k in next.records && RecordInv(next.records[k]) && Advances(s.records[k], next.records[k]);
  }

  lemma RestartHoldsAll(s: Sem, ids: seq<string>, groups: seq<seq<Key>>)
    requires SemInv(s) && RestartSem(s, ids, groups).1
    ensures var next := RestartSem(s, ids, groups).0;
            && (forall k :: !IsInterrupted(next.records, k))
            && (forall k :: IsInterrupted(s.records, k) ==> IsHeld(next, k))
            && s.ledger.rows.Keys <= next.ledger.rows.Keys
  {
    var next := RestartSem(s, ids, groups).0;
    RestartClassifiesAll(s, ids, groups);
    RestartAddsNoOutcome(s, ids, groups);
    forall k | IsInterrupted(s.records, k) ensures IsHeld(next, k) { InterruptedIsHeld(s, next, k); }
  }

  /**
   After a successful restart of any run: no possibly dispatched mutation is received or
   executing, each of them is now indeterminate and named by a stored hold, no hold is lost,
   and a second restart changes nothing.
   */
  lemma RestartOfAnyRun(ops: seq<Op>, ids: seq<string>, groups: seq<seq<Key>>, ids2: seq<string>, groups2: seq<seq<Key>>)
    requires RestartSem(Run(ops).tables.sem, ids, groups).1
    ensures var s, next := Run(ops).tables.sem, RestartSem(Run(ops).tables.sem, ids, groups).0;
            && (forall k :: !IsInterrupted(next.records, k))
            && (forall k :: IsInterrupted(s.records, k) ==> IsHeld(next, k))
            && s.ledger.rows.Keys <= next.ledger.rows.Keys
            && RestartSem(next, ids2, groups2).0 == next
  {
    RunKeeps(ops);
    RestartHoldsAll(Run(ops).tables.sem, ids, groups);
    SecondRestartChangesNothing(Run(ops).tables.sem, ids, groups, ids2, groups2);
  }

  /** A restart writes no outcome: what stops being interrupted has become indeterminate. */
  lemma RestartAddsNoOutcome(s: Sem, ids: seq<string>, groups: seq<seq<Key>>)
    requires SemInv(s) && RestartSem(s, ids, groups).1
    ensures NoNewOutcome(s.records, RestartSem(s, ids, groups).0.records)
  {
    var mid := ClassifyBatches(s, ids).0;
    BatchesAddNoOutcome(s, ids);
    ListedGroupsOk(mid.records, groups);
    ClassifiedGroups(mid, groups);
    forall k | k in s.records ensures k in ClassifyGroups(mid, groups).0.records {
      assert k in mid.records.Keys;
    }
  }

  /** A record without an outcome gets none. */
  ghost predicate NoNewOutcome(a: Records, b: Records) {
    forall k :: k in a ==> k in b && (b[k].state.Known? ==> a[k].state.Known?)
  }

  lemma PromoteAddsNoOutcome(s: Sem, rsid: string, keys: seq<Key>)
    requires AllPresent(s.records, keys) && Promote(s, rsid, keys).Success?
    ensures NoNewOutcome(s.records, Promote(s, rsid, keys).value.records)
  {
    var holds := CoverUncertain(s.ledger, rsid, UncertainOf(s.records, keys)).value.1;
    MarkAllEffect(s.records, keys, holds);
  }

  lemma {:induction false} BatchesAddNoOutcome(s: Sem, ids: seq<string>)
    ensures NoNewOutcome(s.records, ClassifyBatches(s, ids).0.records)
  {
    if ids != [] {
      var n := |ids| - 1;
      BatchesAddNoOutcome(s, ids[..n]);
      var (mid, ok) := ClassifyBatches(s, ids[..n]);
      if ok && ClassifyBatch(mid, ids[n]).Success? && DispatchedAtomic(mid, ids[n]) {
        var b := mid.batches[ids[n]];
        PromoteAddsNoOutcome(mid, b.rsid, OpenMutations(mid.records, BatchRows(mid.records, b, |b.payload.steps|)));
      }
    }
  }
}
