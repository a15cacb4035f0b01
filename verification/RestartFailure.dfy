/** The exact condition under which a session's interrupted mutations can be classified. */
module RestartFailure {
  import opened Wrappers
  import opened JournalRecords
  import opened MutationHolds
  import opened SemanticTables
  import opened SemanticInvariant
  import opened SemanticSteps
  import opened Journal
  import opened JournalSafety
  import opened JournalTheorems
  import opened JournalProgress
  import opened Sequences
  import opened WireTables
  import WireInvariant
  import opened JournalRestart

  /** A hold of the same session, not cleared, whose scope conflicts with the record's. */
  ghost predicate HoldBlocks(s: Sem, k: Key) {
    k in s.records && s.records[k].binding.scope.Some? &&
    exists id :: id in s.ledger.rows && ConflictsWith(s.ledger, id, k.rsid, [s.records[k].binding.scope.value])
  }

  ghost predicate ScopeOf(u: seq<Uncertain>, s: Scope) {
    exists i :: 0 <= i < |u| && u[i].scope == s
  }

  lemma {:induction false} AddToGroupScopes(groups: seq<HoldId>, rsid: string, e: Uncertain, s: Scope)
    ensures (exists h :: h in AddToGroup(groups, rsid, e) && h.scope == s) <==>
            s == e.scope || exists h :: h in groups && h.scope == s
    decreases groups
  {
    if groups == [] {
      assert HoldId(rsid, e.scope, [e.key]) in AddToGroup(groups, rsid, e);
    } else {
      var rest := groups[1..];
      assert groups == [groups[0]] + rest;
      if groups[0].scope == e.scope {
        var first := groups[0].(keys := groups[0].keys + [e.key]);
        assert AddToGroup(groups, rsid, e) == [first] + rest;
        assert first in AddToGroup(groups, rsid, e) && groups[0] in groups;
      } else {
        AddToGroupScopes(rest, rsid, e, s);
        assert AddToGroup(groups, rsid, e) == [groups[0]] + AddToGroup(rest, rsid, e);
      }
    }
  }

  lemma {:induction false} GroupScopes(rsid: string, u: seq<Uncertain>, s: Scope)
    ensures (exists h :: h in GroupByScope(rsid, u) && h.scope == s) <==> ScopeOf(u, s)
  {
    if u != [] {
      var n := |u| - 1;
      GroupScopes(rsid, u[..n], s);
      AddToGroupScopes(GroupByScope(rsid, u[..n]), rsid, u[n], s);
      assert ScopeOf(u, s) <==> ScopeOf(u[..n], s) || u[n].scope == s by {
        if i :| 0 <= i < |u| && u[i].scope == s && i < n { assert u[..n][i].scope == s; }
        if i :| 0 <= i < n && u[..n][i].scope == s { assert u[i].scope == s; }
      }
    }
  }

  /** The holds to install conflict with a stored hold exactly when some uncertain scope does. */
  lemma CandidateConflicts(l: Ledger, rsid: string, u: seq<Uncertain>, id: HoldId)
    requires CandidateHolds(rsid, u).Success?
    ensures ConflictsWith(l, id, rsid, ScopesOf(CandidateHolds(rsid, u).value)) <==>
            exists i :: 0 <= i < |u| && ConflictsWith(l, id, rsid, [u[i].scope])
  {
    var c := CandidateHolds(rsid, u).value;
    var scopes := ScopesOf(c);
    if exists e :: e in u && e.scope.SessionScope? {
      var e :| e in u && e.scope.SessionScope?;
      var i :| 0 <= i < |u| && u[i] == e;
      assert scopes == [SessionScope] && SessionScope in [u[i].scope];
      assert SessionScope in scopes;
    } else {
      forall s ensures s in scopes <==> ScopeOf(u, s) {
        GroupScopes(rsid, u, s);
        if s in scopes { var j :| 0 <= j < |scopes| && scopes[j] == s; assert c[j] in c && c[j].scope == s; }
        if h :| h in c && h.scope == s { var j :| 0 <= j < |c| && c[j] == h; assert scopes[j] == s; }
      }
      forall i | 0 <= i < |u| ensures u[i].scope in scopes && u[i].scope in [u[i].scope] { assert ScopeOf(u, u[i].scope); }
    }
  }

  /** A mutation without an outcome that is not yet indeterminate. */
  predicate IsOpen(records: Records, k: Key) {
    k in records && records[k].binding.mutating && (records[k].state.Received? || records[k].state.Executing?)
  }

  ghost predicate AllOpen(records: Records, rsid: string, g: seq<Key>) {
    NoDuplicates(g) && forall i :: 0 <= i < |g| ==> IsOpen(records, g[i]) && g[i].rsid == rsid
  }

  lemma {:induction false} UncertainOfOpen(records: Records, g: seq<Key>)
    requires AllPresent(records, g) && RowsInv(records) && forall i :: 0 <= i < |g| ==> IsOpen(records, g[i])
    ensures |UncertainOf(records, g)| == |g|
    ensures forall i :: 0 <= i < |g| ==>
      records[g[i]].binding.scope.Some? && UncertainOf(records, g)[i] == Uncertain(g[i], records[g[i]].binding.scope.value)
  {
    if g != [] {
      var n := |g| - 1;
      UncertainOfOpen(records, g[..n]);
      assert RecordInv(records[g[n]]);
    }
  }

  lemma {:induction false} MarkAllSucceeds(records: Records, g: seq<Key>, holds: seq<HoldId>)
    requires AllPresent(records, g) && forall i :: 0 <= i < |g| ==> IsOpen(records, g[i]) && HoldFor(holds, g[i]).Some?
    ensures MarkAll(records, g, holds).Success?
  {
    if g != [] { MarkAllSucceeds(records, g[..|g| - 1], holds); }
  }

  lemma NotHeld(s: Sem, k: Key, id: HoldId)
    requires SemInv(s) && IsOpen(s.records, k) && id in s.ledger.rows
    ensures k !in id.keys
  {
    assert RecordInv(s.records[k]);
  }

  lemma CandidatesAreNew(s: Sem, rsid: string, g: seq<Key>, u: seq<Uncertain>)
    requires SemInv(s) && g != [] && |u| == |g|
    requires forall i :: 0 <= i < |g| ==> IsOpen(s.records, g[i]) && u[i].key == g[i]
    requires CandidateHolds(rsid, u).Success?
    ensures exists id :: id in CandidateHolds(rsid, u).value && !IsPresent(s.ledger, id)
    ensures forall i :: 0 <= i < |g| ==> HoldFor(CandidateHolds(rsid, u).value, g[i]).Some?
  {
    CandidatesSound(rsid, u);
    var id := CandidateHolds(rsid, u).value[0];
    assert id in CandidateHolds(rsid, u).value && id.keys[0] in id.keys;
    var i :| 0 <= i < |u| && u[i].key == id.keys[0];
    if id in s.ledger.rows { NotHeld(s, g[i], id); }
  }

  lemma CoverIff(s: Sem, rsid: string, g: seq<Key>, u: seq<Uncertain>, c: seq<HoldId>)
    requires SemInv(s) && g != [] && |u| == |g| && CandidateHolds(rsid, u) == Success(c)
    requires forall i :: 0 <= i < |g| ==> IsOpen(s.records, g[i]) && u[i].key == g[i]
    ensures var conflicts := Conflicts(s.ledger, s.ledger.order, rsid, ScopesOf(c));
            var covered := CoverUncertain(s.ledger, rsid, u);
            (covered.Success? <==> conflicts == []) && (covered.Success? ==> covered.value.1 == c)
  {
    CandidatesAreNew(s, rsid, g, u);
    var conflicts := Conflicts(s.ledger, s.ledger.order, rsid, ScopesOf(c));
    if conflicts != [] {
      assert u[0] in u;
      forall id | id in conflicts ensures u[0].key !in id.keys { NotHeld(s, g[0], id); }
      assert HoldFor(conflicts, u[0].key).None?;
    }
  }

  lemma BlockedIff(s: Sem, rsid: string, g: seq<Key>, u: seq<Uncertain>, conflicts: seq<HoldId>)
    requires SemInv(s) && |u| == |g| && CandidateHolds(rsid, u).Success?
    requires forall i :: 0 <= i < |g| ==>
      && g[i] in s.records && g[i].rsid == rsid && s.records[g[i]].binding.scope.Some?
      && u[i] == Uncertain(g[i], s.records[g[i]].binding.scope.value)
    requires conflicts == Conflicts(s.ledger, s.ledger.order, rsid, ScopesOf(CandidateHolds(rsid, u).value))
    ensures conflicts == [] <==> forall i :: 0 <= i < |g| ==> !HoldBlocks(s, g[i])
  {
    if conflicts == [] {
      forall i, id | 0 <= i < |g| && id in s.ledger.rows
        ensures !ConflictsWith(s.ledger, id, rsid, [s.records[g[i]].binding.scope.value])
      {
        CandidateConflicts(s.ledger, rsid, u, id);
        assert id !in conflicts;
        assert !ConflictsWith(s.ledger, id, rsid, [u[i].scope]);
      }
    } else {
      var id := conflicts[0];
      assert id in conflicts;
      CandidateConflicts(s.ledger, rsid, u, id);
      var i :| 0 <= i < |u| && ConflictsWith(s.ledger, id, rsid, [u[i].scope]);
      assert HoldBlocks(s, g[i]);
    }
  }

  /** Promoting open mutations of a session throws exactly when a hold blocks one of them. */
  lemma PromoteIff(s: Sem, rsid: string, g: seq<Key>)
    requires SemInv(s) && AllPresent(s.records, g) && AllOpen(s.records, rsid, g)
    ensures Promote(s, rsid, g).Success? <==> forall i :: 0 <= i < |g| ==> !HoldBlocks(s, g[i])
  {
    if g != [] {
      var u := UncertainOf(s.records, g);
      UncertainOfOpen(s.records, g);
      assert CandidateHolds(rsid, u).Success?;
      var c := CandidateHolds(rsid, u).value;
      CandidatesAreNew(s, rsid, g, u);
      CoverIff(s, rsid, g, u, c);
      MarkAllSucceeds(s.records, g, c);
      BlockedIff(s, rsid, g, u, Conflicts(s.ledger, s.ledger.order, rsid, ScopesOf(c)));
    }
  }

  lemma GroupIsPromoted(s: Sem, g: seq<Key>)
    requires GroupOk(s.records, g)
    ensures AllPresent(s.records, g) && AllOpen(s.records, g[0].rsid, g)
    ensures MarkIndeterminateMany(s, g) == Promote(s, g[0].rsid, g)
  {
    forall i | 0 <= i < |g| ensures IsInterrupted(s.records, g[i]) && g[i].rsid == g[0].rsid { assert g[i] in g; }
    assert !s.records[g[0]].state.Indeterminate?;
  }

  /** Classifying one session throws exactly when a hold blocks one of its interrupted mutations. */
  lemma GroupClassifiesIff(s: Sem, g: seq<Key>)
    requires SemInv(s) && GroupOk(s.records, g)
    ensures MarkIndeterminateMany(s, g).Success? <==> forall k :: k in g ==> !HoldBlocks(s, k)
  {
    GroupIsPromoted(s, g);
    PromoteIff(s, g[0].rsid, g);
  }

  // ----- One interrupted atomic batch -----

  lemma {:induction false} BatchRowsDistinct(records: Records, b: Batch, n: nat)
    requires n <= |b.payload.steps|
    ensures NoDuplicates(BatchRows(records, b, n))
    ensures forall k :: k in BatchRows(records, b, n) ==>
      k.rsid == b.rsid && records[k].binding.batch.Some? && records[k].binding.batch.value.index < n
  {
    if n > 0 {
      BatchRowsDistinct(records, b, n - 1);
      var rest := BatchRows(records, b, n - 1);
      forall i | 0 <= i < |rest| ensures records[rest[i]].binding.batch.value.index < n - 1 { assert rest[i] in rest; }
    }
  }

  lemma AppendDistinct(keys: seq<Key>, k: Key)
    requires NoDuplicates(keys) && forall i :: 0 <= i < |keys| ==> keys[i] != k
    ensures NoDuplicates(keys + [k])
  {
  }

  lemma {:induction false} OpenDistinct(records: Records, keys: seq<Key>)
    requires AllPresent(records, keys) && NoDuplicates(keys)
    ensures NoDuplicates(OpenMutations(records, keys))
  {
    if keys != [] {
      var n := |keys| - 1;
      OpenDistinct(records, keys[..n]);
      var rest := OpenMutations(records, keys[..n]);
      forall i | 0 <= i < |rest| ensures rest[i] != keys[n] { assert rest[i] in rest && rest[i] in keys[..n]; }
      AppendDistinct(rest, keys[n]);
    }
  }

  /** The mutations of a dispatched batch that are not indeterminate yet. */
  function OpenOf(s: Sem, b: Batch): (open: seq<Key>)
    ensures AllPresent(s.records, open)
  {
    OpenMutations(s.records, BatchRows(s.records, b, |b.payload.steps|))
  }

  /** What classifying a dispatched batch needs. */
  ghost predicate BatchReady(s: Sem, id: string)
    requires id in s.batches
  {
    var b := s.batches[id];
    && BatchRows(s.records, b, |b.payload.steps|) != []
    && forall i :: 0 <= i < |OpenOf(s, b)| ==> !HasOutcome(s.records[OpenOf(s, b)[i]]) && !HoldBlocks(s, OpenOf(s, b)[i])
  }

  lemma OpenOfIsOpen(s: Sem, b: Batch)
    requires SemInv(s) && forall i :: 0 <= i < |OpenOf(s, b)| ==> !HasOutcome(s.records[OpenOf(s, b)[i]])
    ensures AllOpen(s.records, b.rsid, OpenOf(s, b))
  {
    var rows, open := BatchRows(s.records, b, |b.payload.steps|), OpenOf(s, b);
    BatchRowsDistinct(s.records, b, |b.payload.steps|);
    OpenDistinct(s.records, rows);
    forall i | 0 <= i < |open| ensures IsOpen(s.records, open[i]) && open[i].rsid == b.rsid {
      assert open[i] in rows && RecordInv(s.records[open[i]]);
    }
  }

  /** An interrupted batch is classified exactly when it has rows, none of its mutations settled, and none is blocked. */
  lemma BatchClassifiesIff(s: Sem, id: string)
    requires SemInv(s) && DispatchedAtomic(s, id)
    ensures ClassifyBatch(s, id).Success? <==> BatchReady(s, id)
  {
    var b := s.batches[id];
    var rows, open := BatchRows(s.records, b, |b.payload.steps|), OpenOf(s, b);
    assert forall k :: k in rows ==> IsIntact(s.records[k]) by {
      forall k | k in rows ensures IsIntact(s.records[k]) { assert RecordInv(s.records[k]); }
    }
    if forall i :: 0 <= i < |open| ==> !HasOutcome(s.records[open[i]]) {
      OpenOfIsOpen(s, b);
      PromoteIff(s, b.rsid, open);
    } else {
      var i :| 0 <= i < |open| && HasOutcome(s.records[open[i]]);
      assert open[i] in open;
    }
  }

  // ----- The holds a promotion adds -----

  /** Two mutations of one session whose scopes conflict. */
  predicate ScopesClash(records: Records, j: Key, k: Key) {
    && j in records && k in records && j.rsid == k.rsid
    && records[j].binding.scope.Some? && records[k].binding.scope.Some?
    && ScopesConflict(records[j].binding.scope.value, records[k].binding.scope.value)
  }

  ghost predicate ClashesWith(records: Records, g: seq<Key>, k: Key) {
    exists j :: j in g && ScopesClash(records, j, k)
  }

  /** Some hold of the list conflicts with the scope. */
  ghost predicate ScopeHit(holds: seq<HoldId>, scope: Scope) {
    exists h :: h in holds && ScopesConflict(h.scope, scope)
  }

  /** The holds installed for uncertain keys conflict with exactly the scopes those keys conflict with. */
  lemma CandidateHits(rsid: string, u: seq<Uncertain>, scope: Scope)
    requires CandidateHolds(rsid, u).Success?
    ensures ScopeHit(CandidateHolds(rsid, u).value, scope) <==>
            exists i :: 0 <= i < |u| && ScopesConflict(u[i].scope, scope)
  {
    var c := CandidateHolds(rsid, u).value;
    if exists e :: e in u && e.scope.SessionScope? {
      var e :| e in u && e.scope.SessionScope?;
      var i :| 0 <= i < |u| && u[i] == e;
      assert ScopesConflict(u[i].scope, scope);
      assert c == [HoldId(rsid, SessionScope, KeysOf(u))];
      assert c[0] in c && ScopesConflict(c[0].scope, scope);
    } else {
      if h :| h in c && ScopesConflict(h.scope, scope) { GroupScopes(rsid, u, h.scope); }
      if i :| 0 <= i < |u| && ScopesConflict(u[i].scope, scope) { GroupScopes(rsid, u, u[i].scope); }
    }
  }

  /** The ledger gained exactly the holds `c`, all of them active. */
  ghost predicate HoldsAdded(l: Ledger, next: Ledger, c: seq<HoldId>) {
    && (forall id :: id in next.rows <==> id in l.rows || id in c)
    && (forall id :: id in l.rows ==> id !in c && next.rows[id] == l.rows[id])
    && (forall id :: id in c ==> id in next.rows && next.rows[id] == FRESH)
  }

  lemma UpsertAdds(l: Ledger, c: seq<HoldId>)
    requires forall id :: id in c ==> id !in l.rows
    ensures HoldsAdded(l, UpsertAll(l, c), c)
  {
    UpsertAllRows(l, c);
    UpsertAllFresh(l, c);
    forall id ensures id in UpsertAll(l, c).rows <==> id in l.rows || id in c {
      assert id in UpsertAll(l, c).rows <==> id in UpsertAll(l, c).rows.Keys;
    }
  }

  lemma AddedHoldsConflict(l: Ledger, next: Ledger, c: seq<HoldId>, holder: string, rsid: string, scope: Scope)
    requires HoldsAdded(l, next, c) && forall h :: h in c ==> h.rsid == holder
    ensures (exists id :: id in next.rows && ConflictsWith(next, id, rsid, [scope])) <==>
            (exists id :: id in l.rows && ConflictsWith(l, id, rsid, [scope])) || (rsid == holder && ScopeHit(c, scope))
  {
    if id :| id in next.rows && ConflictsWith(next, id, rsid, [scope]) && id in l.rows {
      assert ConflictsWith(l, id, rsid, [scope]);
    }
    if id :| id in l.rows && ConflictsWith(l, id, rsid, [scope]) { assert ConflictsWith(next, id, rsid, [scope]); }
    if h :| h in c && ScopesConflict(h.scope, scope) && rsid == holder {
      assert scope in [scope];
      assert ConflictsWith(next, h, rsid, [scope]);
    }
  }

  lemma CandidatesAllNew(s: Sem, rsid: string, g: seq<Key>, u: seq<Uncertain>)
    requires SemInv(s) && |u| == |g| && CandidateHolds(rsid, u).Success?
    requires forall i :: 0 <= i < |g| ==> IsOpen(s.records, g[i]) && u[i].key == g[i]
    ensures forall id :: id in CandidateHolds(rsid, u).value ==> id !in s.ledger.rows && id.rsid == rsid
  {
    CandidatesSound(rsid, u);
    forall id | id in CandidateHolds(rsid, u).value ensures id !in s.ledger.rows {
      assert id.keys[0] in id.keys;
      var i :| 0 <= i < |u| && u[i].key == id.keys[0];
      if id in s.ledger.rows { NotHeld(s, g[i], id); }
    }
  }

  lemma CoverInstalls(s: Sem, rsid: string, g: seq<Key>, u: seq<Uncertain>)
    requires SemInv(s) && g != [] && |u| == |g| && CandidateHolds(rsid, u).Success?
    requires forall i :: 0 <= i < |g| ==> IsOpen(s.records, g[i]) && u[i].key == g[i]
    requires CoverUncertain(s.ledger, rsid, u).Success?
    ensures HoldsAdded(s.ledger, CoverUncertain(s.ledger, rsid, u).value.0, CandidateHolds(rsid, u).value)
  {
    var c := CandidateHolds(rsid, u).value;
    CoverIff(s, rsid, g, u, c);
    CandidatesAreNew(s, rsid, g, u);
    CandidatesAllNew(s, rsid, g, u);
    UpsertAdds(s.ledger, c);
  }

  lemma PromoteLedger(s: Sem, rsid: string, keys: seq<Key>)
    requires AllPresent(s.records, keys) && Promote(s, rsid, keys).Success?
    ensures CoverUncertain(s.ledger, rsid, UncertainOf(s.records, keys)).Success?
    ensures Promote(s, rsid, keys).value.ledger == CoverUncertain(s.ledger, rsid, UncertainOf(s.records, keys)).value.0
  {
  }

  lemma PromoteRecords(s: Sem, rsid: string, keys: seq<Key>)
    requires AllPresent(s.records, keys) && Promote(s, rsid, keys).Success?
    ensures var next := Promote(s, rsid, keys).value;
            && next.batches == s.batches && next.records.Keys == s.records.Keys
            && (forall k :: k in keys ==> next.records[k].state.Indeterminate?)
            && (forall k :: k in s.records && k !in keys ==> next.records[k] == s.records[k])
            && (forall k :: k in s.records ==> next.records[k].binding == s.records[k].binding)
  {
    var holds := CoverUncertain(s.ledger, rsid, UncertainOf(s.records, keys)).value.1;
    MarkAllEffect(s.records, keys, holds);
  }

  lemma ClashesAsScopes(s: Sem, rsid: string, g: seq<Key>, u: seq<Uncertain>, k: Key)
    requires |u| == |g| && k in s.records && k.rsid == rsid && s.records[k].binding.scope.Some?
    requires forall i :: 0 <= i < |g| ==>
      && g[i] in s.records && g[i].rsid == rsid && s.records[g[i]].binding.scope.Some?
      && u[i] == Uncertain(g[i], s.records[g[i]].binding.scope.value)
    ensures ClashesWith(s.records, g, k) <==>
            exists i :: 0 <= i < |u| && ScopesConflict(u[i].scope, s.records[k].binding.scope.value)
  {
    if ClashesWith(s.records, g, k) {
      var j :| j in g && ScopesClash(s.records, j, k);
      var i :| 0 <= i < |g| && g[i] == j;
      assert ScopesConflict(u[i].scope, s.records[k].binding.scope.value);
    }
    if i :| 0 <= i < |u| && ScopesConflict(u[i].scope, s.records[k].binding.scope.value) {
      assert g[i] in g && ScopesClash(s.records, g[i], k);
    }
  }

  /** Promoting open mutations blocks, besides what was blocked, exactly the records that clash with one of them. */
  lemma PromoteBlocks(s: Sem, rsid: string, g: seq<Key>, k: Key)
    requires SemInv(s) && AllPresent(s.records, g) && AllOpen(s.records, rsid, g) && Promote(s, rsid, g).Success?
    requires k in s.records
    ensures HoldBlocks(Promote(s, rsid, g).value, k) <==> HoldBlocks(s, k) || ClashesWith(s.records, g, k)
  {
    var u, next := UncertainOf(s.records, g), Promote(s, rsid, g).value;
    PromoteLedger(s, rsid, g);
    PromoteRecords(s, rsid, g);
    if s.records[k].binding.scope.Some? {
      if g == [] {
        assert next.ledger == s.ledger;
      } else {
        var scope := s.records[k].binding.scope.value;
        UncertainOfOpen(s.records, g);
        assert CandidateHolds(rsid, u).Success?;
        CoverInstalls(s, rsid, g, u);
        CandidatesAllNew(s, rsid, g, u);
        CandidateHits(rsid, u, scope);
        AddedHoldsConflict(s.ledger, next.ledger, CandidateHolds(rsid, u).value, rsid, k.rsid, scope);
        if k.rsid == rsid { ClashesAsScopes(s, rsid, g, u, k); }
      }
    }
  }

  // ----- One group per session -----

  ghost predicate NoneBlocked(s: Sem, groups: seq<seq<Key>>) {
    forall i, k :: 0 <= i < |groups| && k in groups[i] ==> !HoldBlocks(s, k)
  }

  /** Classifying other sessions blocks and frees nothing of this one. */
  lemma {:induction false} GroupsBlockNoOther(s: Sem, groups: seq<seq<Key>>, k: Key)
    requires SemInv(s) && GroupsOk(s.records, groups) && ClassifyGroups(s, groups).1 && k in s.records
    requires forall i :: 0 <= i < |groups| && groups[i] != [] ==> groups[i][0].rsid != k.rsid
    ensures HoldBlocks(ClassifyGroups(s, groups).0, k) <==> HoldBlocks(s, k)
  {
    if groups != [] {
      var n := |groups| - 1;
      var mid, g := ClassifyGroups(s, groups[..n]).0, groups[n];
      GroupsBlockNoOther(s, groups[..n], k);
      ClassifyGroupsKeep(s, groups[..n]);
      ClassifiedGroups(s, groups[..n]);
      LastGroupStillOk(s, groups, mid);
      GroupIsPromoted(mid, g);
      PromoteBlocks(mid, g[0].rsid, g, k);
    }
  }

  lemma LastGroupStillOk(s: Sem, groups: seq<seq<Key>>, mid: Sem)
    requires groups != [] && GroupsOk(s.records, groups) && GroupsEffect(s, groups[..|groups| - 1], mid)
    ensures GroupOk(mid.records, groups[|groups| - 1])
    ensures forall k :: k in groups[|groups| - 1] ==> k in s.records && mid.records[k] == s.records[k]
  {
    var g := groups[|groups| - 1];
    assert GroupOk(s.records, g);
    forall k | k in g ensures IsInterrupted(mid.records, k) && k in s.records && mid.records[k] == s.records[k] {
      LastGroupIsFresh(s.records, groups, k);
      assert IsInterrupted(s.records, k);
    }
  }

  lemma NextGroupIff(s: Sem, groups: seq<seq<Key>>)
    requires groups != [] && SemInv(s) && GroupsOk(s.records, groups) && ClassifyGroups(s, groups[..|groups| - 1]).1
    ensures var mid := ClassifyGroups(s, groups[..|groups| - 1]).0;
            MarkIndeterminateMany(mid, groups[|groups| - 1]).Success? <==>
              forall k :: k in groups[|groups| - 1] ==> !HoldBlocks(s, k)
  {
    var n := |groups| - 1;
    var mid, g := ClassifyGroups(s, groups[..n]).0, groups[n];
    ClassifyGroupsKeep(s, groups[..n]);
    ClassifiedGroups(s, groups[..n]);
    LastGroupStillOk(s, groups, mid);
    GroupClassifiesIff(mid, g);
    assert GroupOk(s.records, g);
    forall k | k in g ensures HoldBlocks(mid, k) <==> HoldBlocks(s, k) { GroupsBlockNoOther(s, groups[..n], k); }
  }

  lemma {:induction false} GroupsClassifyIff(s: Sem, groups: seq<seq<Key>>)
    requires SemInv(s) && GroupsOk(s.records, groups)
    ensures ClassifyGroups(s, groups).1 <==> NoneBlocked(s, groups)
  {
    if groups != [] {
      GroupsClassifyIff(s, groups[..|groups| - 1]);
      BlockedPrefix(s, groups);
      if ClassifyGroups(s, groups[..|groups| - 1]).1 { NextGroupIff(s, groups); }
    }
  }

  lemma BlockedPrefix(s: Sem, groups: seq<seq<Key>>)
    requires groups != []
    ensures NoneBlocked(s, groups) <==>
            NoneBlocked(s, groups[..|groups| - 1]) && forall k :: k in groups[|groups| - 1] ==> !HoldBlocks(s, k)
  {
    var n := |groups| - 1;
    assert forall i :: 0 <= i < n ==> groups[..n][i] == groups[i];
  }

  lemma ListedGroupsClassifyIff(s: Sem, groups: seq<seq<Key>>)
    requires SemInv(s) && ListsInterrupted(s.records, groups)
    ensures ClassifyGroups(s, groups).1 <==> forall k :: IsInterrupted(s.records, k) ==> !HoldBlocks(s, k)
  {
    ListedGroupsOk(s.records, groups);
    GroupsClassifyIff(s, groups);
    forall k | IsInterrupted(s.records, k) ensures Grouped(groups, k) { ListedIsGrouped(s.records, groups, k); }
    forall i, k | 0 <= i < |groups| && k in groups[i] ensures IsInterrupted(s.records, k) { assert GroupOk(s.records, groups[i]); }
  }

  // ----- A run after which no restart succeeds -----

  function Mutation(id: string): (b: Binding) {
    Binding("s", id, "wall.move", true, Some(DocumentScope("doc")), "digest", "policy", None, [], None)
  }

  function Message(num: nat, digest: string, cut: nat): (d: Delivery) {
    Delivery(Envelope("s", num, None, "invoke", digest), "{}", digest, true, false, "{}", cut)
  }

  const FIRST := Key("s", "a")
  const SECOND := Key("s", "b")
  const HOLD := HoldId("s", DocumentScope("doc"), [FIRST])
  const S1 := INIT.tables.sem.(records := map[FIRST := CreateReceived(Mutation("a")).value])
  const S2 := S1.(records := S1.records[SECOND := CreateReceived(Mutation("b")).value])
  const S3 := S2.(records := S2.records[SECOND := MarkExecuting(S2.records[SECOND]).value])
  const S4 := S3.(records := S3.records[FIRST := MarkIndeterminate(S3.records[FIRST], Some(HOLD)).value],
                  ledger := Ledger([HOLD], map[HOLD := FRESH]))

  lemma FirstTwoAccepted()
    ensures AcceptInvocation(INIT.tables.sem, Mutation("a"), "1", true) == Success((S1, Accepted))
    ensures AcceptInvocation(S1, Mutation("b"), "2", true) == Success((S2, Accepted))
    ensures ClaimInvocation(S2, SECOND) == Success(S3)
  {
    assert KeyOf(Mutation("a")) == FIRST && KeyOf(Mutation("b")) == SECOND;
    assert SECOND.invocationId != FIRST.invocationId;
  }

  lemma FirstInstalls()
    ensures InstallHolds(S3.ledger, "s", [Uncertain(FIRST, DocumentScope("doc"))])
            == Success(Installed(Ledger([HOLD], map[HOLD := FRESH]), [HOLD]))
  {
    SingleCandidate("s", Uncertain(FIRST, DocumentScope("doc")));
    assert S3.ledger == Ledger([], map[]);
    assert HOLD in [HOLD] && !IsPresent(S3.ledger, HOLD);
    assert [HOLD][..0] == [];
    assert UpsertAll(S3.ledger, [HOLD]) == Upsert(S3.ledger, HOLD);
    assert [] + [HOLD] == [HOLD];
    assert Upsert(S3.ledger, HOLD).rows == map[HOLD := FRESH];
  }

  lemma FirstPromoted()
    ensures AcceptInvocation(S3, Mutation("a"), "3", true) == Success((S4, Redelivered(PromoteIndeterminate)))
  {
    FirstInstalls();
    assert KeyOf(Mutation("a")) == FIRST && SECOND.invocationId != FIRST.invocationId;
    assert S3.records[FIRST] == CreateReceived(Mutation("a")).value;
  }

  lemma SecondIsStranded()
    ensures IsInterrupted(S4.records, SECOND) && HoldBlocks(S4, SECOND)
  {
    assert SECOND.invocationId != FIRST.invocationId;
    assert S4.records[SECOND].binding == Mutation("b");
    assert DocumentScope("doc") in [DocumentScope("doc")];
    assert HOLD in S4.ledger.rows && ConflictsWith(S4.ledger, HOLD, "s", [DocumentScope("doc")]);
  }

  lemma NoBatchListed(ids: seq<string>)
    requires ListsDispatched(S4, ids)
    ensures ids == []
  {
    if ids != [] { ListHasMember(ids); }
  }

  lemma OnlyOneGroup(groups: seq<seq<Key>>)
    requires ListsInterrupted(S4.records, groups)
    ensures |groups| <= 1
  {
    ListedGroupsOk(S4.records, groups);
    forall i | 0 <= i < |groups| ensures groups[i] != [] && groups[i][0].rsid == "s" {
      assert GroupOk(S4.records, groups[i]) && groups[i][0] in groups[i];
      assert IsInterrupted(S4.records, groups[i][0]);
    }
    if |groups| > 1 { TwoGroupsDiffer(S4.records, groups); }
  }

  lemma TwoGroupsDiffer(records: Records, groups: seq<seq<Key>>)
    requires GroupsOk(records, groups) && |groups| > 1
    ensures groups[0] != [] && groups[1] != [] && groups[0][0].rsid != groups[1][0].rsid
  {
    assert GroupOk(records, groups[0]) && GroupOk(records, groups[1]);
  }

  lemma OneGroupFails(s: Sem, groups: seq<seq<Key>>)
    requires |groups| <= 1 && !ClassifyGroups(s, groups).1
    ensures ClassifyGroups(s, groups).0 == s
  {
    assert groups != [] ==> groups[..|groups| - 1] == [];
  }

  lemma StrandedNeverRestarts(ids: seq<string>, groups: seq<seq<Key>>)
    requires SemInv(S4)
    ensures RestartSem(S4, ids, groups) == (S4, false)
  {
    SecondIsStranded();
    if ListsDispatched(S4, ids) {
      NoBatchListed(ids);
      if ListsInterrupted(S4.records, groups) {
        ListedGroupsClassifyIff(S4, groups);
        OnlyOneGroup(groups);
        OneGroupFails(S4, groups);
      }
    }
  }

  const STRANDING: seq<Op> := [
    Invoke(Message(1, "1", 0), Mutation("a")),
    Restart([], []),
    Invoke(Message(2, "2", 2), Mutation("b")),
    Invoke(Message(3, "3", 2), Mutation("a"))]

  lemma RowsOfRun(ops: seq<Op>)
    ensures WireInvariant.RowsInv(Run(ops).tables.wire)
  {
    RunKeeps(ops);
  }

  /** One more accepted message of the run. */
  lemma RunMessage(ops: seq<Op>, d: Delivery, b: Binding, s: Sem, decision: InvokeDecision)
    requires d.env.kind == "invoke" && d.env.ack.None? && d.env.rsid == b.rsid
    requires b.invocationId != "" && b.batch.None?
    requires d.env.num == Load(Run(ops).tables.wire, b.rsid).lastRx + 1 && d.env.num <= MAX_SEQUENCE
    requires AcceptInvocation(Run(ops).tables.sem, b, d.identity, d.sorted) == Success((s, decision))
    ensures var next := Run(ops + [Invoke(d, b)]).tables;
            next.sem == SendInvocation(s, KeyOf(b), decision, d.cut).0 && Load(next.wire, b.rsid).lastRx == d.env.num
  {
    RowsOfRun(ops);
    NextMessage(Run(ops).tables, d, b, s, decision);
    assert (ops + [Invoke(d, b)])[..|ops|] == ops;
  }

  lemma MessagesSend()
    ensures SendInvocation(S1, KeyOf(Mutation("a")), Accepted, 0).0 == S1
    ensures SendInvocation(S2, KeyOf(Mutation("b")), Accepted, 2).0 == S3
  {
    FirstTwoAccepted();
    assert KeyOf(Mutation("b")) == SECOND;
  }

  lemma FirstMessage()
    ensures Run(STRANDING[..1]).tables.sem == S1 && Load(Run(STRANDING[..1]).tables.wire, "s").lastRx == 1
  {
    FirstTwoAccepted();
    MessagesSend();
    RunMessage([], Message(1, "1", 0), Mutation("a"), S1, Accepted);
    assert [] + [STRANDING[0]] == STRANDING[..1];
  }

  /** The first mutation was only received, so the restart after the first crash finds nothing to classify. */
  lemma NothingToClassify()
    ensures RestartSem(S1, [], []) == (S1, true)
  {
    assert forall k :: !IsInterrupted(S1.records, k);
  }

  lemma RunRestart(ops: seq<Op>, s: Sem)
    requires Run(ops).tables.sem == s && RestartSem(s, [], []).0 == s
    ensures Run(ops + [Restart([], [])]).tables == Run(ops).tables
  {
    assert (ops + [Restart([], [])])[..|ops|] == ops;
  }

  lemma FirstRestart()
    ensures Run(STRANDING[..2]).tables.sem == S1 && Load(Run(STRANDING[..2]).tables.wire, "s").lastRx == 1
  {
    FirstMessage();
    NothingToClassify();
    RunRestart(STRANDING[..1], S1);
    assert STRANDING[..1] + [STRANDING[1]] == STRANDING[..2];
  }

  lemma SecondMessageAfter(ops: seq<Op>)
    requires Run(ops).tables.sem == S1 && Load(Run(ops).tables.wire, "s").lastRx == 1
    ensures var next := Run(ops + [Invoke(Message(2, "2", 2), Mutation("b"))]).tables;
            next.sem == S3 && Load(next.wire, "s").lastRx == 2
  {
    FirstTwoAccepted();
    MessagesSend();
    RunMessage(ops, Message(2, "2", 2), Mutation("b"), S2, Accepted);
  }

  lemma SecondMessage()
    ensures Run(STRANDING[..3]).tables.sem == S3 && Load(Run(STRANDING[..3]).tables.wire, "s").lastRx == 2
  {
    FirstRestart();
    SecondMessageAfter(STRANDING[..2]);
    assert STRANDING[..2] + [STRANDING[2]] == STRANDING[..3];
  }

  lemma Stranding()
    ensures Run(STRANDING).tables.sem == S4
  {
    SecondMessage();
    FirstPromoted();
    RunMessage(STRANDING[..3], Message(3, "3", 2), Mutation("a"), S4, Redelivered(PromoteIndeterminate));
    assert STRANDING[..3] + [STRANDING[3]] == STRANDING;
  }

  /**
   The bridge receives a mutation and crashes; it restarts, sends another mutation of the same
   document, and the first one is delivered again, which leaves a hold.  If it now crashes,
   every restart throws, for ever, and the second mutation stays open.
   */
  lemma RestartCanFailForEver(ids: seq<string>, groups: seq<seq<Key>>)
    ensures IsInterrupted(Run(STRANDING).tables.sem.records, SECOND)
    ensures RestartSem(Run(STRANDING).tables.sem, ids, groups) == (Run(STRANDING).tables.sem, false)
  {
    Stranding();
    RunKeeps(STRANDING);
    SecondIsStranded();
    StrandedNeverRestarts(ids, groups);
  }
}
