/**
 The mutation-hold ledger (packages/protocol/src/mutationHold.ts).  The table
 keeps its rows in a fixed order (`order`), which stands for the source's sort by
 hold id; a hold's session, scope and origin keys are the three parts of its id.
 */
module MutationHolds {
  import opened Wrappers
  import opened JournalRecords

  datatype HoldState = Active | EvidenceRecorded | ResolvedPendingBridge | Cleared

  datatype Evidence = Evidence(evidenceDigest: string, conclusion: string)

  datatype Resolution = Resolution(clearance: Clearance, authorizedIdentity: string)

  datatype Hold = Hold(
    state: HoldState, evidence: Option<Evidence>, resolution: Option<Resolution>, clearedBy: Option<string>)

  datatype Ledger = Ledger(order: seq<HoldId>, rows: map<HoldId, Hold>)

  datatype Uncertain = Uncertain(key: Key, scope: Scope)

  datatype Install =
    | Installed(ledger: Ledger, holds: seq<HoldId>)
    | AlreadyPresent(holds: seq<HoldId>)
    | InstallBlocked(holds: seq<HoldId>)

  datatype Authorization = Allowed(ledger: Ledger) | AuthBlocked(holds: seq<HoldId>) | AuthFault(reason: string)

  const FRESH := Hold(Active, None, None, None)

  predicate ScopesConflict(a: Scope, b: Scope) {
    a.SessionScope? || b.SessionScope? || a.documentId == b.documentId
  }

  ghost predicate LedgerInv(l: Ledger) {
    && (forall id :: id in l.order <==> id in l.rows)
    && forall id :: id in l.rows ==> |id.keys| > 0 && forall k :: k in id.keys ==> k.rsid == id.rsid
  }

  predicate ConflictsWith(l: Ledger, id: HoldId, rsid: string, scopes: seq<Scope>) {
    && id in l.rows && !l.rows[id].state.Cleared? && id.rsid == rsid
    && exists s :: s in scopes && ScopesConflict(id.scope, s)
  }

  function Conflicts(l: Ledger, ids: seq<HoldId>, rsid: string, scopes: seq<Scope>): (c: seq<HoldId>)
    ensures forall id :: id in c <==> id in ids && ConflictsWith(l, id, rsid, scopes)
  {
    if ids == [] then []
    else
      var rest := Conflicts(l, ids[..|ids| - 1], rsid, scopes);
      var last := ids[|ids| - 1];
      if ConflictsWith(l, last, rsid, scopes) then rest + [last] else rest
  }

  // ----- One hold per conflicting scope -----

  predicate DistinctKeys(u: seq<Uncertain>) {
    forall i, j :: 0 <= i < j < |u| ==> u[i].key != u[j].key
  }

  function KeysOf(u: seq<Uncertain>): (ks: seq<Key>)
    ensures |ks| == |u|
    ensures forall i :: 0 <= i < |u| ==> ks[i] == u[i].key
  {
    seq(|u|, i requires 0 <= i < |u| => u[i].key)
  }

  function AddToGroup(groups: seq<HoldId>, rsid: string, e: Uncertain): (g: seq<HoldId>) {
    if groups == [] then [HoldId(rsid, e.scope, [e.key])]
    else if groups[0].scope == e.scope then [groups[0].(keys := groups[0].keys + [e.key])] + groups[1..]
    else [groups[0]] + AddToGroup(groups[1..], rsid, e)
  }

  function GroupByScope(rsid: string, u: seq<Uncertain>): (g: seq<HoldId>) {
    if u == [] then [] else AddToGroup(GroupByScope(rsid, u[..|u| - 1]), rsid, u[|u| - 1])
  }

  function CandidateHolds(rsid: string, u: seq<Uncertain>): (c: Result<seq<HoldId>>) {
    if u == [] || !DistinctKeys(u) then Throw
    else if exists e :: e in u && e.scope.SessionScope? then Success([HoldId(rsid, SessionScope, KeysOf(u))])
    else Success(GroupByScope(rsid, u))
  }

  /** The first hold of the list that names the key. */
  function HoldFor(holds: seq<HoldId>, k: Key): (h: Option<HoldId>)
    ensures h.Some? ==> h.value in holds && k in h.value.keys
    ensures h.None? ==> forall id :: id in holds ==> k !in id.keys
  {
    if holds == [] then None
    else if k in holds[0].keys then Some(holds[0])
    else HoldFor(holds[1..], k)
  }

  ghost predicate IsGrouping(rsid: string, u: seq<Uncertain>, holds: seq<HoldId>) {
    && (forall h :: h in holds ==> h.rsid == rsid && |h.keys| > 0)
    && (forall h, k :: h in holds && k in h.keys ==> exists i :: 0 <= i < |u| && u[i].key == k)
    && (forall i :: 0 <= i < |u| ==> HoldFor(holds, u[i].key).Some?)
  }

  predicate Disjoint(a: HoldId, b: HoldId) {
    forall k :: k in a.keys ==> k !in b.keys
  }

  /** No key is named by two holds of the list. */
  ghost predicate Separate(holds: seq<HoldId>) {
    forall i, j :: 0 <= i < j < |holds| ==> Disjoint(holds[i], holds[j])
  }

  lemma {:induction false} HoldForUnique(holds: seq<HoldId>, h: HoldId, k: Key)
    requires Separate(holds) && h in holds && k in h.keys
    ensures HoldFor(holds, k) == Some(h)
  {
    if k in holds[0].keys {
      var i :| 0 <= i < |holds| && holds[i] == h;
      assert i != 0 ==> Disjoint(holds[0], holds[i]);
    } else {
      HoldForUnique(holds[1..], h, k);
    }
  }

  lemma {:induction false} AddToGroupKeys(groups: seq<HoldId>, rsid: string, e: Uncertain, k: Key)
    requires forall h :: h in groups ==> e.key !in h.keys
    ensures k != e.key && HoldFor(groups, k).None? ==> HoldFor(AddToGroup(groups, rsid, e), k).None?
    ensures k != e.key && HoldFor(groups, k).Some? ==> HoldFor(AddToGroup(groups, rsid, e), k).Some?
    ensures HoldFor(AddToGroup(groups, rsid, e), e.key).Some?
    decreases groups
  {
    if groups != [] && groups[0].scope != e.scope {
      AddToGroupKeys(groups[1..], rsid, e, k);
    }
  }

  lemma {:induction false} AddToGroupMembers(groups: seq<HoldId>, rsid: string, e: Uncertain, h: HoldId)
    requires h in AddToGroup(groups, rsid, e)
    ensures
      || h in groups
      || h == HoldId(rsid, e.scope, [e.key])
      || exists g :: g in groups && h == g.(keys := g.keys + [e.key])
    decreases groups
  {
    if groups != [] && groups[0].scope != e.scope && h != groups[0] {
      AddToGroupMembers(groups[1..], rsid, e, h);
    }
  }

  lemma {:induction false} AddToGroupSeparate(groups: seq<HoldId>, rsid: string, e: Uncertain)
    requires Separate(groups)
    requires forall h :: h in groups ==> e.key !in h.keys
    ensures Separate(AddToGroup(groups, rsid, e))
    decreases groups
  {
    if groups != [] && groups[0].scope != e.scope {
      var tail := AddToGroup(groups[1..], rsid, e);
      AddToGroupSeparate(groups[1..], rsid, e);
      forall j | 0 <= j < |tail| ensures Disjoint(groups[0], tail[j]) {
        AddToGroupMembers(groups[1..], rsid, e, tail[j]);
        forall g | g in groups[1..] ensures Disjoint(groups[0], g) {
          var m :| 0 <= m < |groups[1..]| && groups[1..][m] == g;
          assert groups[m + 1] == g;
        }
      }
    }
  }

  lemma GroupNamesItsOwn(rsid: string, u: seq<Uncertain>, groups: seq<HoldId>, h: HoldId)
    requires u != [] && IsGrouping(rsid, u[..|u| - 1], groups) && h in AddToGroup(groups, rsid, u[|u| - 1])
    ensures h.rsid == rsid && |h.keys| > 0
    ensures forall k :: k in h.keys ==> exists i :: 0 <= i < |u| && u[i].key == k
  {
    var n := |u| - 1;
    AddToGroupMembers(groups, rsid, u[n], h);
    forall g, k | g in groups && k in g.keys ensures exists i :: 0 <= i < |u| && u[i].key == k {
      var i :| 0 <= i < n && u[..n][i].key == k;
      assert u[i].key == k;
    }
  }

  lemma {:induction false} GroupingSound(rsid: string, u: seq<Uncertain>)
    requires DistinctKeys(u)
    ensures IsGrouping(rsid, u, GroupByScope(rsid, u)) && Separate(GroupByScope(rsid, u))
  {
    if u != [] {
      var n := |u| - 1;
      var groups, e := GroupByScope(rsid, u[..n]), u[n];
      GroupingSound(rsid, u[..n]);
      assert forall h :: h in groups ==> e.key !in h.keys;
      AddToGroupSeparate(groups, rsid, e);
      forall i | 0 <= i < |u| ensures HoldFor(AddToGroup(groups, rsid, e), u[i].key).Some? {
        AddToGroupKeys(groups, rsid, e, u[i].key);
        assert i < n ==> u[..n][i] == u[i];
      }
      forall h | h in AddToGroup(groups, rsid, e)
        ensures h.rsid == rsid && |h.keys| > 0
        ensures forall k :: k in h.keys ==> exists i :: 0 <= i < |u| && u[i].key == k
      {
        GroupNamesItsOwn(rsid, u, groups, h);
      }
    }
  }

  /** Every uncertain key gets exactly one hold, and no hold names any other key. */
  lemma CandidatesSound(rsid: string, u: seq<Uncertain>)
    requires CandidateHolds(rsid, u).Success?
    ensures IsGrouping(rsid, u, CandidateHolds(rsid, u).value) && Separate(CandidateHolds(rsid, u).value)
    ensures CandidateHolds(rsid, u).value != []
  {
    var c := CandidateHolds(rsid, u).value;
    if exists e :: e in u && e.scope.SessionScope? {
      forall i | 0 <= i < |u| ensures u[i].key in c[0].keys {
        assert KeysOf(u)[i] == u[i].key;
      }
    } else {
      GroupingSound(rsid, u);
      assert HoldFor(c, u[0].key).Some?;
    }
  }

  // ----- Installing holds -----

  predicate IsPresent(l: Ledger, id: HoldId) {
    id in l.rows && !l.rows[id].state.Cleared?
  }

  /** A new row, or one that replaces a cleared row with the same id. */
  function Upsert(l: Ledger, id: HoldId): (next: Ledger) {
    Ledger(if id in l.order then l.order else l.order + [id], l.rows[id := FRESH])
  }

  function UpsertAll(l: Ledger, ids: seq<HoldId>): (next: Ledger) {
    if ids == [] then l else Upsert(UpsertAll(l, ids[..|ids| - 1]), ids[|ids| - 1])
  }

  function ScopesOf(ids: seq<HoldId>): (s: seq<Scope>)
    ensures |s| == |ids| && forall i :: 0 <= i < |ids| ==> s[i] == ids[i].scope
  {
    seq(|ids|, i requires 0 <= i < |ids| => ids[i].scope)
  }

  function InstallHolds(l: Ledger, rsid: string, u: seq<Uncertain>): (r: Result<Install>) {
    var candidates :- CandidateHolds(rsid, u);
    var conflicts := Conflicts(l, l.order, rsid, ScopesOf(candidates));
    if forall id :: id in candidates ==> IsPresent(l, id) then Success(AlreadyPresent(candidates))
    else if conflicts != [] then Success(InstallBlocked(conflicts))
    else Success(Installed(UpsertAll(l, candidates), candidates))
  }

  lemma {:induction false} UpsertAllRows(l: Ledger, ids: seq<HoldId>)
    ensures UpsertAll(l, ids).rows.Keys == l.rows.Keys + set id | id in ids
    ensures forall id :: id in l.rows && id !in ids ==> UpsertAll(l, ids).rows[id] == l.rows[id]
    ensures (forall id :: id in l.order <==> id in l.rows) ==>
              forall id :: id in UpsertAll(l, ids).order <==> id in UpsertAll(l, ids).rows
  {
    if ids != [] {
      UpsertAllRows(l, ids[..|ids| - 1]);
      assert ids == ids[..|ids| - 1] + [ids[|ids| - 1]];
    }
  }

  /**
   The block the journal repeats before it promotes records: install holds for
   the uncertain keys, or fall back to existing holds that already name them all.
   */
  function CoverUncertain(l: Ledger, rsid: string, u: seq<Uncertain>): (r: Result<(Ledger, seq<HoldId>)>) {
    if u == [] then Success((l, []))
    else
      var installed :- InstallHolds(l, rsid, u);
      match installed
      case Installed(next, holds) => Success((next, holds))
      case AlreadyPresent(holds) => Success((l, holds))
      case InstallBlocked(conflicts) =>
        if forall e :: e in u ==> HoldFor(conflicts, e.key).Some? then Success((l, conflicts)) else Throw
  }

  // ----- Authorizing a dispatch -----

  function ReadyClearance(h: Hold): (c: Option<Clearance>) {
    if h.resolution.Some? then Some(h.resolution.value.clearance) else None
  }

  predicate Clears(l: Ledger, id: HoldId, c: Clearance, identity: string) {
    && id in l.rows
    && l.rows[id].resolution.Some?
    && l.rows[id].resolution.value.authorizedIdentity == identity
    && l.rows[id].resolution.value.clearance == c
    && c.holdId == id
  }

  /** `sorted` says whether the clearances came in strictly ascending hold-id order. */
  function Authorize(l: Ledger, rsid: string, scopes: seq<Scope>, clearances: seq<Clearance>, sorted: bool,
                     identity: string): (a: Authorization)
  {
    var conflicts := Conflicts(l, l.order, rsid, scopes);
    if !sorted then AuthFault("unsorted_clearances")
    else if conflicts == [] then
      if forall c :: c in clearances ==>
           && c.holdId in l.rows
           && l.rows[c.holdId].state.Cleared?
           && c.holdId.rsid == rsid
           && l.rows[c.holdId].clearedBy == Some(identity)
           && (exists s :: s in scopes && ScopesConflict(c.holdId.scope, s))
           && ReadyClearance(l.rows[c.holdId]) == Some(c)
      then Allowed(l) else AuthFault("foreign_clearance")
    else if clearances == [] then AuthBlocked(conflicts)
    else if |clearances| != |conflicts| then AuthFault("missing_clearance")
    else if exists id :: id in conflicts && !l.rows[id].state.ResolvedPendingBridge? then
      AuthFault("clearance_not_ready")
    else if exists i :: 0 <= i < |conflicts| && !Clears(l, conflicts[i], clearances[i], identity) then
      AuthFault("clearance_mismatch")
    else
      Allowed(l.(rows := map id | id in l.rows ::
        if id in conflicts then l.rows[id].(state := Cleared, clearedBy := Some(identity)) else l.rows[id]))
  }

  // ----- Evidence and resolution -----

  function RecordEvidence(l: Ledger, id: HoldId, e: Evidence): (next: Result<Ledger>) {
    if id !in l.rows || l.rows[id].state.ResolvedPendingBridge? || l.rows[id].state.Cleared? then Throw
    else if e.conclusion == "non_execution_proven" || e.conclusion == "postcondition_verified" then
      Success(l.(rows := l.rows[id := l.rows[id].(state := EvidenceRecorded, evidence := Some(e))]))
    else Success(l)
  }

  function ResolveHold(l: Ledger, id: HoldId, r: Resolution): (next: Result<Ledger>) {
    if id !in l.rows || !l.rows[id].state.EvidenceRecorded? || l.rows[id].evidence.None? then Throw
    else if r.clearance.holdId != id
         || r.clearance.evidenceDigest != l.rows[id].evidence.value.evidenceDigest
         || r.clearance.decision != l.rows[id].evidence.value.conclusion then Throw
    else Success(l.(rows := l.rows[id := l.rows[id].(state := ResolvedPendingBridge, resolution := Some(r))]))
  }

  // ----- What no ledger operation may undo -----

  /** Holds are never removed, and a cleared hold was cleared by the dispatch its resolution authorized. */
  ghost predicate ClearancesBound(l: Ledger) {
    forall id :: id in l.rows ==>
      var h := l.rows[id];
      && (h.state.Cleared? ==> h.resolution.Some? && h.clearedBy == Some(h.resolution.value.authorizedIdentity))
      && (h.state.Active? || h.state.EvidenceRecorded? ==> h.clearedBy.None?)
  }

  lemma AuthorizeKeepsHolds(l: Ledger, rsid: string, scopes: seq<Scope>, clearances: seq<Clearance>,
                            sorted: bool, identity: string)
    requires ClearancesBound(l) && Authorize(l, rsid, scopes, clearances, sorted, identity).Allowed?
    ensures var next := Authorize(l, rsid, scopes, clearances, sorted, identity).ledger;
            && next.order == l.order && next.rows.Keys == l.rows.Keys && ClearancesBound(next)
            && forall id :: id in next.order ==> !ConflictsWith(next, id, rsid, scopes)
  {
    var next := Authorize(l, rsid, scopes, clearances, sorted, identity).ledger;
    var conflicts := Conflicts(l, l.order, rsid, scopes);
    forall id | id in conflicts && next != l ensures Clears(l, id, l.rows[id].resolution.value.clearance, identity) {
      var i :| 0 <= i < |conflicts| && conflicts[i] == id;
      assert Clears(l, conflicts[i], clearances[i], identity);
    }
  }
}
