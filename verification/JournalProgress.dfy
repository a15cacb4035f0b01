/** The journal does what it is asked when nothing stands in the way. */
module JournalProgress {
  import opened Wrappers
  import opened JournalRecords
  import opened MutationHolds
  import opened SemanticTables
  import opened SemanticInvariant
  import opened SemanticSteps
  import opened Sequences
  import opened WireTables
  import WireInvariant
  import opened Journal

  /** No hold that is not cleared conflicts with these scopes. */
  ghost predicate Unblocked(l: Ledger, rsid: string, scopes: seq<Scope>) {
    forall id :: id in l.order ==> !ConflictsWith(l, id, rsid, scopes)
  }

  lemma HasMember(ids: seq<HoldId>)
    requires ids != []
    ensures exists id :: id in ids
  {
    assert ids[0] in ids;
  }

  lemma UnblockedIsAllowed(l: Ledger, rsid: string, scopes: seq<Scope>, identity: string)
    requires Unblocked(l, rsid, scopes)
    ensures Conflicts(l, l.order, rsid, scopes) == [] && Authorize(l, rsid, scopes, [], true, identity) == Allowed(l)
  {
    if Conflicts(l, l.order, rsid, scopes) != [] { HasMember(Conflicts(l, l.order, rsid, scopes)); }
  }

  // ----- Single invocations -----

  /** A valid binding that needs no clearance and no open verification hold. */
  predicate Plain(b: Binding) {
    BindingValid(b) && b.batch.None? && b.verification.None? && b.clearances == []
  }

  ghost predicate Admissible(s: Sem, b: Binding) {
    Plain(b) && KeyOf(b) !in s.records && (b.mutating ==> Unblocked(s.ledger, b.rsid, [b.scope.value]))
  }

  lemma FreshIsAccepted(s: Sem, b: Binding, identity: string)
    requires Admissible(s, b)
    ensures AcceptInvocation(s, b, identity, true) ==
      Success((s.(records := s.records[KeyOf(b) := CreateReceived(b).value]), Accepted))
  {
    if b.mutating { UnblockedIsAllowed(s.ledger, b.rsid, [b.scope.value], identity); }
  }

  lemma NextArrival(w: Wire, e: Envelope, correlation: string, context: string)
    requires WireInvariant.RowsInv(w) && e.ack.None? && correlation != ""
    requires e.num == Load(w, e.rsid).lastRx + 1 && e.num <= MAX_SEQUENCE
    ensures var a := Arrive(w, e, correlation, context, Journaled, None, false);
            && a.Success? && a.value.1.New? && SlotOf(e) in a.value.0.work
            && a.value.0.work[SlotOf(e)] == Work(e.digest, e.kind, correlation, context, Journaled, None, None)
            && Load(a.value.0, e.rsid).lastRx == e.num
  {
    assert SlotOf(e) in w.work ==> WireInvariant.RowInv(w, SlotOf(e));
  }

  lemma JournaledIsAnswered(w: Wire, k: Slot, reply: string, supersede: bool)
    requires k in w.work && w.work[k].state.Journaled?
    ensures var r := StoreReply(w, k, reply, supersede);
            && r.Success? && r.value.seqs == w.seqs && k in r.value.work
            && r.value.work[k] == w.work[k].(state := ReplyReady, reply := Some(reply))
  {
  }

  /** The next message of a session is journalled with the decision on its invocation. */
  lemma NextMessage(t: Tables, d: Delivery, b: Binding, s: Sem, decision: InvokeDecision)
    requires WireInvariant.RowsInv(t.wire) && d.env.kind == "invoke" && d.env.ack.None? && d.env.rsid == b.rsid
    requires b.invocationId != "" && b.batch.None?
    requires d.env.num == Load(t.wire, b.rsid).lastRx + 1 && d.env.num <= MAX_SEQUENCE
    requires AcceptInvocation(t.sem, b, d.identity, d.sorted) == Success((s, decision))
    ensures var r := ExecInvoke(t, d, b);
            && r.Success? && (r.value.0.sem, r.value.1) == SendInvocation(s, KeyOf(b), decision, d.cut)
            && Load(r.value.0.wire, b.rsid).lastRx == d.env.num && SlotOf(d.env) in r.value.0.wire.work
            && r.value.0.wire.work[SlotOf(d.env)].reply == if AnswersInvoke(decision) then Some(d.reply) else None
  {
    NextArrival(t.wire, d.env, b.invocationId, d.context);
    var w := Arrive(t.wire, d.env, b.invocationId, d.context, Journaled, None, false).value.0;
    JournaledIsAnswered(w, SlotOf(d.env), d.reply, SupersedesInvoke(decision));
  }

  /** A new invocation that arrives in order and is not blocked is sent, exactly it, and is executing. */
  lemma FreshInvocationIsSent(t: Tables, d: Delivery, b: Binding)
    requires WireInvariant.RowsInv(t.wire) && Admissible(t.sem, b)
    requires d.env.kind == "invoke" && d.env.ack.None? && d.env.rsid == b.rsid && d.sorted && d.cut > 1
    requires d.env.num == Load(t.wire, b.rsid).lastRx + 1 && d.env.num <= MAX_SEQUENCE
    ensures var r := ExecInvoke(t, d, b);
            && r.Success? && r.value.1 == [KeyOf(b)]
            && r.value.0.sem.records == t.sem.records[KeyOf(b) := MarkExecuting(CreateReceived(b).value).value]
  {
    FreshIsAccepted(t.sem, b, d.identity);
    NextMessage(t, d, b, t.sem.(records := t.sem.records[KeyOf(b) := CreateReceived(b).value]), Accepted);
  }

  /** A settled invocation is answered from the journal: same outcome, nothing changed. */
  lemma SettledIsReplayed(s: Sem, b: Binding, identity: string, sorted: bool)
    requires RowsInv(s.records) && KeyOf(b) in s.records && s.records[KeyOf(b)].binding == b
    requires s.records[KeyOf(b)].terminal.Some?
    ensures AcceptInvocation(s, b, identity, sorted) ==
      Success((s, Redelivered(ReplayTerminal(s.records[KeyOf(b)].terminal.value))))
  {
    assert RecordInv(s.records[KeyOf(b)]);
    assert s.records[KeyOf(b) := s.records[KeyOf(b)]] == s.records;
  }

  /** Another payload under a known key is refused and changes nothing. */
  lemma ChangedBindingIsRefused(s: Sem, b: Binding, identity: string, sorted: bool)
    requires RowsInv(s.records) && KeyOf(b) in s.records && s.records[KeyOf(b)].binding != b
    ensures AcceptInvocation(s, b, identity, sorted).Throw? ||
            AcceptInvocation(s, b, identity, sorted) == Success((s, Fault("binding_mismatch")))
  {
    assert RecordInv(s.records[KeyOf(b)]);
  }

  /** A redelivered mutation that may have run becomes indeterminate under a new hold of its own. */
  lemma OpenMutationIsHeld(s: Sem, b: Binding, identity: string, sorted: bool)
    requires SemInv(s) && KeyOf(b) in s.records && s.records[KeyOf(b)].binding == b && b.mutating
    requires s.records[KeyOf(b)].state.Received? || s.records[KeyOf(b)].state.Executing?
    requires Unblocked(s.ledger, b.rsid, [b.scope.value])
    ensures var k := KeyOf(b);
            var hold := HoldId(b.rsid, b.scope.value, [k]);
            AcceptInvocation(s, b, identity, sorted) ==
              Success((s.(records := s.records[k := MarkIndeterminate(s.records[k], Some(hold)).value], ledger := Upsert(s.ledger, hold)),
                       Redelivered(PromoteIndeterminate)))
  {
    var k := KeyOf(b);
    assert RecordInv(s.records[k]);
    HoldIsInstalled(s, k, b.scope.value);
  }

  lemma HoldIsInstalled(s: Sem, k: Key, scope: Scope)
    requires SemInv(s) && k in s.records && s.records[k].holdId.None? && Unblocked(s.ledger, k.rsid, [scope])
    ensures var hold := HoldId(k.rsid, scope, [k]);
            InstallHolds(s.ledger, k.rsid, [Uncertain(k, scope)]) == Success(Installed(Upsert(s.ledger, hold), [hold]))
  {
    var hold := HoldId(k.rsid, scope, [k]);
    SingleCandidate(k.rsid, Uncertain(k, scope));
    assert ScopesOf([hold]) == [scope];
    UnblockedIsAllowed(s.ledger, k.rsid, [scope], "");
    assert k in hold.keys && hold in [hold];
    assert hold !in s.ledger.rows;
    assert [hold][..0] == [];
    assert UpsertAll(s.ledger, [hold]) == Upsert(s.ledger, hold);
  }

  // ----- Batches -----

  /** The steps of a batch are all new and valid. */
  ghost predicate NewSteps(records: Records, rsid: string, p: BatchPayload) {
    && (forall i :: 0 <= i < |p.steps| ==> BindingValid(StepBinding(rsid, p, i)) && StepKey(rsid, p, i) !in records)
    && (forall i, j :: 0 <= i < j < |p.steps| ==> p.steps[i].invocationId != p.steps[j].invocationId)
  }

  predicate IsReceivedStep(records: Records, rsid: string, p: BatchPayload, i: nat)
    requires i < |p.steps|
  {
    StepKey(rsid, p, i) in records && CreateReceived(StepBinding(rsid, p, i)) == Success(records[StepKey(rsid, p, i)])
  }

  lemma {:induction false} StepsAreInserted(records: Records, rsid: string, p: BatchPayload, n: nat)
    requires n <= |p.steps| && NewSteps(records, rsid, p)
    ensures InsertSteps(records, rsid, p, n).Success?
    ensures forall i :: n <= i < |p.steps| ==> StepKey(rsid, p, i) !in InsertSteps(records, rsid, p, n).value
    ensures forall i :: 0 <= i < n ==> IsReceivedStep(InsertSteps(records, rsid, p, n).value, rsid, p, i)
  {
    if n > 0 {
      StepsAreInserted(records, rsid, p, n - 1);
      forall i | 0 <= i < n - 1 ensures IsReceivedStep(InsertSteps(records, rsid, p, n).value, rsid, p, i) {
        assert IsReceivedStep(InsertSteps(records, rsid, p, n - 1).value, rsid, p, i);
      }
    }
  }

  lemma {:induction false} StepsAreClaimed(records: Records, rsid: string, p: BatchPayload, n: nat)
    requires n <= |p.steps|
    requires forall i, j :: 0 <= i < j < |p.steps| ==> p.steps[i].invocationId != p.steps[j].invocationId
    requires forall i :: 0 <= i < |p.steps| ==> IsReceivedStep(records, rsid, p, i)
    ensures ClaimSteps(records, rsid, p, n).Success?
    ensures forall i :: n <= i < |p.steps| ==> IsReceivedStep(ClaimSteps(records, rsid, p, n).value, rsid, p, i)
  {
    if n > 0 {
      StepsAreClaimed(records, rsid, p, n - 1);
      var prev := ClaimSteps(records, rsid, p, n - 1).value;
      assert IsReceivedStep(prev, rsid, p, n - 1);
      forall i | n <= i < |p.steps| ensures IsReceivedStep(ClaimSteps(records, rsid, p, n).value, rsid, p, i) {
        assert IsReceivedStep(prev, rsid, p, i) && p.steps[n - 1].invocationId != p.steps[i].invocationId;
      }
    }
  }

  ghost predicate AdmissibleBatch(s: Sem, rsid: string, p: BatchPayload) {
    && p.steps != [] && p.atomic && p.clearances == [] && p.batchId !in s.batches && NewSteps(s.records, rsid, p)
    && Unblocked(s.ledger, rsid, StepScopes(p, |p.steps|))
  }

  lemma NewBatchIsAccepted(s: Sem, rsid: string, p: BatchPayload, identity: string)
    requires AdmissibleBatch(s, rsid, p)
    ensures InsertSteps(s.records, rsid, p, |p.steps|).Success?
    ensures AcceptBatch(s, rsid, p, identity, true) ==
      Success((Sem(InsertSteps(s.records, rsid, p, |p.steps|).value, s.ledger, s.batches[p.batchId := Batch(rsid, p, BatchReceived, None)]),
               StepsDecided(seq(|p.steps|, i => StepAccepted))))
  {
    StepsAreInserted(s.records, rsid, p, |p.steps|);
    UnblockedIsAllowed(s.ledger, rsid, StepScopes(p, |p.steps|), identity);
    var bound := AcceptBatchBinding(s, rsid, p).value;
    assert AcceptBatchInvocations(bound, rsid, p, identity, true) == AcceptNewBatch(bound, rsid, p, identity, true);
  }

  lemma InsertedBatchIsClaimed(s: Sem, records: Records, rsid: string, p: BatchPayload)
    requires AdmissibleBatch(s, rsid, p) && InsertSteps(s.records, rsid, p, |p.steps|) == Success(records)
    ensures ClaimAtomicBatch(Sem(records, s.ledger, s.batches[p.batchId := Batch(rsid, p, BatchReceived, None)]), rsid, p).Success?
  {
    StepsAreInserted(s.records, rsid, p, |p.steps|);
    StepsAreClaimed(records, rsid, p, |p.steps|);
  }

  /** A new atomic batch that is not blocked is sent whole, in one dispatch. */
  lemma AtomicBatchIsSentWhole(s: Sem, rsid: string, p: BatchPayload, identity: string, cut: nat)
    requires AdmissibleBatch(s, rsid, p) && cut > 1
    ensures AcceptBatch(s, rsid, p, identity, true).Success?
    ensures var (mid, d) := AcceptBatch(s, rsid, p, identity, true).value;
            SendBatch(mid, rsid, p, d, cut).1 == StepKeys(rsid, p)
  {
    NewBatchIsAccepted(s, rsid, p, identity);
    InsertedBatchIsClaimed(s, InsertSteps(s.records, rsid, p, |p.steps|).value, rsid, p);
  }

  /** The next step of a non-atomic batch is claimed once everything before it has completed. */
  lemma NextStepIsClaimed(s: Sem, b: Binding, identity: string)
    requires RowsInv(s.records) && KeyOf(b) in s.records && s.records[KeyOf(b)].binding == b && b.batch.Some?
    requires s.records[KeyOf(b)].state.Received? && PrefixCompleted(s.records, b.rsid, b.batch.value)
    requires b.mutating ==> b.scope.Some? && Unblocked(s.ledger, b.rsid, [b.scope.value])
    ensures ClaimStep(s, b, identity) ==
      Success((s.(records := s.records[KeyOf(b) := MarkExecuting(s.records[KeyOf(b)]).value]), true))
  {
    assert RecordInv(s.records[KeyOf(b)]);
    if b.mutating { UnblockedIsAllowed(s.ledger, b.rsid, [b.scope.value], identity); }
  }

  // ----- Deliveries -----

  /** While a plan is pending its next draft can be given a number, and none other can. */
  lemma ExactlyNextDraftCanBeSent(w: Wire, h: WireInvariant.Hist, d: string, k: DraftKey, text: string)
    requires WireInvariant.WireInv(w, h) && d in w.plans && w.plans[d].state.Pending? && k.deliveryId == d
    requires Load(w, w.plans[d].rsid).outbox == [] && Load(w, w.plans[d].rsid).nextTx.Some?
    ensures d in h.sent
    ensures QueueOutbound(w, w.plans[d].rsid, text, Some(k), None).Success? <==>
      k.ordinal == |h.sent[d]| && k in w.drafts && w.drafts[k] == text
  {
    assert WireInvariant.PlanInv(w, h.sent, d);
    var first := DraftKey(d, |h.sent[d]|);
    assert first in w.drafts;
    assert IsNextDraft(w, w.plans[d].rsid, k, text) <==> k == first && w.drafts[first] == text;
  }
}
