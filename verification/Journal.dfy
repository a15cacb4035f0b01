/**
 The journal as one machine: every durable transaction and every synchronous
 stretch of the driver that ends in a send to the add-in is one operation.
 A crash is the absence of further steps of an operation (`cut`), or a
 `Restart`; whatever was committed before stays.
 */
module Journal {
  import opened Wrappers
  import opened JournalRecords
  import opened MutationHolds
  import opened SemanticTables
  import opened Sequences
  import opened WireTables
  import opened WireInvariant
  import opened WireSteps
  import opened WireDeliveries

  datatype Tables = Tables(sem: Sem, wire: Wire)

  /** `cut` says how far the driver got: 0 journalled, 1 claimed, 2 sent. */
  datatype Delivery = Delivery(env: Envelope, context: string, identity: string, sorted: bool, resume: bool, reply: string, cut: nat)

  datatype SemOp =
    | RecordOutcomes(entries: seq<(Key, Outcome)>)
    | RequestCancel(key: Key)
    | MarkUncertain(keys: seq<Key>)
    | MarkBatchUncertain(rsid: string, payload: BatchPayload)
    | CommitTerminal(rsid: string, batchId: string, digest: string, carrier: string, steps: seq<(string, Outcome)>)
    | CommitLate(rsid: string, batchId: string, digest: string, carrier: string, steps: seq<(string, Outcome)>)
    | AddEvidence(hold: HoldId, evidence: Evidence)
    | Resolve(hold: HoldId, resolution: Resolution)

  datatype WireOp =
    | TerminalReply(env: Envelope, correlation: string, context: string, reply: string, supersede: bool)
    | Coalesce(env: Envelope, correlation: string, context: string)
    | Observe(env: Envelope)
    | AnswerRow(slot: Slot, reply: string, supersede: bool)
    | SilenceRow(slot: Slot)
    | Stage(rsid: string, deliveryId: string, texts: seq<string>, inboundSeq: Option<nat>)
    | Queue(rsid: string, text: string, draft: Option<DraftKey>, carrier: Option<Carrier>)
    | Acknowledge(rsid: string, ack: nat)
    | Clean(slot: Slot)
    | Confirm(rsid: string)
    | Complete(rsid: string)

  datatype Op =
    | Invoke(delivery: Delivery, binding: Binding)
    | InvokeBatch(delivery: Delivery, payload: BatchPayload)
    | SendStep(binding: Binding, identity: string, sent: bool)
    | Cancel(delivery: Delivery, invocationId: string)
    | Unregister(rsid: string, reason: string, keys: seq<Key>)
    | Restart(batchIds: seq<string>, groups: seq<seq<Key>>)
    | OnSem(semOp: SemOp)
    | OnWire(wireOp: WireOp)

  // ----- Inbound work with its decision -----

  predicate TakesDecision(w: Wire, k: Slot, arrival: Arrival, resume: bool) {
    arrival.New? || (arrival.Again? && resume && k in w.work && w.work[k].state.Journaled?)
  }

  predicate AnswersInvoke(d: InvokeDecision) {
    match d
    case Accepted => false
    case Blocked(_) => true
    case Fault(_) => true
    case Redelivered(r) => !r.ReplayTerminal? && !r.ReplayLate? && !r.ReexecuteRead?
  }

  predicate SupersedesInvoke(d: InvokeDecision) {
    d.Redelivered? && (d.decision.ReturnIndeterminate? || d.decision.PromoteIndeterminate?)
  }

  function SlotOf(e: Envelope): (k: Slot) {
    Slot(e.rsid, e.num)
  }

  /** After an accepted invocation: claim it, then send it. */
  function SendInvocation(s: Sem, k: Key, d: InvokeDecision, cut: nat): (r: (Sem, seq<Key>)) {
    if d.Accepted? && cut > 0 then
      var claimed := ClaimInvocation(s, k);
      if claimed.Throw? then (s, []) else (claimed.value, if cut > 1 then [k] else [])
    else if d == Redelivered(ReexecuteRead) && cut > 1 then (s, [k])
    else (s, [])
  }

  function ExecInvoke(t: Tables, d: Delivery, b: Binding): (r: Result<(Tables, seq<Key>)>) {
    var k := SlotOf(d.env);
    if d.env.kind != "invoke" || b.rsid != d.env.rsid || b.invocationId == "" || b.batch.Some? then Throw
    else
      var (w, arrival) :- Arrive(t.wire, d.env, b.invocationId, d.context, Journaled, None, false);
      if !TakesDecision(w, k, arrival, d.resume) then Success((t.(wire := w), []))
      else
        var (s, decision) :- AcceptInvocation(t.sem, b, d.identity, d.sorted);
        var answered :- if AnswersInvoke(decision) then StoreReply(w, k, d.reply, SupersedesInvoke(decision)) else Success(w);
        var (next, sends) := SendInvocation(s, KeyOf(b), decision, d.cut);
        Success((Tables(next, answered), sends))
  }


  /** The batch decisions that are answered in the accepting transaction. */
  predicate AnswersBatch(s: Sem, p: BatchPayload, d: BatchDecision) {
    match d
    case BindingChanged => true
    case StepsFault(reason) =>
      && !(reason == "atomic_batch_not_safely_received" && p.batchId in s.batches && s.batches[p.batchId].state.BatchDispatched?)
      && !BatchSettled(s, p)
    case BatchBlocked(_) => !BatchSettled(s, p)
    case StepsDecided(_) => false
  }

  predicate BatchSettled(s: Sem, p: BatchPayload) {
    p.batchId in s.batches && (s.batches[p.batchId].terminal.Some? || s.batches[p.batchId].state.BatchIndeterminate?)
  }

  predicate IsReexecute(d: StepDecision) {
    d.StepRedelivered? && d.decision.ReexecuteRead?
  }

  /** The reads a redelivered non-atomic batch sends again. */
  function Reexecuted(rsid: string, p: BatchPayload, ds: seq<StepDecision>, n: nat): (keys: seq<Key>)
    requires n <= |ds| && n <= |p.steps|
  {
    if n == 0 then []
    else
      var rest := Reexecuted(rsid, p, ds, n - 1);
      if IsReexecute(ds[n - 1]) then rest + [StepKey(rsid, p, n - 1)] else rest
  }

  function SendBatch(s: Sem, rsid: string, p: BatchPayload, d: BatchDecision, cut: nat): (r: (Sem, seq<Key>)) {
    if !d.StepsDecided? || BatchSettled(s, p) || |d.steps| != |p.steps| then (s, [])
    else if p.atomic then
      if cut == 0 || exists i :: 0 <= i < |d.steps| && !d.steps[i].StepAccepted? then (s, [])
      else
        var claimed := ClaimAtomicBatch(s, rsid, p);
        if claimed.Throw? then (s, []) else (claimed.value, if cut > 1 then StepKeys(rsid, p) else [])
    else (s, if cut > 1 then Reexecuted(rsid, p, d.steps, |p.steps|) else [])
  }

  function ExecInvokeBatch(t: Tables, d: Delivery, p: BatchPayload): (r: Result<(Tables, seq<Key>)>) {
    var k := SlotOf(d.env);
    if d.env.kind != "invoke_batch" || p.batchId == "" || d.env.rsid == "" then Throw
    else
      var (w, arrival) :- Arrive(t.wire, d.env, p.batchId, d.context, Journaled, None, false);
      if !TakesDecision(w, k, arrival, d.resume) then Success((t.(wire := w), []))
      else
        var (s, decision) :- AcceptBatch(t.sem, d.env.rsid, p, d.identity, d.sorted);
        var answered :- if AnswersBatch(s, p, decision) then StoreReply(w, k, d.reply, false) else Success(w);
        var (next, sends) := SendBatch(s, d.env.rsid, p, decision, d.cut);
        Success((Tables(next, answered), sends))
  }

  function ExecSendStep(t: Tables, b: Binding, identity: string, sent: bool): (r: Result<(Tables, seq<Key>)>) {
    var (s, claimed) :- ClaimStep(t.sem, b, identity);
    Success((t.(sem := s), if claimed && sent then [KeyOf(b)] else []))
  }

  function ExecCancel(t: Tables, d: Delivery, invocationId: string): (r: Result<(Tables, seq<Key>)>) {
    var k := SlotOf(d.env);
    if d.env.kind != "cancel" || invocationId == "" then Throw
    else
      var (w, arrival) :- Arrive(t.wire, d.env, invocationId, d.context, Journaled, None, false);
      var key := Key(d.env.rsid, invocationId);
      if !TakesDecision(w, k, arrival, d.resume) || key !in t.sem.records then Success((t.(wire := w), []))
      else
        var (s, kind) :- CancelInvocation(t.sem, key);
        Success((Tables(s, if kind.CancelledBeforeDispatch? then CancelJournaled(w, d.env.rsid, invocationId) else w), []))
  }

  function ExecUnregister(t: Tables, rsid: string, reason: string, keys: seq<Key>): (r: Result<(Tables, seq<Key>)>) {
    var w :- IntendUnregister(t.wire, rsid, reason);
    if !ListsRevocable(t.sem.records, rsid, keys) then Throw
    else
      var s :- UnregisterRecords(t.sem, rsid, keys);
      Success((Tables(s, w), []))
  }

  // ----- Restart -----

  /** Each batch is its own transaction; a throw ends the restart and keeps what was committed. */
  function ClassifyBatches(s: Sem, ids: seq<string>): (r: (Sem, bool)) {
    if ids == [] then (s, true)
    else
      var (mid, ok) := ClassifyBatches(s, ids[..|ids| - 1]);
      if !ok then (mid, false)
      else
        var next := ClassifyBatch(mid, ids[|ids| - 1]);
        if next.Throw? then (mid, false) else (next.value, true)
  }

  function ClassifyGroups(s: Sem, groups: seq<seq<Key>>): (r: (Sem, bool)) {
    if groups == [] then (s, true)
    else
      var (mid, ok) := ClassifyGroups(s, groups[..|groups| - 1]);
      if !ok then (mid, false)
      else
        var next := MarkIndeterminateMany(mid, groups[|groups| - 1]);
        if next.Throw? then (mid, false) else (next.value, true)
  }

  ghost predicate ListsDispatched(s: Sem, ids: seq<string>) {
    forall id :: id in ids <==> DispatchedAtomic(s, id)
  }

  predicate IsInterrupted(records: Records, k: Key) {
    k in records && Interrupted(records[k])
  }

  /** One group per session that has interrupted mutations, in any order. */
  ghost predicate ListsInterrupted(records: Records, groups: seq<seq<Key>>) {
    && (forall g: seq<Key> :: g in groups ==> NoDuplicates(g) && g != [])
    && (forall g: seq<Key>, k: Key :: g in groups && k in g ==> IsInterrupted(records, k) && k.rsid == g[0].rsid)
    && (forall i, j :: 0 <= i < j < |groups| && groups[i] != [] && groups[j] != [] ==> groups[i][0].rsid != groups[j][0].rsid)
    && (forall k :: IsInterrupted(records, k) ==> exists g: seq<Key> :: g in groups && k in g)
  }

  /** The classification done by the journal's constructor. */
  ghost function RestartSem(s: Sem, ids: seq<string>, groups: seq<seq<Key>>): (r: (Sem, bool)) {
    if !ListsDispatched(s, ids) then (s, false)
    else
      var (mid, ok) := ClassifyBatches(s, ids);
      if !ok || !ListsInterrupted(mid.records, groups) then (mid, false) else ClassifyGroups(mid, groups)
  }

  // ----- All operations -----

  function ExecSem(s: Sem, op: SemOp): (r: Result<Sem>) {
    match op
    case RecordOutcomes(entries) => RecordTerminals(s, entries)
    case RequestCancel(key) =>
      var (next, _) :- CancelInvocation(s, key);
      Success(next)
    case MarkUncertain(keys) => MarkIndeterminateMany(s, keys)
    case MarkBatchUncertain(rsid, p) => MarkAtomicIndeterminate(s, rsid, p)
    case CommitTerminal(rsid, id, digest, carrier, entries) => CommitBatchTerminal(s, rsid, id, digest, carrier, entries)
    case CommitLate(rsid, id, digest, carrier, entries) => CommitLateTerminal(s, rsid, id, digest, carrier, entries)
    case AddEvidence(id, e) =>
      var l :- RecordEvidence(s.ledger, id, e);
      Success(s.(ledger := l))
    case Resolve(id, x) =>
      var l :- ResolveHold(s.ledger, id, x);
      Success(s.(ledger := l))
  }

  function FirstOf<A, B>(r: Result<(A, B)>): (a: Result<A>) {
    if r.Success? then Success(r.value.0) else Throw
  }

  function ExecWire(w: Wire, op: WireOp): (r: Result<Wire>) {
    match op
    case TerminalReply(e, correlation, context, reply, supersede) =>
      FirstOf(Arrive(w, e, correlation, context, ReplyReady, Some(reply), supersede))
    case Coalesce(e, correlation, context) => FirstOf(Arrive(w, e, correlation, context, NoReply, None, false))
    case Observe(e) =>
      var a := AcceptInbound(Load(w, e.rsid), e);
      if a.InDuplicate? then Success(StoreSeq(w, e.rsid, a.state)) else Throw
    case AnswerRow(k, reply, supersede) => StoreReply(w, k, reply, supersede)
    case SilenceRow(k) => CompleteNoReply(w, k)
    case Stage(rsid, d, texts, inboundSeq) => StageDelivery(w, rsid, d, texts, inboundSeq)
    case Queue(rsid, text, draft, carrier) => FirstOf(QueueOutbound(w, rsid, text, draft, carrier))
    case Acknowledge(rsid, ack) => AcknowledgeOutbound(w, rsid, ack)
    case Clean(k) =>
      if k in w.outbox && k.num <= Load(w, k.rsid).lastPeerAck then MarkCleaned(w, k.rsid, k.num) else Throw
    case Confirm(rsid) => Success(ConfirmUnregister(w, rsid))
    case Complete(rsid) => Success(CompleteUnregister(w, rsid))
  }

  /** `Throw` is a rolled-back transaction: nothing changes and nothing is sent. */
  ghost function Exec(t: Tables, op: Op): (r: Result<(Tables, seq<Key>)>) {
    match op
    case Invoke(d, b) => ExecInvoke(t, d, b)
    case InvokeBatch(d, p) => ExecInvokeBatch(t, d, p)
    case SendStep(b, identity, sent) => ExecSendStep(t, b, identity, sent)
    case Cancel(d, id) => ExecCancel(t, d, id)
    case Unregister(rsid, reason, keys) => ExecUnregister(t, rsid, reason, keys)
    case Restart(ids, groups) => Success((t.(sem := RestartSem(t.sem, ids, groups).0), []))
    case OnSem(o) =>
      var s :- ExecSem(t.sem, o);
      Success((t.(sem := s), []))
    case OnWire(o) =>
      var w :- ExecWire(t.wire, o);
      Success((t.(wire := w), []))
  }

  function RecordWire(h: Hist, w: Wire, v: Wire, op: WireOp): (next: Hist) {
    match op
    case Stage(_, d, _, _) => Later(Staged(h, w, d), w, v)
    case Queue(rsid, _, draft, _) => Later(Sent(h, draft, Load(v, rsid).highestTx), w, v)
    case Confirm(rsid) => Confirmed(h, w, rsid)
    case _ => Later(h, w, v)
  }

  function RecordOp(h: Hist, w: Wire, v: Wire, op: Op): (next: Hist) {
    if op.OnWire? then RecordWire(h, w, v, op.wireOp) else Later(h, w, v)
  }

  // ----- Runs -----

  /** `sent` lists every key the add-in was ever sent, in order. */
  datatype State = State(tables: Tables, hist: Hist, sent: seq<Key>)

  const INIT := State(
    Tables(Sem(map[], Ledger([], map[]), map[]), Wire(map[], map[], map[], map[], map[], map[])),
    Hist(map[], map[]), [])

  ghost function Step(st: State, op: Op): (next: State) {
    var r := Exec(st.tables, op);
    if r.Throw? then st
    else State(r.value.0, RecordOp(st.hist, st.tables.wire, r.value.0.wire, op), st.sent + r.value.1)
  }

  ghost function Run(ops: seq<Op>): (st: State) {
    if ops == [] then INIT else Step(Run(ops[..|ops| - 1]), ops[|ops| - 1])
  }
}
