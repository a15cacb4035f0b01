/**
 The tables that decide what the add-in may be sent: invocation records, the
 hold ledger and batch coordination (packages/bridge-simulator/src/journal.ts).
 Each function is one durable transaction: `Throw` rolls everything back.
 */
module SemanticTables {
  import opened Wrappers
  import opened JournalRecords
  import opened MutationHolds

  datatype BatchState = BatchReceived | BatchDispatched | BatchTerminal | BatchIndeterminate

  datatype StepSpec = StepSpec(
    invocationId: string, command: string, mutating: bool, scope: Option<Scope>, paramsDigest: string, policy: string)

  datatype BatchPayload = BatchPayload(
    batchId: string, digest: string, atomic: bool, steps: seq<StepSpec>, clearances: seq<Clearance>)

  datatype Batch = Batch(rsid: string, payload: BatchPayload, state: BatchState, terminal: Option<string>)

  type Records = map<Key, Record>

  datatype Sem = Sem(records: Records, ledger: Ledger, batches: map<string, Batch>)

  datatype InvokeDecision =
    | Accepted
    | Blocked(holds: seq<HoldId>)
    | Fault(reason: string)
    | Redelivered(decision: Redelivery)

  datatype StepDecision = StepAccepted | StepRedelivered(decision: Redelivery) | StepNotStarted

  datatype BatchDecision =
    | BindingChanged
    | StepsDecided(steps: seq<StepDecision>)
    | BatchBlocked(holds: seq<HoldId>)
    | StepsFault(reason: string)

  function StepKey(rsid: string, p: BatchPayload, i: nat): (k: Key)
    requires i < |p.steps|
  {
    Key(rsid, p.steps[i].invocationId)
  }

  function StepBinding(rsid: string, p: BatchPayload, i: nat): (b: Binding)
    requires i < |p.steps|
    ensures KeyOf(b) == StepKey(rsid, p, i)
  {
    var s := p.steps[i];
    Binding(rsid, s.invocationId, s.command, s.mutating, s.scope, s.paramsDigest, s.policy, None, [],
            Some(BatchRef(p.batchId, i, p.digest)))
  }

  // ----- Single invocations -----

  function RedeliverInvocation(s: Sem, b: Binding): (d: Result<(Sem, InvokeDecision)>)
    requires KeyOf(b) in s.records
  {
    var k := KeyOf(b);
    var r := s.records[k];
    if !IsIntact(r) then Throw
    else if b != r.binding then Success((s, Fault("binding_mismatch")))
    else if r.binding.mutating && !HasOutcome(r) && !r.state.Indeterminate? && r.binding.scope.Some? then
      var installed :- InstallHolds(s.ledger, b.rsid, [Uncertain(k, r.binding.scope.value)]);
      if installed.InstallBlocked? then Success((s, Blocked(installed.holds)))
      else
        var holdId := if installed.holds == [] then None else Some(installed.holds[0]);
        var (decision, next) :- DecideRedelivery(r, b, holdId);
        Success((s.(records := s.records[k := next],
                    ledger := if installed.Installed? then installed.ledger else s.ledger),
                 Redelivered(decision)))
    else
      var (decision, next) :- DecideRedelivery(r, b, None);
      Success((s.(records := s.records[k := next]), Redelivered(decision)))
  }

  predicate VerificationHoldOpen(l: Ledger, b: Binding) {
    b.verification.Some? ==>
      var v := b.verification.value;
      v.holdId.rsid == b.rsid && v.holdId.scope == v.scope && IsPresent(l, v.holdId)
  }

  function AcceptInvocation(s: Sem, b: Binding, identity: string, sorted: bool)
    : (d: Result<(Sem, InvokeDecision)>)
  {
    if b.rsid == "" || b.invocationId == "" then Throw
    else if KeyOf(b) in s.records then RedeliverInvocation(s, b)
    else if !VerificationHoldOpen(s.ledger, b) then Success((s, Fault("foreign_verification_hold")))
    else if b.mutating && b.scope.None? then Success((s, Fault("missing_mutation_scope")))
    else
      var a := if b.mutating then Authorize(s.ledger, b.rsid, [b.scope.value], b.clearances, sorted, identity)
               else Allowed(s.ledger);
      match a
      case AuthBlocked(holds) => Success((s, Blocked(holds)))
      case AuthFault(reason) => Success((s, Fault(reason)))
      case Allowed(ledger) =>
        var r :- CreateReceived(b);
        Success((s.(records := s.records[KeyOf(b) := r], ledger := ledger), Accepted))
  }

  function ClaimInvocation(s: Sem, k: Key): (next: Result<Sem>) {
    if k !in s.records then Throw
    else
      var r :- MarkExecuting(s.records[k]);
      Success(s.(records := s.records[k := r]))
  }

  function RecordAll(records: Records, entries: seq<(Key, Outcome)>): (next: Result<Records>) {
    if entries == [] then Success(records)
    else
      var prev :- RecordAll(records, entries[..|entries| - 1]);
      var (k, outcome) := entries[|entries| - 1];
      if k !in prev then Throw
      else
        var r :- RecordTerminal(prev[k], outcome);
        Success(prev[k := r])
  }

  function RecordTerminals(s: Sem, entries: seq<(Key, Outcome)>): (next: Result<Sem>) {
    var records :- RecordAll(s.records, entries);
    Success(s.(records := records))
  }

  /** The outcomes of one session's steps as journal entries. */
  function Keyed(rsid: string, steps: seq<(string, Outcome)>): (entries: seq<(Key, Outcome)>) {
    seq(|steps|, i requires 0 <= i < |steps| => (Key(rsid, steps[i].0), steps[i].1))
  }

  function CancelInvocation(s: Sem, k: Key): (d: Result<(Sem, Cancellation)>) {
    if k !in s.records then Throw
    else
      var (kind, r) :- RequestCancellation(s.records[k]);
      Success((s.(records := s.records[k := r]), kind))
  }

  // ----- Promotion to indeterminate, always together with holds -----

  predicate AllPresent(records: Records, keys: seq<Key>) {
    forall i :: 0 <= i < |keys| ==> keys[i] in records
  }

  function UncertainOf(records: Records, keys: seq<Key>): (u: seq<Uncertain>)
    requires AllPresent(records, keys)
  {
    if keys == [] then []
    else
      var rest := UncertainOf(records, keys[..|keys| - 1]);
      var k := keys[|keys| - 1];
      if records[k].binding.mutating && records[k].binding.scope.Some?
      then rest + [Uncertain(k, records[k].binding.scope.value)]
      else rest
  }

  function HoldOf(records: Records, holds: seq<HoldId>, k: Key): (h: Option<HoldId>)
    requires k in records
  {
    if records[k].binding.mutating then HoldFor(holds, k) else None
  }

  function MarkAll(records: Records, keys: seq<Key>, holds: seq<HoldId>): (next: Result<Records>)
    requires AllPresent(records, keys)
  {
    if keys == [] then Success(records)
    else
      var prev :- MarkAll(records, keys[..|keys| - 1], holds);
      var k := keys[|keys| - 1];
      var r :- MarkIndeterminate(records[k], HoldOf(records, holds, k));
      Success(prev[k := r])
  }

  function Promote(s: Sem, rsid: string, keys: seq<Key>): (next: Result<Sem>)
    requires AllPresent(s.records, keys)
  {
    var (ledger, holds) :- CoverUncertain(s.ledger, rsid, UncertainOf(s.records, keys));
    var records :- MarkAll(s.records, keys, holds);
    Success(s.(records := records, ledger := ledger))
  }

  function MarkIndeterminateMany(s: Sem, keys: seq<Key>): (next: Result<Sem>) {
    if keys == [] then Success(s)
    else if !AllPresent(s.records, keys) then Throw
    else if forall i :: 0 <= i < |keys| ==> s.records[keys[i]].state.Indeterminate? then Success(s)
    else if exists i :: 0 <= i < |keys| && keys[i].rsid != keys[0].rsid then Throw
    else Promote(s, keys[0].rsid, keys)
  }

  // ----- Restart classification -----

  predicate Interrupted(r: Record) {
    r.binding.mutating && r.dispatchMayHaveStarted && (r.state.Received? || r.state.Executing?)
  }

  predicate DispatchedAtomic(s: Sem, batchId: string) {
    batchId in s.batches && s.batches[batchId].state.BatchDispatched? && s.batches[batchId].payload.atomic
  }

  /** The stored rows of a batch in step order. */
  function BatchRows(records: Records, b: Batch, n: nat): (keys: seq<Key>)
    requires n <= |b.payload.steps|
    ensures AllPresent(records, keys)
  {
    if n == 0 then []
    else
      var k := StepKey(b.rsid, b.payload, n - 1);
      var rest := BatchRows(records, b, n - 1);
      if k in records && records[k].binding.batch == Some(BatchRef(b.payload.batchId, n - 1, b.payload.digest))
      then rest + [k] else rest
  }

  function OpenMutations(records: Records, keys: seq<Key>): (open: seq<Key>)
    requires AllPresent(records, keys)
    ensures AllPresent(records, open)
    ensures forall k :: k in open <==> k in keys && records[k].binding.mutating && !records[k].state.Indeterminate?
  {
    if keys == [] then []
    else
      var rest := OpenMutations(records, keys[..|keys| - 1]);
      var k := keys[|keys| - 1];
      if records[k].binding.mutating && !records[k].state.Indeterminate? then rest + [k] else rest
  }

  function SetBatch(s: Sem, b: Batch): (next: Sem) {
    s.(batches := s.batches[b.payload.batchId := b])
  }

  /** One interrupted atomic batch: its mutations, their holds and its row change together. */
  function ClassifyBatch(s: Sem, batchId: string): (next: Result<Sem>) {
    if !DispatchedAtomic(s, batchId) then Success(s)
    else
      var b := s.batches[batchId];
      var keys := BatchRows(s.records, b, |b.payload.steps|);
      var open := OpenMutations(s.records, keys);
      if keys == [] || (exists k :: k in keys && !IsIntact(s.records[k]))
         || (exists k :: k in open && HasOutcome(s.records[k])) then Throw
      else
        var promoted :- Promote(s, b.rsid, open);
        Success(promoted.(batches := promoted.batches[batchId := b.(state := BatchIndeterminate)]))
  }

  // ----- Session revocation -----

  function UnregisterRow(records: Records, holds: seq<HoldId>, k: Key): (next: Result<Record>)
    requires k in records
  {
    var started := records[k].dispatchMayHaveStarted;
    HandleUnregister(records[k], !started, if started then HoldOf(records, holds, k) else None)
  }

  function UnregisterAll(records: Records, keys: seq<Key>, holds: seq<HoldId>): (next: Result<Records>)
    requires AllPresent(records, keys)
  {
    if keys == [] then Success(records)
    else
      var prev :- UnregisterAll(records, keys[..|keys| - 1], holds);
      var r :- UnregisterRow(records, holds, keys[|keys| - 1]);
      Success(prev[keys[|keys| - 1] := r])
  }

  function StartedOf(records: Records, keys: seq<Key>): (started: seq<Key>)
    requires AllPresent(records, keys)
    ensures AllPresent(records, started)
    ensures forall k :: k in started <==> k in keys && records[k].dispatchMayHaveStarted && records[k].binding.mutating
  {
    if keys == [] then []
    else
      var rest := StartedOf(records, keys[..|keys| - 1]);
      var k := keys[|keys| - 1];
      if records[k].dispatchMayHaveStarted && records[k].binding.mutating then rest + [k] else rest
  }

  predicate Revocable(records: Records, rsid: string, k: Key) {
    k in records && k.rsid == rsid && records[k].terminal.None? && !records[k].state.Indeterminate?
  }

  predicate NoDuplicates(keys: seq<Key>) {
    forall i, j :: 0 <= i < j < |keys| ==> keys[i] != keys[j]
  }

  /** `keys` is the open records of the session, in some order. */
  predicate ListsRevocable(records: Records, rsid: string, keys: seq<Key>) {
    && NoDuplicates(keys)
    && (forall i :: 0 <= i < |keys| ==> Revocable(records, rsid, keys[i]))
    && forall k :: k in records && Revocable(records, rsid, k) ==> k in keys
  }

  function UnregisterRecords(s: Sem, rsid: string, keys: seq<Key>): (next: Result<Sem>)
    requires ListsRevocable(s.records, rsid, keys)
  {
    var (ledger, holds) :- CoverUncertain(s.ledger, rsid, UncertainOf(s.records, StartedOf(s.records, keys)));
    var records :- UnregisterAll(s.records, keys, holds);
    Success(s.(records := records, ledger := ledger))
  }

  // ----- Batches -----

  function AcceptBatchBinding(s: Sem, rsid: string, p: BatchPayload): (d: Option<Sem>) {
    if p.batchId in s.batches then
      if s.batches[p.batchId].rsid == rsid && s.batches[p.batchId].payload == p then Some(s) else None
    else Some(SetBatch(s, Batch(rsid, p, BatchReceived, None)))
  }

  function StepScopes(p: BatchPayload, n: nat): (scopes: seq<Scope>)
    requires n <= |p.steps|
    ensures forall i :: 0 <= i < n && p.steps[i].scope.Some? ==> p.steps[i].scope.value in scopes
  {
    if n == 0 then []
    else
      var rest := StepScopes(p, n - 1);
      if p.steps[n - 1].scope.Some? then rest + [p.steps[n - 1].scope.value] else rest
  }

  /** Inserts the first `n` step rows; a key that is already there violates the primary key. */
  function InsertSteps(records: Records, rsid: string, p: BatchPayload, n: nat): (next: Result<Records>)
    requires n <= |p.steps|
  {
    if n == 0 then Success(records)
    else
      var prev :- InsertSteps(records, rsid, p, n - 1);
      var r :- CreateReceived(StepBinding(rsid, p, n - 1));
      if StepKey(rsid, p, n - 1) in prev then Throw else Success(prev[StepKey(rsid, p, n - 1) := r])
  }

  function AcceptNewBatch(s: Sem, rsid: string, p: BatchPayload, identity: string, sorted: bool)
    : (d: Result<(Sem, BatchDecision)>)
  {
    var scopes := StepScopes(p, |p.steps|);
    if scopes == [] && p.clearances != [] then Success((s, StepsFault("foreign_clearance")))
    else
      var a := if scopes == [] then Allowed(s.ledger)
               else Authorize(s.ledger, rsid, scopes, p.clearances, sorted, identity);
      match a
      case AuthBlocked(holds) => Success((s, BatchBlocked(holds)))
      case AuthFault(reason) => Success((s, StepsFault(reason)))
      case Allowed(ledger) =>
        var records :- InsertSteps(s.records, rsid, p, |p.steps|);
        Success((s.(records := records, ledger := ledger),
                 StepsDecided(seq(|p.steps|, i => StepAccepted))))
  }

  predicate StepsStored(records: Records, rsid: string, p: BatchPayload) {
    forall i :: 0 <= i < |p.steps| ==> StepKey(rsid, p, i) in records
  }

  /** The first step without a durable completed outcome. */
  function FirstOpen(records: Records, rsid: string, p: BatchPayload, from: nat): (i: nat)
    requires StepsStored(records, rsid, p) && from <= |p.steps|
    ensures from <= i <= |p.steps|
    ensures forall j :: from <= j < i ==> IsCompleted(records[StepKey(rsid, p, j)])
    ensures i < |p.steps| ==> !IsCompleted(records[StepKey(rsid, p, i)])
    decreases |p.steps| - from
  {
    if from == |p.steps| || !IsCompleted(records[StepKey(rsid, p, from)]) then from
    else FirstOpen(records, rsid, p, from + 1)
  }

  function ReplayOf(r: Record): (d: Redelivery)
    requires IsCompleted(r) && (r.terminal.None? ==> r.holdId.Some?)
  {
    if r.terminal.Some? then ReplayTerminal(r.terminal.value) else ReplayLate(r.late.value, r.holdId.value)
  }

  /** Decisions of a redelivered non-atomic batch that stops at step `i`. */
  function StoppedAt(records: Records, rsid: string, p: BatchPayload, i: nat, last: Redelivery)
    : (d: BatchDecision)
    requires StepsStored(records, rsid, p) && i <= |p.steps|
    requires forall j :: 0 <= j < i ==> IsCompleted(records[StepKey(rsid, p, j)])
    requires forall j :: 0 <= j < i ==>
      records[StepKey(rsid, p, j)].terminal.None? ==> records[StepKey(rsid, p, j)].holdId.Some?
  {
    StepsDecided(seq(|p.steps|, j requires 0 <= j < |p.steps| =>
      if j < i then StepRedelivered(ReplayOf(records[StepKey(rsid, p, j)]))
      else if j == i then StepRedelivered(last)
      else StepNotStarted))
  }

  function BlockingHolds(s: Sem, k: Key): (holds: seq<HoldId>)
    requires k in s.records && s.records[k].binding.scope.Some?
  {
    var installed := InstallHolds(s.ledger, k.rsid, [Uncertain(k, s.records[k].binding.scope.value)]);
    if installed.Success? then installed.value.holds else []
  }

  /** Redelivery of an open mutating step: promotes it, or `None` when a foreign hold is in the way. */
  function RedeliverMutation(s: Sem, k: Key, b: Binding): (d: Result<(Sem, Option<Redelivery>)>)
    requires k in s.records && s.records[k].binding.scope.Some?
  {
    var r := s.records[k];
    var installed :- InstallHolds(s.ledger, k.rsid, [Uncertain(k, r.binding.scope.value)]);
    var holdId := if installed.InstallBlocked? then HoldFor(installed.holds, k)
                  else if installed.holds == [] then None else Some(installed.holds[0]);
    if installed.InstallBlocked? && holdId.None? then Success((s, None))
    else
      var (decision, next) :- DecideRedelivery(r, b, holdId);
      Success((s.(records := s.records[k := next],
                  ledger := if installed.Installed? then installed.ledger else s.ledger), Some(decision)))
  }

  function RedeliverSteps(s: Sem, rsid: string, p: BatchPayload): (d: Result<(Sem, BatchDecision)>)
    requires StepsStored(s.records, rsid, p)
  {
    var i := FirstOpen(s.records, rsid, p, 0);
    if exists j :: 0 <= j < i && s.records[StepKey(rsid, p, j)].terminal.None?
                   && s.records[StepKey(rsid, p, j)].holdId.None? then Throw
    else if i == |p.steps| then Success((s, StoppedAt(s.records, rsid, p, i, ReexecuteRead)))
    else
      var k := StepKey(rsid, p, i);
      var r := s.records[k];
      if HasOutcome(r) || r.state.Indeterminate? || !r.binding.mutating || r.binding.scope.None? then
        var (decision, next) :- DecideRedelivery(r, StepBinding(rsid, p, i), None);
        Success((s.(records := s.records[k := next]), StoppedAt(s.records, rsid, p, i, decision)))
      else
        var (next, decision) :- RedeliverMutation(s, k, StepBinding(rsid, p, i));
        match decision
        case Some(d) => Success((next, StoppedAt(s.records, rsid, p, i, d)))
        case None => Success((s, BatchBlocked(BlockingHolds(s, k))))
  }

  function AcceptBatchInvocations(s: Sem, rsid: string, p: BatchPayload, identity: string, sorted: bool)
    : (d: Result<(Sem, BatchDecision)>)
  {
    if p.steps == [] then Success((s, StepsFault("empty_batch")))
    else if exists i :: 0 <= i < |p.steps| && StepKey(rsid, p, i) in s.records
                        && !IsIntact(s.records[StepKey(rsid, p, i)]) then Throw
    else if forall i :: 0 <= i < |p.steps| ==> StepKey(rsid, p, i) !in s.records then
      AcceptNewBatch(s, rsid, p, identity, sorted)
    else if !StepsStored(s.records, rsid, p) then Success((s, StepsFault("partial_batch_journal")))
    else if exists i :: 0 <= i < |p.steps| && s.records[StepKey(rsid, p, i)].binding != StepBinding(rsid, p, i) then
      Success((s, StepsFault("batch_binding_mismatch")))
    else if p.atomic then
      if forall i :: 0 <= i < |p.steps| ==>
           && s.records[StepKey(rsid, p, i)].state.Received?
           && !s.records[StepKey(rsid, p, i)].dispatchMayHaveStarted
      then Success((s, StepsDecided(seq(|p.steps|, i => StepAccepted))))
      else Success((s, StepsFault("atomic_batch_not_safely_received")))
    else RedeliverSteps(s, rsid, p)
  }

  function AcceptBatch(s: Sem, rsid: string, p: BatchPayload, identity: string, sorted: bool)
    : (d: Result<(Sem, BatchDecision)>)
  {
    var bound := AcceptBatchBinding(s, rsid, p);
    if bound.None? then Success((s, BindingChanged))
    else AcceptBatchInvocations(bound.value, rsid, p, identity, sorted)
  }

  function ClaimSteps(records: Records, rsid: string, p: BatchPayload, n: nat): (next: Result<Records>)
    requires n <= |p.steps|
  {
    if n == 0 then Success(records)
    else
      var prev :- ClaimSteps(records, rsid, p, n - 1);
      var k := StepKey(rsid, p, n - 1);
      if k !in prev || prev[k].binding.batch != Some(BatchRef(p.batchId, n - 1, p.digest))
         || prev[k].dispatchMayHaveStarted then Throw
      else
        var r :- MarkExecuting(prev[k]);
        Success(prev[k := r])
  }

  /** Claims the one-frame add-in dispatch of an atomic batch and every step of it. */
  function ClaimAtomicBatch(s: Sem, rsid: string, p: BatchPayload): (next: Result<Sem>) {
    if p.steps == [] || p.batchId !in s.batches then Throw
    else
      var b := s.batches[p.batchId];
      if b.rsid != rsid || b.payload.digest != p.digest || !b.state.BatchReceived? then Throw
      else
        var records :- ClaimSteps(s.records, rsid, p, |p.steps|);
        Success(s.(records := records, batches := s.batches[p.batchId := b.(state := BatchDispatched)]))
  }

  predicate PrefixCompleted(records: Records, rsid: string, ref: BatchRef) {
    forall k :: k in records && k.rsid == rsid && records[k].binding.batch.Some?
                && records[k].binding.batch.value.batchId == ref.batchId
                && records[k].binding.batch.value.index < ref.index ==>
      IsIntact(records[k]) && IsCompleted(records[k])
  }

  /** Claims one step of a non-atomic batch; `true` means the step may now be sent. */
  function ClaimStep(s: Sem, b: Binding, identity: string): (d: Result<(Sem, bool)>) {
    var k := KeyOf(b);
    if k !in s.records then Throw
    else
      var r := s.records[k];
      if !IsIntact(r) || r.binding != b || b.batch.None? || !r.state.Received? || r.dispatchMayHaveStarted
         || !PrefixCompleted(s.records, b.rsid, b.batch.value) || (b.mutating && b.scope.None?)
      then Success((s, false))
      else
        var a := if b.mutating then Authorize(s.ledger, b.rsid, [b.scope.value], [], true, identity)
                 else Allowed(s.ledger);
        if !a.Allowed? then Success((s, false))
        else
          var claimed :- MarkExecuting(r);
          Success((s.(records := s.records[k := claimed], ledger := a.ledger), true))
  }

  predicate StepsMatch(records: Records, rsid: string, p: BatchPayload) {
    forall i :: 0 <= i < |p.steps| ==>
      && StepKey(rsid, p, i) in records
      && records[StepKey(rsid, p, i)].binding.batch == Some(BatchRef(p.batchId, i, p.digest))
  }

  function StepKeys(rsid: string, p: BatchPayload): (keys: seq<Key>)
    ensures |keys| == |p.steps| && forall i :: 0 <= i < |keys| ==> keys[i] == StepKey(rsid, p, i)
  {
    seq(|p.steps|, i requires 0 <= i < |p.steps| => StepKey(rsid, p, i))
  }

  function OpenSteps(records: Records, keys: seq<Key>): (open: seq<Key>)
    requires AllPresent(records, keys)
    ensures AllPresent(records, open)
    ensures forall k :: k in open ==>
      k in keys && records[k].binding.mutating && !records[k].state.Indeterminate? && !HasOutcome(records[k])
  {
    if keys == [] then []
    else
      var rest := OpenSteps(records, keys[..|keys| - 1]);
      var k := keys[|keys| - 1];
      if records[k].binding.mutating && !records[k].state.Indeterminate? && !HasOutcome(records[k])
      then rest + [k] else rest
  }

  function MarkAtomicIndeterminate(s: Sem, rsid: string, p: BatchPayload): (next: Result<Sem>) {
    if p.steps == [] || p.batchId !in s.batches then Throw
    else
      var b := s.batches[p.batchId];
      if b.rsid != rsid || b.payload.digest != p.digest || b.terminal.Some?
         || !(b.state.BatchDispatched? || b.state.BatchIndeterminate?) || !StepsMatch(s.records, rsid, p) then Throw
      else
        var promoted :- Promote(s, rsid, OpenSteps(s.records, StepKeys(rsid, p)));
        Success(promoted.(batches := promoted.batches[p.batchId := b.(state := BatchIndeterminate)]))
  }

  function CommitBatchTerminal(s: Sem, rsid: string, batchId: string, digest: string, terminal: string,
                               steps: seq<(string, Outcome)>): (next: Result<Sem>)
  {
    if batchId !in s.batches || s.batches[batchId].rsid != rsid || s.batches[batchId].payload.digest != digest then
      Throw
    else
      var b := s.batches[batchId];
      if b.terminal.Some? then (if b.terminal.value == terminal then Success(s) else Throw)
      else
        var records :- RecordAll(s.records, Keyed(rsid, steps));
        Success(s.(records := records,
                   batches := s.batches[batchId := b.(state := BatchTerminal, terminal := Some(terminal))]))
  }

  predicate StepIdsDistinct(steps: seq<(string, Outcome)>) {
    forall i, j :: 0 <= i < j < |steps| ==> steps[i].0 != steps[j].0
  }

  function CommitLateTerminal(s: Sem, rsid: string, batchId: string, digest: string, terminal: string,
                              steps: seq<(string, Outcome)>): (next: Result<Sem>)
  {
    if batchId !in s.batches || s.batches[batchId].rsid != rsid || s.batches[batchId].payload.digest != digest then
      Throw
    else
      var b := s.batches[batchId];
      var rows := BatchRows(s.records, b, |b.payload.steps|);
      if b.terminal.Some? then (if b.terminal.value == terminal then Success(s) else Throw)
      else if !b.state.BatchIndeterminate? || rows == [] || !StepIdsDistinct(steps)
              || (exists i :: 0 <= i < |steps| && Key(rsid, steps[i].0) !in rows) then Throw
      else
        var records :- RecordAll(s.records, Keyed(rsid, steps));
        Success(s.(records := records,
                   batches := s.batches[batchId := b.(state := BatchTerminal, terminal := Some(terminal))]))
  }
}
