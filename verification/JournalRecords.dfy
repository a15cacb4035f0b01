/**
 The invocation record of the bridge journal and its transitions
 (packages/protocol/src/journalState.ts).  A SHA-256 digest of a value is
 represented by the value itself, so comparing digests is comparing values.
 */
module JournalRecords {
  import opened Wrappers

  datatype Scope = SessionScope | DocumentScope(documentId: string)

  /** The idempotency key `rsid/invocationId`. */
  datatype Key = Key(rsid: string, invocationId: string)

  /** A hold id hashes exactly these three values. */
  datatype HoldId = HoldId(rsid: string, scope: Scope, keys: seq<Key>)

  datatype Clearance = Clearance(
    holdId: HoldId, resolutionId: string, evidenceDigest: string, decision: string, auditId: string)

  datatype Verification = Verification(holdId: HoldId, scope: Scope)

  datatype BatchRef = BatchRef(batchId: string, index: nat, digest: string)

  datatype Binding = Binding(
    rsid: string,
    invocationId: string,
    command: string,
    mutating: bool,
    scope: Option<Scope>,
    paramsDigest: string,
    policy: string,
    verification: Option<Verification>,
    clearances: seq<Clearance>,
    batch: Option<BatchRef>)

  datatype Status = Completed | Failed | Guarded | Cancelled

  datatype RecordState = Received | Executing | Known(status: Status) | Indeterminate

  /** `payload` is present exactly when the payload was retained. */
  datatype Outcome = Outcome(
    status: Status, resultDigest: Option<string>, guardedReason: Option<string>, payload: Option<string>)

  datatype Record = Record(
    binding: Binding,
    state: RecordState,
    dispatchMayHaveStarted: bool,
    readRecoveryConsumed: bool,
    abandoned: bool,
    terminal: Option<Outcome>,
    late: Option<Outcome>,
    holdId: Option<HoldId>)

  datatype Redelivery =
    | BindingFault
    | ReplayTerminal(outcome: Outcome)
    | ReplayLate(outcome: Outcome, lateHoldId: HoldId)
    | ReturnIndeterminate(holdId: Option<HoldId>)
    | PromoteIndeterminate
    | ReexecuteRead
    | ReadRecoveryConsumed

  datatype Cancellation = CancelledBeforeDispatch | AwaitRealOutcome | AlreadyTerminal

  function KeyOf(b: Binding): Key {
    Key(b.rsid, b.invocationId)
  }

  predicate ScopeValid(s: Scope) {
    s.DocumentScope? ==> s.documentId != ""
  }

  predicate BindingValid(b: Binding) {
    && b.rsid != "" && b.invocationId != "" && b.command != ""
    && b.mutating == b.scope.Some?
    && (b.scope.Some? ==> ScopeValid(b.scope.value))
    && (b.mutating ==> b.verification.None?)
    && (!b.mutating ==> b.clearances == [])
  }

  predicate IsLower(c: char) { 'a' <= c <= 'z' }

  predicate IsReasonChar(c: char) { IsLower(c) || '0' <= c <= '9' || c == '_' }

  /** The pattern `^[a-z][a-z0-9_]{0,63}$`. */
  predicate IsReasonToken(s: string) {
    1 <= |s| <= 64 && IsLower(s[0]) && forall i :: 0 <= i < |s| ==> IsReasonChar(s[i])
  }

  predicate OutcomeValid(o: Outcome) {
    && (if o.status.Guarded? then o.guardedReason.Some? && IsReasonToken(o.guardedReason.value)
        else o.guardedReason.None?)
    && (o.payload.None? ==> o.resultDigest.Some?)
  }

  /** `journalRecordIsIntact`: the stored parts of a record agree with each other. */
  predicate IsIntact(r: Record) {
    && (r.terminal.Some? ==>
          && OutcomeValid(r.terminal.value)
          && r.state == Known(r.terminal.value.status)
          && r.late.None?
          && (r.binding.verification.Some? ==> r.terminal.value.resultDigest.Some?))
    && (r.late.Some? ==>
          && OutcomeValid(r.late.value)
          && r.state.Indeterminate?
          && r.terminal.None?
          && r.late.value.resultDigest.Some?)
    && (r.state.Known? ==> r.terminal.Some?)
  }

  function CreateReceived(b: Binding): (r: Result<Record>) {
    if BindingValid(b) then Success(Record(b, Received, false, false, false, None, None, None)) else Throw
  }

  function MarkExecuting(r: Record): (next: Result<Record>) {
    if r.state.Received?
    then Success(r.(state := Executing, dispatchMayHaveStarted := true))
    else Throw
  }

  function RecordTerminal(r: Record, o: Outcome): (next: Result<Record>) {
    if !IsIntact(r) || !OutcomeValid(o) || (r.binding.verification.Some? && o.resultDigest.None?) then Throw
    else if r.state.Indeterminate? then
      if o.resultDigest.None? then Throw
      else if r.late.Some? then (if r.late.value == o then Success(r) else Throw)
      else Success(r.(late := Some(o)))
    else if r.terminal.Some? then (if r.terminal.value == o then Success(r) else Throw)
    else if r.state.Received? || r.state.Executing? then
      Success(r.(state := Known(o.status), terminal := Some(o)))
    else Throw
  }

  function MarkIndeterminate(r: Record, holdId: Option<HoldId>): (next: Result<Record>) {
    if !(r.state.Received? || r.state.Executing?) || r.binding.mutating != holdId.Some? then Throw
    else Success(r.(state := Indeterminate, holdId := holdId))
  }

  function DecideRedelivery(r: Record, incoming: Binding, promotion: Option<HoldId>)
    : (d: Result<(Redelivery, Record)>)
  {
    if !BindingValid(incoming) then Throw
    else if !IsIntact(r) || incoming != r.binding then Success((BindingFault, r))
    else if r.terminal.Some? then Success((ReplayTerminal(r.terminal.value), r))
    else if r.late.Some? then
      if r.holdId.None? then Throw else Success((ReplayLate(r.late.value, r.holdId.value), r))
    else if r.state.Indeterminate? then Success((ReturnIndeterminate(r.holdId), r))
    else if r.binding.mutating then
      if promotion.None? then Throw
      else
        var promoted :- MarkIndeterminate(r, promotion);
        Success((PromoteIndeterminate, promoted))
    else if r.readRecoveryConsumed then Success((ReadRecoveryConsumed, r))
    else Success((ReexecuteRead,
                  r.(state := Executing, dispatchMayHaveStarted := true, readRecoveryConsumed := true)))
  }

  /** The fixed payloads the journal itself writes; a verification read also needs their digest. */
  function JournalOutcome(b: Binding, status: Status, payload: string): (o: Outcome) {
    Outcome(status, if b.verification.Some? then Some(payload) else None, None, Some(payload))
  }

  function RequestCancellation(r: Record): (d: Result<(Cancellation, Record)>) {
    if r.terminal.Some? || r.state.Indeterminate? then Success((AlreadyTerminal, r))
    else if r.state.Received? && !r.dispatchMayHaveStarted then
      var cancelled :- RecordTerminal(r, JournalOutcome(r.binding, Cancelled, "before_dispatch"));
      Success((CancelledBeforeDispatch, cancelled))
    else Success((AwaitRealOutcome, r.(abandoned := true)))
  }

  function HandleUnregister(r: Record, nonExecutionProven: bool, holdId: Option<HoldId>)
    : (next: Result<Record>)
  {
    if r.terminal.Some? || r.state.Indeterminate? then Success(r)
    else if r.binding.mutating && !nonExecutionProven then
      if holdId.None? then Throw else MarkIndeterminate(r, holdId)
    else RecordTerminal(r, JournalOutcome(r.binding, Failed, "addin_unreachable"))
  }

  // ----- What no transition may undo -----

  /** A record has a durable completed outcome, on time or late. */
  predicate IsCompleted(r: Record) {
    || (r.terminal.Some? && r.terminal.value.status.Completed?)
    || (r.late.Some? && r.late.value.status.Completed?)
  }

  predicate HasOutcome(r: Record) {
    r.terminal.Some? || r.late.Some?
  }

  /** What a record learns is kept: no way back to `Received`, outcomes and holds are write-once. */
  predicate Advances(a: Record, b: Record) {
    && b.binding == a.binding
    && (a.dispatchMayHaveStarted ==> b.dispatchMayHaveStarted)
    && (!a.state.Received? ==> !b.state.Received?)
    && (a.terminal.Some? ==> b.terminal == a.terminal && b.state == a.state)
    && (a.late.Some? ==> b.late == a.late)
    && (a.state.Indeterminate? ==> b.state.Indeterminate? && b.holdId == a.holdId)
    && (a.abandoned ==> b.abandoned)
    && (a.readRecoveryConsumed ==> b.readRecoveryConsumed)
  }

  /** What holds of every stored record. */
  predicate RecordInv(r: Record) {
    && BindingValid(r.binding)
    && IsIntact(r)
    && (r.state.Received? ==> !r.dispatchMayHaveStarted)
    && (r.state.Executing? ==> r.dispatchMayHaveStarted)
    && (r.holdId.Some? <==> r.state.Indeterminate? && r.binding.mutating)
  }

  lemma CreateKeepsInv(b: Binding)
    requires CreateReceived(b).Success?
    ensures RecordInv(CreateReceived(b).value)
    ensures CreateReceived(b).value.binding == b && CreateReceived(b).value.state.Received?
  {
  }

  lemma RecordTerminalAdvances(r: Record, o: Outcome)
    requires RecordInv(r) && RecordTerminal(r, o).Success?
    ensures var next := RecordTerminal(r, o).value;
            && RecordInv(next) && Advances(r, next) && HasOutcome(next)
            && next.dispatchMayHaveStarted == r.dispatchMayHaveStarted
            && next.holdId == r.holdId
            && next.state.Indeterminate? == r.state.Indeterminate?
  {
  }

  lemma MarkIndeterminateAdvances(r: Record, holdId: Option<HoldId>)
    requires RecordInv(r) && MarkIndeterminate(r, holdId).Success?
    ensures var next := MarkIndeterminate(r, holdId).value;
            && RecordInv(next) && Advances(r, next)
            && next.state.Indeterminate? && next.holdId == holdId
            && next.dispatchMayHaveStarted == r.dispatchMayHaveStarted
  {
  }
}
