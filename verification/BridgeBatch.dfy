/**
 The bridge's end of an atomic batch (packages/bridge-simulator/src/bridgeSimulator.ts):
 it validates the add-in's reply, maps it to step outcomes and journal entries,
 and summarises the outcomes again.
 */
module BridgeBatch {
  import opened Wrappers
  import JournalRecords
  import opened Utf16
  import opened CanonicalJson
  import opened BatchReplies

  datatype Validated = Validated(rows: seq<Row>, status: Execution, transaction: Transaction, failed: Option<nat>)

  // ----- What a valid reply is -----

  predicate ErrorOk(e: Option<StepError>, cap: nat) {
    e.Some? &&
    match e.value.code
    case RollbackFailure => false
    case UnknownCode => false
    case PayloadLimit => e.value.maxBytes == Some(cap) && e.value.tentative.Some? && e.value.tentative.value > cap
    case _ => true
  }

  predicate RowNamed(row: Row, r: Request, i: nat)
    requires i < |r.steps|
  {
    row.index == i && row.invocationId == r.steps[i].invocationId && row.command == r.steps[i].command
  }

  predicate Addressed(reply: Reply, r: Request, version: int, raw: nat, cap: nat) {
    && raw <= cap
    && reply.resultVersion == version && reply.batchVersion == BATCH_CONTRACT_VERSION
    && reply.batchId == r.batchId && reply.digest == r.digest && reply.atomic
    && |reply.steps| == |r.steps|
    && !reply.status.NotStarted? && !reply.status.UnknownExecution?
    && (reply.failedStep.Some? ==> 0 <= reply.failedStep.value < |r.steps|)
    && forall i :: 0 <= i < |r.steps| ==> RowNamed(reply.steps[i], r, i)
  }

  /** The parts of a committed row beside the size of its result. */
  predicate CommittedShape(row: Row, step: StepRequest) {
    && row.execution.Completed?
    && row.effect == (if step.mutating then Committed else ReadOnly)
    && row.result.Some? && !DeclaresArtifact(row.result.value)
    && row.suppressed.None? && row.guardedReason.None? && row.error.None?
  }

  /** The bridge measures the canonical form of a result; a result without one is not acceptable. */
  predicate InlineOk(v: Json) {
    HasCanonicalForm(v) && Fits(v)
  }

  predicate CommittedRowOk(row: Row, step: StepRequest) {
    CommittedShape(row, step) && InlineOk(row.result.value)
  }

  predicate CommittedHeader(reply: Reply) {
    reply.status.Completed? && reply.transaction.TxCommitted? && reply.failedStep.None? && reply.rollback == NO_ROLLBACK
  }

  predicate CommittedOk(reply: Reply, r: Request)
    requires |reply.steps| == |r.steps|
  {
    CommittedHeader(reply) && forall i :: 0 <= i < |r.steps| ==> CommittedRowOk(reply.steps[i], r.steps[i])
  }

  /** Row `i` is the first that is not acceptable, and measuring its result throws. */
  predicate RowThrows(reply: Reply, r: Request, i: nat)
    requires |reply.steps| == |r.steps| && i < |r.steps|
  {
    && CommittedShape(reply.steps[i], r.steps[i]) && !HasCanonicalForm(reply.steps[i].result.value)
    && forall j :: 0 <= j < i ==> CommittedRowOk(reply.steps[j], r.steps[j])
  }

  /** The validator throws: it reaches a committed result that has no canonical form. */
  predicate Unmeasurable(reply: Reply, r: Request, version: int, raw: nat, cap: nat) {
    Addressed(reply, r, version, raw, cap) && CommittedHeader(reply) &&
    (forall i :: 0 <= i < |r.steps| ==> reply.steps[i].execution.Completed?) &&
    exists i :: 0 <= i < |r.steps| && RowThrows(reply, r, i)
  }

  predicate UnstartedRowOk(row: Row) {
    && row.execution.NotStarted? && row.effect.EffectNotStarted?
    && row.result.None? && row.suppressed.None? && row.guardedReason.None? && row.error.None?
  }

  predicate SuppressedOk(row: Row, step: StepRequest, uncertain: bool) {
    && row.effect == (if !step.mutating then Discarded else if uncertain then EffectIndeterminate else RolledBack)
    && row.suppressed == Some(if uncertain then BatchIndeterminate else BatchRolledBack)
    && row.result.None?
  }

  predicate TriggerRowOk(row: Row, cap: nat) {
    if row.execution.Guarded? then
      row.guardedReason.Some? && JournalRecords.IsReasonToken(row.guardedReason.value) && row.error.None?
    else (row.execution.Failed? || row.execution.Indeterminate?) && ErrorOk(row.error, cap) && row.guardedReason.None?
  }

  /** Row `i` of a batch that stopped at step `f`. */
  predicate StoppedRowOk(row: Row, step: StepRequest, i: nat, f: nat, uncertain: bool, cap: nat) {
    if i > f then UnstartedRowOk(row)
    else
      && SuppressedOk(row, step, uncertain)
      && (if i < f then row.execution.Completed? && row.guardedReason.None? && row.error.None?
          else TriggerRowOk(row, cap))
  }

  predicate RollbackOk(reply: Reply, f: nat)
    requires f < |reply.steps|
  {
    var rb, state := reply.rollback, reply.steps[f].execution;
    && rb.attempted && rb.trigger == Some(f) && rb.triggerState == Some(state)
    && (if reply.status.Indeterminate? then
          && reply.transaction.TxIndeterminate? && rb.succeeded == Some(false)
          && rb.error.Some? && rb.error.value.code.RollbackFailure?
          && (state.Guarded? || state.Failed? || state.Indeterminate?)
        else reply.transaction.TxRolledBack? && rb.succeeded == Some(true) && rb.error.None? && state == reply.status)
  }

  predicate StartedMutation(reply: Reply, r: Request, i: nat)
    requires |reply.steps| == |r.steps|
  {
    i < |r.steps| && r.steps[i].mutating && !reply.steps[i].execution.NotStarted?
  }

  predicate StoppedOk(reply: Reply, r: Request, cap: nat)
    requires |reply.steps| == |r.steps|
    requires reply.failedStep.Some? ==> 0 <= reply.failedStep.value < |r.steps|
  {
    && !reply.status.Completed? && reply.failedStep.Some?
    && RollbackOk(reply, reply.failedStep.value)
    && (reply.status.Indeterminate? ==> exists i :: 0 <= i < |r.steps| && StartedMutation(reply, r, i))
    && forall i :: 0 <= i < |r.steps| ==>
         StoppedRowOk(reply.steps[i], r.steps[i], i, reply.failedStep.value, reply.status.Indeterminate?, cap)
  }

  predicate Valid(reply: Reply, r: Request, version: int, raw: nat, cap: nat) {
    Addressed(reply, r, version, raw, cap) && (CommittedOk(reply, r) || StoppedOk(reply, r, cap))
  }

  function Accepted(reply: Reply, r: Request, version: int, raw: nat, cap: nat): (v: Option<Validated>) {
    if Valid(reply, r, version, raw, cap)
    then Some(Validated(reply.steps, reply.status, reply.transaction,
                        if reply.failedStep.Some? then Some(reply.failedStep.value) else None))
    else None
  }

  /** What the validator does: accepts, refuses, or throws. */
  function Verdict(reply: Reply, r: Request, version: int, raw: nat, cap: nat): (v: Result<Option<Validated>>) {
    if Unmeasurable(reply, r, version, raw, cap) then Throw else Success(Accepted(reply, r, version, raw, cap))
  }

  // ----- The validator, with its loops -----

  /** The size check of a committed result, by way of its canonical form. */
  method MeasureResult(v: Json) returns (ok: Result<bool>)
    ensures ok == if HasCanonicalForm(v) then Success(Utf8Bytes(Stringify(v)) <= MAX_INLINE_RESULT_BYTES) else Throw
  {
    var canonical := Canonicalize(v);
    CanonicalizeIff(v);
    if canonical.Throw? { return Throw; }
    CanonicalBytes(v);
    return Success(Utf8Bytes(canonical.value) <= MAX_INLINE_RESULT_BYTES);
  }

  /** One row of a committed reply: acceptable, refused, or impossible to measure. */
  method ValidateCommittedRow(row: Row, step: StepRequest) returns (ok: Result<bool>)
    ensures ok.Success? && ok.value <==> CommittedRowOk(row, step)
    ensures ok.Throw? <==> CommittedShape(row, step) && !HasCanonicalForm(row.result.value)
  {
    if !row.execution.Completed? || row.effect != (if step.mutating then Committed else ReadOnly)
       || row.result.None? || row.suppressed.Some? || row.guardedReason.Some? || row.error.Some?
       || DeclaresArtifact(row.result.value) {
      return Success(false);
    }
    ok := MeasureResult(row.result.value);
  }

  /** The loop over the rows of a committed reply. */
  method ValidateCommittedRows(reply: Reply, r: Request) returns (ok: Result<bool>)
    requires |reply.steps| == |r.steps|
    ensures ok.Success? && ok.value <==> forall i :: 0 <= i < |r.steps| ==> CommittedRowOk(reply.steps[i], r.steps[i])
    ensures ok.Throw? <==> exists i :: 0 <= i < |r.steps| && RowThrows(reply, r, i)
  {
    for i := 0 to |r.steps|
      invariant forall j :: 0 <= j < i ==> CommittedRowOk(reply.steps[j], r.steps[j])
    {
      ok := ValidateCommittedRow(reply.steps[i], r.steps[i]);
      if ok != Success(true) {
        StopsAtRow(reply, r, i);
        return;
      }
    }
    return Success(true);
  }

  /** The first row that is not acceptable decides whether the loop throws. */
  lemma StopsAtRow(reply: Reply, r: Request, i: nat)
    requires |reply.steps| == |r.steps| && i < |r.steps| && !CommittedRowOk(reply.steps[i], r.steps[i])
    requires forall j :: 0 <= j < i ==> CommittedRowOk(reply.steps[j], r.steps[j])
    ensures (exists k :: 0 <= k < |r.steps| && RowThrows(reply, r, k)) <==>
            CommittedShape(reply.steps[i], r.steps[i]) && !HasCanonicalForm(reply.steps[i].result.value)
  {
    if CommittedShape(reply.steps[i], r.steps[i]) && !HasCanonicalForm(reply.steps[i].result.value) {
      assert RowThrows(reply, r, i);
    }
    forall k | 0 <= k < |r.steps| && RowThrows(reply, r, k) ensures k == i {
      assert !CommittedRowOk(reply.steps[k], r.steps[k]);
    }
  }

  method FirstNonSuccess(rows: seq<Row>) returns (f: nat)
    ensures f <= |rows| && (forall j :: 0 <= j < f ==> rows[j].execution.Completed?)
    ensures f < |rows| ==> !rows[f].execution.Completed?
  {
    f := 0;
    while f < |rows| && rows[f].execution.Completed?
      invariant f <= |rows| && forall j :: 0 <= j < f ==> rows[j].execution.Completed?
    {
      f := f + 1;
    }
  }

  method HasStartedMutation(reply: Reply, r: Request) returns (found: bool)
    requires |reply.steps| == |r.steps|
    ensures found <==> exists i :: 0 <= i < |r.steps| && StartedMutation(reply, r, i)
  {
    for i := 0 to |r.steps|
      invariant forall j :: 0 <= j < i ==> !StartedMutation(reply, r, j)
    {
      if r.steps[i].mutating && !reply.steps[i].execution.NotStarted? {
        assert StartedMutation(reply, r, i);
        return true;
      }
    }
    return false;
  }

  method ValidateStoppedRows(reply: Reply, r: Request, f: nat, cap: nat) returns (ok: bool)
    requires |reply.steps| == |r.steps| && f < |r.steps|
    ensures ok <==> forall i :: 0 <= i < |r.steps| ==>
      StoppedRowOk(reply.steps[i], r.steps[i], i, f, reply.status.Indeterminate?, cap)
  {
    var uncertain := reply.status.Indeterminate?;
    for i := 0 to |r.steps|
      invariant forall j :: 0 <= j < i ==> StoppedRowOk(reply.steps[j], r.steps[j], j, f, uncertain, cap)
    {
      var row, step := reply.steps[i], r.steps[i];
      var rowOk: bool;
      if i > f {
        rowOk := row.execution.NotStarted? && row.effect.EffectNotStarted? && row.result.None?
          && row.suppressed.None? && row.guardedReason.None? && row.error.None?;
      } else {
        var effect := if step.mutating then (if uncertain then EffectIndeterminate else RolledBack) else Discarded;
        var suppression := if uncertain then BatchIndeterminate else BatchRolledBack;
        if row.effect != effect || row.suppressed != Some(suppression) || row.result.Some? {
          rowOk := false;
        } else if i < f {
          rowOk := row.execution.Completed? && row.guardedReason.None? && row.error.None?;
        } else if row.execution.Guarded? {
          rowOk := row.guardedReason.Some? && JournalRecords.IsReasonToken(row.guardedReason.value) && row.error.None?;
        } else if row.execution.Failed? || row.execution.Indeterminate? {
          rowOk := ErrorOk(row.error, cap) && row.guardedReason.None?;
        } else {
          rowOk := false;
        }
      }
      if !rowOk {
        assert !StoppedRowOk(row, step, i, f, uncertain, cap);
        return false;
      }
    }
    return true;
  }

  lemma StoppedStartsAt(reply: Reply, r: Request, cap: nat, f: nat)
    requires |reply.steps| == |r.steps| && reply.failedStep == Some(f) && f < |r.steps| && StoppedOk(reply, r, cap)
    ensures !reply.steps[f].execution.Completed? && forall j :: 0 <= j < f ==> reply.steps[j].execution.Completed?
  {
    assert StoppedRowOk(reply.steps[f], r.steps[f], f, f, reply.status.Indeterminate?, cap);
    forall j | 0 <= j < f ensures reply.steps[j].execution.Completed? {
      assert StoppedRowOk(reply.steps[j], r.steps[j], j, f, reply.status.Indeterminate?, cap);
    }
  }

  method RowsNamed(reply: Reply, r: Request) returns (ok: bool)
    requires |reply.steps| == |r.steps|
    ensures ok <==> forall i :: 0 <= i < |r.steps| ==> RowNamed(reply.steps[i], r, i)
  {
    for i := 0 to |r.steps|
      invariant forall j :: 0 <= j < i ==> RowNamed(reply.steps[j], r, j)
    {
      if reply.steps[i].index != i || reply.steps[i].invocationId != r.steps[i].invocationId
         || reply.steps[i].command != r.steps[i].command {
        assert !RowNamed(reply.steps[i], r, i);
        return false;
      }
    }
    return true;
  }

  lemma StatesComplete(reply: Reply, r: Request)
    requires |reply.steps| == |r.steps| && forall i :: 0 <= i < |r.steps| ==> CommittedRowOk(reply.steps[i], r.steps[i])
    ensures forall i :: 0 <= i < |r.steps| ==> reply.steps[i].execution.Completed?
  {
    forall i | 0 <= i < |r.steps| ensures reply.steps[i].execution.Completed? {
      assert CommittedRowOk(reply.steps[i], r.steps[i]);
    }
  }

  /** A reply that says `completed`; `first` is the first row that does not. */
  method ValidateCommitted(reply: Reply, r: Request, version: int, raw: nat, cap: nat, first: nat)
    returns (v: Result<Option<Validated>>)
    requires Addressed(reply, r, version, raw, cap) && reply.status.Completed?
    requires first <= |r.steps| && (first < |r.steps| ==> !reply.steps[first].execution.Completed?)
    requires forall j :: 0 <= j < first ==> reply.steps[j].execution.Completed?
    ensures v == Verdict(reply, r, version, raw, cap)
  {
    if !reply.transaction.TxCommitted? || reply.failedStep.Some? || reply.rollback != NO_ROLLBACK {
      return Success(None);
    }
    if first < |r.steps| {
      if CommittedOk(reply, r) { StatesComplete(reply, r); }
      return Success(None);
    }
    var rows := ValidateCommittedRows(reply, r);
    if rows.Throw? { return Throw; }
    return Success(if rows.value then Some(Validated(reply.steps, reply.status, reply.transaction, None)) else None);
  }

  /** `validateAtomicBatchResult`: accepts exactly the valid replies, and throws exactly at the unmeasurable ones. */
  method ValidateAtomicBatchResult(reply: Reply, r: Request, version: int, raw: nat, cap: nat)
    returns (v: Result<Option<Validated>>)
    ensures v == Verdict(reply, r, version, raw, cap)
  {
    if raw > cap { return Success(None); }
    if reply.resultVersion != version || reply.batchVersion != 1 || reply.batchId != r.batchId || reply.digest != r.digest
       || !reply.atomic || |reply.steps| != |r.steps| || reply.status.NotStarted? || reply.status.UnknownExecution? {
      return Success(None);
    }
    if reply.failedStep.Some? && !(0 <= reply.failedStep.value < |reply.steps|) { return Success(None); }
    var named := RowsNamed(reply, r);
    if !named { return Success(None); }
    var first := FirstNonSuccess(reply.steps);
    if reply.status.Completed? {
      v := ValidateCommitted(reply, r, version, raw, cap, first);
      return;
    }
    if reply.failedStep.None? { return Success(None); }
    var f: nat := reply.failedStep.value;
    if first != f {
      if StoppedOk(reply, r, cap) { StoppedStartsAt(reply, r, cap, f); }
      return Success(None);
    }
    if !RollbackOk(reply, f) { return Success(None); }
    if reply.status.Indeterminate? {
      var started := HasStartedMutation(reply, r);
      if !started { return Success(None); }
    }
    var rows := ValidateStoppedRows(reply, r, f, cap);
    return Success(if rows then Some(Validated(reply.steps, reply.status, reply.transaction, Some(f))) else None);
  }

  // ----- Mapping a valid reply -----

  datatype FaultClass = JournalIndeterminate | RevitApiFault | Oversize | CancelledFault | OtherFault

  datatype Outcome =
    | ResultOutcome(guarded: bool)
    | ErrorOutcome(fault: FaultClass)
    | NotStartedOutcome

  datatype Summary = Summary(status: Execution, failed: Option<nat>) | CancelledSummary(at: nat)

  predicate IsFailure(o: Outcome) {
    o.ErrorOutcome? || (o.ResultOutcome? && o.guarded)
  }

  function FirstFailure(outcomes: seq<Outcome>): (f: nat)
    ensures f <= |outcomes| && (forall j :: 0 <= j < f ==> !IsFailure(outcomes[j]))
    ensures f < |outcomes| ==> IsFailure(outcomes[f])
  {
    if outcomes == [] || IsFailure(outcomes[0]) then 0
    else 1 + FirstFailure(outcomes[1..])
  }

  function Summarize(outcomes: seq<Outcome>): (s: Summary) {
    var f := FirstFailure(outcomes);
    if f == |outcomes| then Summary(Completed, None)
    else match outcomes[f]
      case ResultOutcome(_) => Summary(Guarded, Some(f))
      case NotStartedOutcome => Summary(Failed, Some(f))
      case ErrorOutcome(JournalIndeterminate) => Summary(Indeterminate, Some(f))
      case ErrorOutcome(CancelledFault) => CancelledSummary(f)
      case ErrorOutcome(_) => Summary(Failed, Some(f))
  }

  /** The reason the bridge journals: runs of other characters become one underscore. */
  function Collapse(s: string, pending: bool): (t: string)
    ensures forall i :: 0 <= i < |t| ==> JournalRecords.IsReasonChar(t[i])
  {
    if s == [] then []
    else if JournalRecords.IsReasonChar(s[0]) && s[0] != '_' then
      (if pending then ['_'] else []) + [s[0]] + Collapse(s[1..], false)
    else Collapse(s[1..], true)
  }

  function BridgeReason(lowered: string): (token: string)
    ensures JournalRecords.IsReasonToken(token)
  {
    var all := Collapse(lowered, false);
    var stripped := if all != [] && all[0] == '_' then all[1..] else all;
    var t := if |stripped| <= 64 then stripped else stripped[..64];
    if JournalRecords.IsReasonToken(t) then t else "unspecified_guarded"
  }

  // ----- Journal entries -----

  const INLINE_JOURNAL_PAYLOAD_BYTES := 1_048_576
  const MAX_MESSAGE_UNITS := 240

  /** What is journaled for a step. */
  datatype Draft = Draft(status: JournalRecords.Status, payload: Value, reason: Option<string>)

  /**
   `#terminalOutcome`: the entry carries the digest of the raw reply, and its payload unless that is
   large.  Measuring the payload throws when it has no canonical form.  `store` writes a payload down.
   */
  function Entry(d: Draft, digest: string, store: Value -> string): (o: Result<JournalRecords.Outcome>) {
    var text :- Canonicalize(d.payload);
    Success(JournalRecords.Outcome(d.status, Some(digest), if d.status.Guarded? then d.reason else None,
                                   if Utf8Bytes(text) <= INLINE_JOURNAL_PAYLOAD_BYTES then Some(store(d.payload)) else None))
  }

  function Decimal(n: nat): (s: string) {
    if n < 10 then [(0x30 + n) as char] else Decimal(n / 10) + [(0x30 + n % 10) as char]
  }

  function Named(name: string, value: string): (m: Member) {
    Member(Ascii(name), JString(Ascii(value)))
  }

  function ExecutionName(x: Execution): (s: string) {
    match x
    case Completed => "completed"
    case Guarded => "guarded"
    case Failed => "failed"
    case Indeterminate => "indeterminate"
    case NotStarted => "not_started"
    case UnknownExecution => "unknown"
  }

  function EffectName(x: Effect): (s: string) {
    match x
    case Committed => "committed"
    case ReadOnly => "read_only"
    case RolledBack => "rolled_back"
    case Discarded => "discarded"
    case EffectIndeterminate => "indeterminate"
    case EffectNotStarted => "not_started"
    case UnknownEffect => "unknown"
  }

  function SuppressionName(x: Option<Suppression>): (s: string) {
    match x
    case Some(BatchRolledBack) => "batch_rolled_back"
    case Some(BatchIndeterminate) => "batch_indeterminate"
    case _ => "undefined"
  }

  function RowState(row: Row): (ms: seq<Member>) {
    [Member(Ascii("index"), JNumber(if row.index < 0 then "-" + Decimal(-row.index) else Decimal(row.index), true)),
     Named("invocationId", row.invocationId), Named("method", row.command),
     Named("executionState", ExecutionName(row.execution)), Named("effectState", EffectName(row.effect))]
  }

  function RowReasons(row: Row): (ms: seq<Member>) {
    (if row.guardedReason.Some? then [Named("guardedReason", row.guardedReason.value)] else [])
    + (if row.suppressed.Some? then [Named("resultSuppressed", SuppressionName(row.suppressed))] else [])
  }

  /** A completed or guarded row as it is journaled whole. */
  function RowValue(row: Row): (v: Value) {
    var result := if row.result.Some? then [Member(Ascii("result"), row.result.value)] else [];
    JObject(RowState(row) + result + RowReasons(row))
  }

  function SuppressedValue(row: Row): (v: Value) {
    JObject([Named("execution_state", "completed"), Named("effect_state", EffectName(row.effect)),
             Named("result_suppressed", SuppressionName(row.suppressed))])
  }

  const NOT_STARTED := JObject([Named("batch", "not_started")])

  function FailureValue(fault: string, message: Text): (v: Value) {
    JObject([Named("fault_class", fault), Member(Ascii("message"), JString(message))])
  }

  /** The message of a failed row, cut to 240 units. */
  function RowMessage(row: Row, otherwise: string): (m: Text) {
    if row.error.Some? then Cut(row.error.value.message, MAX_MESSAGE_UNITS) else Ascii(otherwise)
  }

  predicate DraftOk(d: Draft) {
    d.status.Guarded? ==> d.reason.Some? && JournalRecords.IsReasonToken(d.reason.value)
  }

  /** An entry is written exactly when its payload has a canonical form, and the journal takes it. */
  lemma EntryIff(d: Draft, digest: string, store: Value -> string)
    requires DraftOk(d)
    ensures Entry(d, digest, store).Success? <==> HasCanonicalForm(d.payload)
    ensures Entry(d, digest, store).Success? ==> EntryOk(Entry(d, digest, store).value, d.status, digest)
  {
    CanonicalizeIff(d.payload);
  }

  predicate EntryOk(e: JournalRecords.Outcome, status: JournalRecords.Status, digest: string) {
    JournalRecords.OutcomeValid(e) && e.resultDigest == Some(digest) && e.status == status
  }

  predicate HaveForms(ms: seq<Member>) {
    forall i :: 0 <= i < |ms| ==> WellFormed(ms[i].name) && HasCanonicalForm(ms[i].value)
  }

  lemma JoinForms(a: seq<Member>, b: seq<Member>)
    ensures HaveForms(a + b) <==> HaveForms(a) && HaveForms(b)
  {
    var ms := a + b;
    assert forall i :: 0 <= i < |a| ==> ms[i] == a[i];
    assert forall i :: 0 <= i < |b| ==> ms[|a| + i] == b[i];
  }

  lemma NamedForm(name: string, value: string)
    ensures WellFormed(Named(name, value).name) && HasCanonicalForm(Named(name, value).value)
  {
    AsciiIsWellFormed(name);
    AsciiIsWellFormed(value);
  }

  lemma RowStateForms(row: Row)
    ensures HaveForms(RowState(row))
  {
    AsciiIsWellFormed("index");
    NamedForm("invocationId", row.invocationId);
    NamedForm("method", row.command);
    NamedForm("executionState", ExecutionName(row.execution));
    NamedForm("effectState", EffectName(row.effect));
  }

  lemma RowReasonsForms(row: Row)
    ensures HaveForms(RowReasons(row))
  {
    if row.guardedReason.Some? { NamedForm("guardedReason", row.guardedReason.value); }
    NamedForm("resultSuppressed", SuppressionName(row.suppressed));
  }

  lemma RowValueIff(row: Row)
    ensures HasCanonicalForm(RowValue(row)) <==> row.result.None? || HasCanonicalForm(row.result.value)
  {
    var result := if row.result.Some? then [Member(Ascii("result"), row.result.value)] else [];
    RowStateForms(row);
    RowReasonsForms(row);
    JoinForms(RowState(row), result);
    JoinForms(RowState(row) + result, RowReasons(row));
    AsciiIsWellFormed("result");
    if row.result.Some? { assert result[0].value == row.result.value; }
    assert HaveForms(result) <==> row.result.None? || HasCanonicalForm(row.result.value);
  }

  lemma FixedValuesHaveForms(row: Row)
    ensures HasCanonicalForm(SuppressedValue(row)) && HasCanonicalForm(NOT_STARTED)
  {
    NamedForm("execution_state", "completed");
    NamedForm("effect_state", EffectName(row.effect));
    NamedForm("result_suppressed", SuppressionName(row.suppressed));
    NamedForm("batch", "not_started");
    assert HaveForms(SuppressedValue(row).members) && HaveForms(NOT_STARTED.members);
  }

  lemma FailureValueIff(fault: string, message: Text)
    ensures HasCanonicalForm(FailureValue(fault, message)) <==> WellFormed(message)
  {
    NamedForm("fault_class", fault);
    AsciiIsWellFormed("message");
    assert FailureValue(fault, message).members[1].value == JString(message);
  }

  // ----- The mapping of a known reply -----

  predicate IsKnown(v: Validated) {
    !v.status.Indeterminate? && (v.failed.None? ==> v.status.Completed?)
  }

  function IsOversize(row: Row): (b: bool) {
    row.error.Some? && row.error.value.code.PayloadLimit?
  }

  /** One step of `#commitAtomicTerminalResponse`: what the Gateway is told. */
  function TerminalOutcome(v: Validated, i: nat): (o: Outcome)
    requires i < |v.rows| && IsKnown(v)
  {
    var row := v.rows[i];
    if v.status.Completed? then ResultOutcome(false)
    else if row.execution.NotStarted? then NotStartedOutcome
    else if i < v.failed.value then ResultOutcome(false)
    else if row.execution.Guarded? then ResultOutcome(true)
    else ErrorOutcome(if IsOversize(row) then Oversize else RevitApiFault)
  }

  /** The same step's journal entry. */
  function TerminalDraft(v: Validated, i: nat): (d: Draft)
    requires i < |v.rows| && IsKnown(v)
  {
    var row := v.rows[i];
    if v.status.Completed? then Draft(JournalRecords.Completed, RowValue(row), None)
    else if row.execution.NotStarted? then Draft(JournalRecords.Cancelled, NOT_STARTED, None)
    else if i < v.failed.value then Draft(JournalRecords.Completed, SuppressedValue(row), None)
    else if row.execution.Guarded? then
      Draft(JournalRecords.Guarded, RowValue(row),
            Some(BridgeReason(if row.guardedReason.Some? then row.guardedReason.value else "")))
    else
      Draft(JournalRecords.Failed,
            FailureValue(if IsOversize(row) then "oversize" else "revit_api", RowMessage(row, "atomic batch rolled back")), None)
  }

  function TerminalOutcomes(v: Validated): (o: seq<Outcome>)
    requires IsKnown(v)
    ensures |o| == |v.rows|
  {
    seq(|v.rows|, i requires 0 <= i < |v.rows| => TerminalOutcome(v, i))
  }

  /** The entries of all steps; one that throws ends the mapping. */
  function TerminalEntries(v: Validated, digest: string, store: Value -> string): (es: Result<seq<JournalRecords.Outcome>>)
    requires IsKnown(v)
  {
    Gather(seq(|v.rows|, i requires 0 <= i < |v.rows| => Entry(TerminalDraft(v, i), digest, store)))
  }

  // ----- The mapping of an indeterminate reply -----

  /** The steps held by `#commitAtomicIndeterminateResponse`: mutations that may have started. */
  predicate IsHeld(r: Request, v: Validated, i: nat) {
    i < |r.steps| && i < |v.rows| && r.steps[i].mutating && !v.rows[i].execution.NotStarted?
  }

  /** Holds are looked up by invocation id. */
  predicate HeldById(r: Request, v: Validated, id: string) {
    exists j :: 0 <= j < |r.steps| && IsHeld(r, v, j) && r.steps[j].invocationId == id
  }

  datatype Known = Held | Journaled(entry: JournalRecords.Outcome)

  function IndeterminateOutcome(r: Request, v: Validated, i: nat): (o: Outcome)
    requires i < |v.rows| == |r.steps|
  {
    var row := v.rows[i];
    if HeldById(r, v, r.steps[i].invocationId) then ErrorOutcome(JournalIndeterminate)
    else if row.execution.NotStarted? then NotStartedOutcome
    else if row.execution.Completed? then ResultOutcome(false)
    else ErrorOutcome(RevitApiFault)
  }

  /** The journal entry of a step that is not held. */
  function IndeterminateDraft(row: Row): (d: Draft) {
    if row.execution.NotStarted? then Draft(JournalRecords.Cancelled, NOT_STARTED, None)
    else if row.execution.Completed? then Draft(JournalRecords.Completed, SuppressedValue(row), None)
    else Draft(JournalRecords.Failed, FailureValue("revit_api", RowMessage(row, "atomic batch result suppressed")), None)
  }

  function IndeterminateEntry(r: Request, v: Validated, i: nat, digest: string, store: Value -> string): (k: Result<Known>)
    requires i < |v.rows| == |r.steps|
  {
    if HeldById(r, v, r.steps[i].invocationId) then Success(Held)
    else
      var entry :- Entry(IndeterminateDraft(v.rows[i]), digest, store);
      Success(Journaled(entry))
  }

  function IndeterminateOutcomes(r: Request, v: Validated): (o: seq<Outcome>)
    requires |v.rows| == |r.steps|
    ensures |o| == |v.rows|
  {
    seq(|v.rows|, i requires 0 <= i < |v.rows| => IndeterminateOutcome(r, v, i))
  }

  function IndeterminateEntries(r: Request, v: Validated, digest: string, store: Value -> string): (ks: Result<seq<Known>>)
    requires |v.rows| == |r.steps|
  {
    Gather(seq(|v.rows|, i requires 0 <= i < |v.rows| => IndeterminateEntry(r, v, i, digest, store)))
  }

  predicate DistinctSteps(r: Request) {
    forall i, j :: 0 <= i < j < |r.steps| ==> r.steps[i].invocationId != r.steps[j].invocationId
  }

  // ----- The mapping never disagrees with the validator -----

  lemma FirstFailureIs(outcomes: seq<Outcome>, f: nat)
    requires f < |outcomes| && IsFailure(outcomes[f]) && forall j :: 0 <= j < f ==> !IsFailure(outcomes[j])
    ensures FirstFailure(outcomes) == f
  {
  }

  /** Summarising the mapped outcomes of a known reply gives back its status and failed index. */
  lemma TerminalMappingAgrees(reply: Reply, r: Request, version: int, raw: nat, cap: nat)
    requires Valid(reply, r, version, raw, cap) && !reply.status.Indeterminate?
    ensures var v := Accepted(reply, r, version, raw, cap).value;
            IsKnown(v) && Summarize(TerminalOutcomes(v)) == Summary(v.status, v.failed)
  {
    var v := Accepted(reply, r, version, raw, cap).value;
    var outcomes := TerminalOutcomes(v);
    if StoppedOk(reply, r, cap) {
      var f: nat := reply.failedStep.value;
      StoppedStartsAt(reply, r, cap, f);
      assert StoppedRowOk(reply.steps[f], r.steps[f], f, f, false, cap);
      forall j | 0 <= j < f ensures !IsFailure(outcomes[j]) { assert reply.steps[j].execution.Completed?; }
      FirstFailureIs(outcomes, f);
    } else {
      assert FirstFailure(outcomes) == |outcomes|;
    }
  }

  lemma HeldIsByIndex(r: Request, v: Validated, i: nat)
    requires DistinctSteps(r) && i < |r.steps| == |v.rows|
    ensures HeldById(r, v, r.steps[i].invocationId) <==> IsHeld(r, v, i)
  {
  }

  ghost predicate FirstHeld(r: Request, v: Validated, m: nat) {
    IsHeld(r, v, m) && forall j :: 0 <= j < m ==> !IsHeld(r, v, j)
  }

  lemma FirstHeldExists(r: Request, v: Validated, i: nat) returns (m: nat)
    requires IsHeld(r, v, i)
    ensures m <= i && FirstHeld(r, v, m)
  {
    m := 0;
    while !IsHeld(r, v, m)
      invariant m <= i && forall j :: 0 <= j < m ==> !IsHeld(r, v, j)
      decreases i - m
    {
      m := m + 1;
    }
  }

  /** Summarising an indeterminate reply gives `indeterminate` at the first uncertain mutation. */
  lemma IndeterminateMappingAgrees(reply: Reply, r: Request, version: int, raw: nat, cap: nat)
    requires Valid(reply, r, version, raw, cap) && reply.status.Indeterminate? && DistinctSteps(r)
    ensures var v := Accepted(reply, r, version, raw, cap).value;
            exists m :: FirstHeld(r, v, m) && Summarize(IndeterminateOutcomes(r, v)) == Summary(Indeterminate, Some(m))
  {
    var v := Accepted(reply, r, version, raw, cap).value;
    var outcomes := IndeterminateOutcomes(r, v);
    var f: nat := reply.failedStep.value;
    StoppedStartsAt(reply, r, cap, f);
    var i :| 0 <= i < |r.steps| && StartedMutation(reply, r, i);
    assert StoppedRowOk(reply.steps[i], r.steps[i], i, f, true, cap);
    var m := FirstHeldExists(r, v, i);
    HeldIsByIndex(r, v, m);
    forall j | 0 <= j < m ensures !IsFailure(outcomes[j]) { HeldIsByIndex(r, v, j); }
    FirstFailureIs(outcomes, m);
  }

  // ----- When the mapping succeeds -----

  /** The trigger is journaled as failed under its own message. */
  predicate JournalsMessage(reply: Reply, r: Request) {
    && reply.failedStep.Some? && 0 <= reply.failedStep.value < |r.steps| && reply.failedStep.value < |reply.steps|
    && reply.steps[reply.failedStep.value].error.Some?
    && !(reply.status.Indeterminate? && r.steps[reply.failedStep.value].mutating)
  }

  /** The message of a trigger journaled as failed survives the cut to 240 units. */
  predicate MessageSurvives(reply: Reply, r: Request) {
    JournalsMessage(reply, r) ==>
      WellFormed(Cut(reply.steps[reply.failedStep.value].error.value.message, MAX_MESSAGE_UNITS))
  }

  function StatusOf(row: Row, uncertain: bool): (s: JournalRecords.Status) {
    match row.execution
    case Completed => JournalRecords.Completed
    case NotStarted => JournalRecords.Cancelled
    case Guarded => if uncertain then JournalRecords.Failed else JournalRecords.Guarded
    case _ => JournalRecords.Failed
  }

  lemma TerminalDraftIff(reply: Reply, r: Request, version: int, raw: nat, cap: nat, i: nat)
    requires Valid(reply, r, version, raw, cap) && !reply.status.Indeterminate? && i < |r.steps|
    ensures var v := Accepted(reply, r, version, raw, cap).value;
            && IsKnown(v) && DraftOk(TerminalDraft(v, i)) && TerminalDraft(v, i).status == StatusOf(reply.steps[i], false)
            && (HasCanonicalForm(TerminalDraft(v, i).payload) <==> (reply.failedStep == Some(i) ==> MessageSurvives(reply, r)))
  {
    var row := reply.steps[i];
    RowValueIff(row);
    FixedValuesHaveForms(row);
    if reply.failedStep.Some? {
      assert StoppedRowOk(row, r.steps[i], i, reply.failedStep.value, false, cap);
      FailureValueIff(if IsOversize(row) then "oversize" else "revit_api", RowMessage(row, "atomic batch rolled back"));
    } else {
      assert CommittedRowOk(row, r.steps[i]);
    }
  }

  lemma IndeterminateDraftIff(reply: Reply, r: Request, version: int, raw: nat, cap: nat, i: nat)
    requires Valid(reply, r, version, raw, cap) && reply.status.Indeterminate? && i < |r.steps|
    requires !IsHeld(r, Accepted(reply, r, version, raw, cap).value, i)
    ensures var row := reply.steps[i];
            && DraftOk(IndeterminateDraft(row)) && IndeterminateDraft(row).status == StatusOf(row, true)
            && (HasCanonicalForm(IndeterminateDraft(row).payload) <==> (reply.failedStep == Some(i) ==> MessageSurvives(reply, r)))
  {
    var row := reply.steps[i];
    FixedValuesHaveForms(row);
    FailureValueIff("revit_api", RowMessage(row, "atomic batch result suppressed"));
    AsciiIsWellFormed("atomic batch result suppressed");
    assert StoppedRowOk(row, r.steps[i], i, reply.failedStep.value, true, cap);
  }

  /** What step `i` of an accepted indeterminate reply is settled by. */
  predicate KnownOk(k: Known, reply: Reply, r: Request, digest: string, i: nat)
    requires i < |r.steps| && i < |reply.steps|
  {
    && (k.Held? <==> r.steps[i].mutating && !reply.steps[i].execution.NotStarted?)
    && (k.Journaled? ==> EntryOk(k.entry, StatusOf(reply.steps[i], true), digest))
  }

  lemma IndeterminateEntryIff(reply: Reply, r: Request, version: int, raw: nat, cap: nat, digest: string, store: Value -> string, i: nat)
    requires Valid(reply, r, version, raw, cap) && reply.status.Indeterminate? && DistinctSteps(r) && i < |r.steps|
    ensures var k := IndeterminateEntry(r, Accepted(reply, r, version, raw, cap).value, i, digest, store);
            && (k.Success? <==> (reply.failedStep == Some(i) ==> MessageSurvives(reply, r)))
            && (k.Success? ==> KnownOk(k.value, reply, r, digest, i))
  {
    var v := Accepted(reply, r, version, raw, cap).value;
    HeldIsByIndex(r, v, i);
    if !IsHeld(r, v, i) {
      IndeterminateDraftIff(reply, r, version, raw, cap, i);
      EntryIff(IndeterminateDraft(reply.steps[i]), digest, store);
    }
  }

  lemma TerminalEntriesIff(reply: Reply, r: Request, version: int, raw: nat, cap: nat, digest: string, store: Value -> string)
    requires Valid(reply, r, version, raw, cap) && !reply.status.Indeterminate?
    ensures var v := Accepted(reply, r, version, raw, cap).value;
            && IsKnown(v)
            && var es := TerminalEntries(v, digest, store);
               && (es.Success? <==> MessageSurvives(reply, r))
               && (es.Success? ==> |es.value| == |r.steps| && forall i :: 0 <= i < |r.steps| ==>
                     EntryOk(es.value[i], StatusOf(reply.steps[i], false), digest))
  {
    var v := Accepted(reply, r, version, raw, cap).value;
    TerminalMappingAgrees(reply, r, version, raw, cap);
    var rs := seq(|v.rows|, i requires 0 <= i < |v.rows| => Entry(TerminalDraft(v, i), digest, store));
    GatherIff(rs);
    forall i | 0 <= i < |r.steps|
      ensures rs[i].Success? <==> (reply.failedStep == Some(i) ==> MessageSurvives(reply, r))
      ensures rs[i].Success? ==> EntryOk(rs[i].value, StatusOf(reply.steps[i], false), digest)
    {
      TerminalDraftIff(reply, r, version, raw, cap, i);
      EntryIff(TerminalDraft(v, i), digest, store);
    }
  }

  lemma IndeterminateEntriesIff(reply: Reply, r: Request, version: int, raw: nat, cap: nat, digest: string, store: Value -> string)
    requires Valid(reply, r, version, raw, cap) && reply.status.Indeterminate? && DistinctSteps(r)
    ensures var ks := IndeterminateEntries(r, Accepted(reply, r, version, raw, cap).value, digest, store);
            && (ks.Success? <==> MessageSurvives(reply, r))
            && (ks.Success? ==> |ks.value| == |r.steps| && forall i :: 0 <= i < |r.steps| ==> KnownOk(ks.value[i], reply, r, digest, i))
  {
    var v := Accepted(reply, r, version, raw, cap).value;
    var rs := seq(|v.rows|, i requires 0 <= i < |v.rows| => IndeterminateEntry(r, v, i, digest, store));
    GatherIff(rs);
    forall i | 0 <= i < |r.steps|
      ensures rs[i].Success? <==> (reply.failedStep == Some(i) ==> MessageSurvives(reply, r))
      ensures rs[i].Success? ==> KnownOk(rs[i].value, reply, r, digest, i)
    {
      IndeterminateEntryIff(reply, r, version, raw, cap, digest, store, i);
    }
  }

  /**
   The mapping of an accepted reply succeeds exactly when the trigger's message, if it is journaled,
   survives its cut; then every step gets exactly one of a hold and a journal entry, and each entry is
   one the journal takes, with the status the reply gave the step.
   */
  lemma EveryStepIsSettledOnce(reply: Reply, r: Request, version: int, raw: nat, cap: nat, digest: string, store: Value -> string)
    requires Valid(reply, r, version, raw, cap) && DistinctSteps(r)
    ensures var v := Accepted(reply, r, version, raw, cap).value;
            if reply.status.Indeterminate? then
              var ks := IndeterminateEntries(r, v, digest, store);
              && (ks.Success? <==> MessageSurvives(reply, r))
              && (ks.Success? ==> |ks.value| == |r.steps| && forall i :: 0 <= i < |r.steps| ==> KnownOk(ks.value[i], reply, r, digest, i))
            else
              && IsKnown(v)
              && var es := TerminalEntries(v, digest, store);
                 && (es.Success? <==> MessageSurvives(reply, r))
                 && (es.Success? ==> |es.value| == |r.steps| && forall i :: 0 <= i < |r.steps| ==>
                       EntryOk(es.value[i], StatusOf(reply.steps[i], false), digest))
  {
    if reply.status.Indeterminate? {
      IndeterminateEntriesIff(reply, r, version, raw, cap, digest, store);
    } else {
      TerminalEntriesIff(reply, r, version, raw, cap, digest, store);
    }
  }

  /** The validator's verdict is one of three, and acceptance is validity. */
  lemma AcceptsExactlyValid(reply: Reply, r: Request, version: int, raw: nat, cap: nat)
    ensures Verdict(reply, r, version, raw, cap) == Success(Accepted(reply, r, version, raw, cap))
            || (Verdict(reply, r, version, raw, cap).Throw? && !Valid(reply, r, version, raw, cap))
  {
    if Unmeasurable(reply, r, version, raw, cap) {
      var i :| 0 <= i < |r.steps| && RowThrows(reply, r, i);
      assert !CommittedRowOk(reply.steps[i], r.steps[i]);
    }
  }
}
