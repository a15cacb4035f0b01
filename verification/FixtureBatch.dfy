/**
 The add-in's end of an atomic batch (packages/addin-loopback-fixture/src/fixture.ts):
 it runs the steps in order until one is not a success, then commits or rolls back.
 */
module FixtureBatch {
  import opened Wrappers
  import JournalRecords
  import opened Utf16
  import opened BatchReplies

  datatype HandlerOutcome = Done(result: Json) | Guard(reason: string) | Fail(error: StepError)

  // ----- Normalising what a handler returns -----

  function Underscored(s: string): (t: string)
    ensures |t| == |s| && forall i :: 0 <= i < |t| ==> JournalRecords.IsReasonChar(t[i])
  {
    if s == [] then [] else [if JournalRecords.IsReasonChar(s[0]) then s[0] else '_'] + Underscored(s[1..])
  }

  function StripLeading(s: string): (t: string)
    ensures t == [] || t[0] != '_'
    ensures (forall i :: 0 <= i < |s| ==> JournalRecords.IsReasonChar(s[i])) ==> forall i :: 0 <= i < |t| ==> JournalRecords.IsReasonChar(t[i])
  {
    if s != [] && s[0] == '_' then StripLeading(s[1..]) else s
  }

  /** `guardedReasonToken`; `lowered` is the handler's reason in lower case. */
  function ReasonToken(lowered: string): (token: string) {
    var t := StripLeading(Underscored(lowered));
    if t == [] then "guarded"
    else
      var prefixed := if JournalRecords.IsLower(t[0]) then t else "guarded_" + t;
      if |prefixed| <= 64 then prefixed else prefixed[..64]
  }

  lemma ReasonTokenIsToken(lowered: string)
    ensures JournalRecords.IsReasonToken(ReasonToken(lowered))
  {
    var t := StripLeading(Underscored(lowered));
    if t != [] {
      var full := if JournalRecords.IsLower(t[0]) then t else "guarded_" + t;
      assert forall i :: 0 <= i < |full| ==> JournalRecords.IsReasonChar(full[i]);
      assert JournalRecords.IsLower(full[0]);
    }
  }

  lemma {:induction false} UnderscoredKeepsToken(s: string)
    requires forall i :: 0 <= i < |s| ==> JournalRecords.IsReasonChar(s[i])
    ensures Underscored(s) == s
  {
    if s != [] { UnderscoredKeepsToken(s[1..]); }
  }

  /** A reason that is already a token is reported unchanged. */
  lemma ReasonTokenIdempotent(s: string)
    requires JournalRecords.IsReasonToken(s)
    ensures ReasonToken(s) == s
  {
    UnderscoredKeepsToken(s);
  }

  /**
   The value a handler returned, as far as the normaliser looks into it.  `problem` is the verdict of
   `jsonValueError` on the result; `Unreadable` is a value on which the normaliser itself throws.
   */
  datatype Raw =
    | Plain(value: Json, problem: Option<Text>)
    | Explicit(outcome: HandlerOutcome, problem: Option<Text>)
    | MalformedOutcome(state: string)
    | Object(fields: Fields, value: Json, problem: Option<Text>)
    | Unreadable(message: Text)

  /** The two reasons are in lower case; `reasonText` is the reason as it was written. */
  datatype Fields = Fields(
    guarded: bool, state: Option<Execution>, success: Option<bool>, guardedReason: Option<string>,
    reason: Option<string>, reasonText: Option<Text>, errorMessage: Option<Text>, nested: seq<Raw>)

  /** `boundedMessage`. */
  function Bounded(m: Text): (t: Text) {
    if m == [] then Ascii("Unknown fixture error") else Cut(m, 600)
  }

  function Failure(code: Code, message: Text): (o: HandlerOutcome) {
    Fail(StepError(code, message, None, None))
  }

  /** `invalidResult`. */
  function Invalid(message: Text): (o: HandlerOutcome) {
    Failure(InvalidResult, Bounded(message))
  }

  function NestedMessage(o: Fields): (m: Text) {
    if o.errorMessage.Some? then o.errorMessage.value
    else if o.reasonText.Some? then o.reasonText.value
    else Ascii("Nested command failure")
  }

  function FirstFailure(values: seq<Raw>, depth: nat): (f: Option<HandlerOutcome>)
    ensures f.Some? ==> (f.value.Guard? && JournalRecords.IsReasonToken(f.value.reason)) || (f.value.Fail? && f.value.error.code.CommandFailure?)
    decreases values
  {
    if values == [] then None
    else
      var f := NestedFailure(values[0], depth);
      if f.Some? then f else FirstFailure(values[1..], depth)
  }

  /** `findNestedFailure`: looks for a failure at most eight objects deep. */
  function NestedFailure(v: Raw, depth: nat): (f: Option<HandlerOutcome>)
    ensures f.Some? ==> (f.value.Guard? && JournalRecords.IsReasonToken(f.value.reason)) || (f.value.Fail? && f.value.error.code.CommandFailure?)
    decreases v
  {
    if depth > 8 || !v.Object? then None
    else
      var o := v.fields;
      if o.guarded || o.state == Some(Guarded) || (o.success == Some(false) && o.guardedReason.Some?) then
        var reason := if o.guardedReason.Some? then o.guardedReason.value
                      else if o.reason.Some? then o.reason.value else "guarded";
        ReasonTokenIsToken(reason);
        Some(Guard(ReasonToken(reason)))
      else if o.success == Some(false) || o.state == Some(Failed) then
        Some(Failure(CommandFailure, Bounded(NestedMessage(o))))
      else FirstFailure(o.nested, depth + 1)
  }

  predicate LimitEvidence(e: StepError, cap: nat) {
    e.maxBytes == Some(cap) && e.tentative.Some? && e.tentative.value > cap
  }

  function Checked(result: Json, problem: Option<Text>): (o: HandlerOutcome) {
    if problem.None? then Done(result) else Invalid(problem.value)
  }

  function Normalize(raw: Raw): (o: HandlerOutcome) {
    match raw
    case Unreadable(message) => Invalid(message)
    case MalformedOutcome(state) => Invalid(Ascii("malformed " + state + " handler outcome"))
    case Explicit(Done(result), problem) => Checked(result, problem)
    case Explicit(Guard(reason), _) => Guard(ReasonToken(reason))
    case Explicit(Fail(e), _) =>
      if e.code.RollbackFailure? || e.code.UnknownCode? then
        Invalid(Ascii("handler failure contains an unsupported error code"))
      else if !e.code.PayloadLimit? then Failure(e.code, Bounded(e.message))
      else if LimitEvidence(e, MAX_RESPONSE_PAYLOAD_BYTES) then Fail(e.(message := Bounded(e.message)))
      else Invalid(Ascii("response_payload_limit handler result lacks valid byte evidence"))
    case Plain(value, problem) => Checked(value, problem)
    case Object(_, value, problem) =>
      var nested := NestedFailure(raw, 0);
      if nested.Some? then nested.value else Checked(value, problem)
  }

  /** What the rest of the protocol relies on. */
  predicate OutcomeOk(o: HandlerOutcome) {
    match o
    case Done(_) => true
    case Guard(reason) => JournalRecords.IsReasonToken(reason)
    case Fail(e) =>
      && !e.code.RollbackFailure? && !e.code.UnknownCode?
      && (e.code.PayloadLimit? ==> LimitEvidence(e, MAX_RESPONSE_PAYLOAD_BYTES))
  }

  lemma NormalizeIsOk(raw: Raw)
    ensures OutcomeOk(Normalize(raw))
  {
    match raw
    case Explicit(Guard(reason), _) => ReasonTokenIsToken(reason);
    case _ =>
  }

  // ----- Running the steps -----

  /**
   What happens when a step is reached: the handler is missing, the fixture stops, the fixture is
   busy, a JSON-RPC error is injected, the handler throws, or a value comes back.
   */
  datatype Attempt = NoHandler | Stopped | Busy | Injected(message: Text) | Threw(message: Text) | Returned(raw: Raw)

  function Observed(a: Attempt): (o: HandlerOutcome) {
    match a
    case NoHandler => Failure(CommandFailure, Ascii("Advertised handler is unavailable"))
    case Stopped => Failure(CommandFailure, Ascii("Fixture stopped while batch step was stalled"))
    case Busy => Guard("busy")
    case Injected(message) => Failure(CommandFailure, message)
    case Threw(message) => Failure(CommandFailure, Bounded(message))
    case Returned(raw) => Normalize(raw)
  }

  /** Whatever happens at a step, its outcome is one the rest of the protocol can rely on. */
  lemma ObservedIsOk(a: Attempt)
    ensures OutcomeOk(Observed(a))
  {
    match a
    case Returned(raw) => NormalizeIsOk(raw);
    case _ =>
  }

  function Base(r: Request, i: nat, x: Execution, e: Effect): (row: Row)
    requires i < |r.steps|
  {
    Row(i, r.steps[i].invocationId, r.steps[i].command, x, e, None, None, None, None)
  }

  function NotStartedRow(r: Request, i: nat): (row: Row)
    requires i < |r.steps|
  {
    Base(r, i, NotStarted, EffectNotStarted)
  }

  function CommittedRow(r: Request, i: nat, result: Json): (row: Row)
    requires i < |r.steps|
  {
    Base(r, i, Completed, if r.steps[i].mutating then Committed else ReadOnly).(result := Some(result))
  }

  /** A row of a batch that did not commit. */
  function SuppressedRow(r: Request, i: nat, o: HandlerOutcome, s: Suppression): (row: Row)
    requires i < |r.steps|
  {
    var effect := if !r.steps[i].mutating then Discarded
                  else if s.BatchIndeterminate? then EffectIndeterminate else RolledBack;
    match o
    case Done(_) => Base(r, i, Completed, effect).(suppressed := Some(s))
    case Guard(reason) => Base(r, i, Guarded, effect).(suppressed := Some(s), guardedReason := Some(reason))
    case Fail(e) => Base(r, i, Failed, effect).(suppressed := Some(s), error := Some(e))
  }

  function Answer(r: Request, status: Execution, tx: Transaction, failed: Option<int>, rows: seq<Row>, rb: Rollback)
    : (reply: Reply)
  {
    Reply(RESULT_CONTRACT_VERSION, BATCH_CONTRACT_VERSION, r.batchId, r.digest, true, status, tx, failed, rows, rb)
  }

  /** The reply the fixture would give if the batch committed now. */
  function Projection(r: Request, done: seq<HandlerOutcome>): (reply: Reply)
    requires |done| <= |r.steps|
  {
    Answer(r, Completed, TxCommitted, None,
           seq(|r.steps|, i requires 0 <= i < |r.steps| =>
             if i >= |done| then NotStartedRow(r, i)
             else if done[i].Done? then CommittedRow(r, i, done[i].result)
             else SuppressedRow(r, i, done[i], BatchRolledBack)),
           NO_ROLLBACK)
  }

  function Judge(o: HandlerOutcome): (j: HandlerOutcome) {
    if !o.Done? then o
    else if DeclaresArtifact(o.result) then Invalid(Ascii("batch-inline-only command returned artifact data"))
    else if !Fits(o.result) then Invalid(Ascii("batch-inline-only command result exceeds 8388608 bytes"))
    else o
  }

  function TooLarge(cap: nat, tentative: nat): (o: HandlerOutcome) {
    Fail(StepError(PayloadLimit, Ascii("Tentative batch response exceeds aggregate cap"), Some(cap), Some(tentative)))
  }

  /** The outcome of the next step, after `done` all succeeded. */
  function NextOutcome(r: Request, attempts: seq<Attempt>, size: Reply -> nat, done: seq<HandlerOutcome>)
    : (o: HandlerOutcome)
    requires |done| < |r.steps| == |attempts|
  {
    var o := Judge(Observed(attempts[|done|]));
    if !o.Done? then o
    else
      var tentative := size(Projection(r, done + [o]));
      if tentative > r.maxBytes then TooLarge(r.maxBytes, tentative) else o
  }

  predicate AllDone(done: seq<HandlerOutcome>) {
    forall i :: 0 <= i < |done| ==> done[i].Done?
  }

  /** The outcomes after looking at the first `n` steps. */
  function Executed(r: Request, attempts: seq<Attempt>, size: Reply -> nat, n: nat): (done: seq<HandlerOutcome>)
    requires n <= |r.steps| == |attempts|
    ensures |done| <= n
  {
    if n == 0 then []
    else
      var prev := Executed(r, attempts, size, n - 1);
      if |prev| == n - 1 && AllDone(prev) then prev + [NextOutcome(r, attempts, size, prev)] else prev
  }

  function SuppressedRows(r: Request, done: seq<HandlerOutcome>, s: Suppression): (rows: seq<Row>)
    requires |done| <= |r.steps|
  {
    seq(|r.steps|, i requires 0 <= i < |r.steps| =>
      if i >= |done| then NotStartedRow(r, i) else SuppressedRow(r, i, done[i], s))
  }

  function StateOf(o: HandlerOutcome): (x: Execution) {
    match o
    case Done(_) => Completed
    case Guard(_) => Guarded
    case Fail(_) => Failed
  }

  function RolledBackReply(r: Request, done: seq<HandlerOutcome>): (reply: Reply)
    requires 0 < |done| <= |r.steps|
  {
    var t := |done| - 1;
    Answer(r, StateOf(done[t]), TxRolledBack, Some(t), SuppressedRows(r, done, BatchRolledBack),
           Rollback(true, Some(true), Some(t), Some(StateOf(done[t])), None))
  }

  function IndeterminateReply(r: Request, done: seq<HandlerOutcome>, message: Text): (reply: Reply)
    requires 0 < |done| <= |r.steps|
  {
    var t := |done| - 1;
    Answer(r, Indeterminate, TxIndeterminate, Some(t), SuppressedRows(r, done, BatchIndeterminate),
           Rollback(true, Some(false), Some(t), Some(StateOf(done[t])),
                    Some(StepError(RollbackFailure, message, None, None))))
  }

  /** What the final outcome becomes when the committed reply breaks the contract. */
  function Refused(error: Text): (o: HandlerOutcome) {
    Invalid(Ascii("final batch response is invalid: ") + error)
  }

  /**
   The outcomes as replied: a committed reply that breaks the contract turns its last step invalid.
   `contract` is what the schema and its semantic checks object to in a reply.
   */
  function Settled(r: Request, done: seq<HandlerOutcome>, contract: Reply -> Option<Text>): (settled: seq<HandlerOutcome>)
    requires |done| <= |r.steps|
    ensures |settled| == |done|
  {
    if AllDone(done) && done != [] && contract(Projection(r, done)).Some?
    then done[|done| - 1 := Refused(contract(Projection(r, done)).value)] else done
  }

  /** How the batch ends after its outcomes; `None` is a JSON-RPC error instead of a batch result. */
  function ReplyOf(r: Request, executed: seq<HandlerOutcome>, contract: Reply -> Option<Text>, rollbackFails: bool,
                   message: Text): (reply: Option<Reply>)
    requires |executed| <= |r.steps|
  {
    var done := Settled(r, executed, contract);
    if AllDone(done) then (if contract(Projection(r, done)).None? then Some(Projection(r, done)) else None)
    else
      var reply := if rollbackFails then IndeterminateReply(r, done, message) else RolledBackReply(r, done);
      if contract(reply).None? then Some(reply) else None
  }

  function BatchReply(r: Request, attempts: seq<Attempt>, size: Reply -> nat, contract: Reply -> Option<Text>,
                      rollbackFails: bool, message: Text): (reply: Option<Reply>)
    requires |r.steps| == |attempts|
  {
    ReplyOf(r, Executed(r, attempts, size, |r.steps|), contract, rollbackFails, message)
  }

  lemma {:induction false} ExecutedShape(r: Request, attempts: seq<Attempt>, size: Reply -> nat, n: nat)
    requires n <= |r.steps| == |attempts|
    ensures var done := Executed(r, attempts, size, n);
            && (forall i :: 0 <= i < |done| - 1 ==> done[i].Done?)
            && (|done| == n || (done != [] && !done[|done| - 1].Done?))
  {
    if n > 0 { ExecutedShape(r, attempts, size, n - 1); }
  }

  lemma {:induction false} ExecutedStops(r: Request, attempts: seq<Attempt>, size: Reply -> nat, n: nat, m: nat)
    requires n <= m <= |r.steps| == |attempts| && !AllDone(Executed(r, attempts, size, n))
    ensures Executed(r, attempts, size, m) == Executed(r, attempts, size, n)
  {
    if n < m { ExecutedStops(r, attempts, size, n, m - 1); }
  }

  /** One turn of the loop: what happened at the step, judged, and the size check when it succeeded. */
  method RunStep(r: Request, attempts: seq<Attempt>, size: Reply -> nat, done: seq<HandlerOutcome>)
    returns (outcome: HandlerOutcome)
    requires |done| < |r.steps| == |attempts|
    ensures outcome == NextOutcome(r, attempts, size, done)
  {
    outcome := Judge(Observed(attempts[|done|]));
    if outcome.Done? {
      var tentative := size(Projection(r, done + [outcome]));
      if tentative > r.maxBytes {
        outcome := TooLarge(r.maxBytes, tentative);
      }
    }
  }

  /** The loop over the steps: it ends behind the first outcome that is not a success. */
  method RunSteps(r: Request, attempts: seq<Attempt>, size: Reply -> nat) returns (executed: seq<HandlerOutcome>)
    requires |r.steps| == |attempts|
    ensures executed == Executed(r, attempts, size, |r.steps|)
  {
    executed := [];
    var triggered := false;
    while |executed| < |r.steps| && !triggered
      invariant |executed| <= |r.steps|
      invariant executed == Executed(r, attempts, size, |executed|)
      invariant triggered <==> !AllDone(executed)
      decreases |r.steps| - |executed|
    {
      var outcome := RunStep(r, attempts, size, executed);
      executed := executed + [outcome];
      triggered := !outcome.Done?;
      assert executed[|executed| - 1] == outcome;
    }
    if triggered { ExecutedStops(r, attempts, size, |executed|, |r.steps|); }
  }

  /** Commit, or turn the last step invalid, and roll back. */
  method EndBatch(r: Request, outcomes: seq<HandlerOutcome>, contract: Reply -> Option<Text>, rollbackFails: bool,
                  message: Text) returns (reply: Option<Reply>)
    requires |outcomes| <= |r.steps|
    ensures reply == ReplyOf(r, outcomes, contract, rollbackFails, message)
  {
    var executed := outcomes;
    if AllDone(executed) {
      var completed := Projection(r, executed);
      var contractError := contract(completed);
      if contractError.None? { return Some(completed); }
      if executed == [] { return None; }
      executed := executed[|executed| - 1 := Refused(contractError.value)];
      assert !executed[|executed| - 1].Done?;
    }
    var result := if rollbackFails then IndeterminateReply(r, executed, message) else RolledBackReply(r, executed);
    reply := if contract(result).None? then Some(result) else None;
  }

  /** The fixture's loop over the steps and its reply. */
  method ExecuteBatch(r: Request, attempts: seq<Attempt>, size: Reply -> nat, contract: Reply -> Option<Text>,
                      rollbackFails: bool, message: Text) returns (reply: Option<Reply>)
    requires |r.steps| == |attempts|
    ensures reply == BatchReply(r, attempts, size, contract, rollbackFails, message)
  {
    var executed := RunSteps(r, attempts, size);
    reply := EndBatch(r, executed, contract, rollbackFails, message);
  }
}
