/**
 The `execute_batch` request and reply as both ends see them.  A field of the wrong
 JSON type reads as absent or as `Unknown`; identifiers, commands and reason tokens are
 ASCII, as the schema of the reply demands, and messages are UTF-16 text.
 */
module BatchReplies {
  import opened Wrappers
  import opened Utf16
  import opened CanonicalJson

  const MAX_INLINE_RESULT_BYTES := 8_388_608
  const MAX_RESPONSE_PAYLOAD_BYTES := 33_554_432
  const RESULT_CONTRACT_VERSION := 2
  const BATCH_CONTRACT_VERSION := 1

  type Json = Value

  datatype StepRequest = StepRequest(invocationId: string, command: string, mutating: bool)

  datatype Request = Request(batchId: string, digest: string, maxBytes: nat, steps: seq<StepRequest>)

  datatype Code = CommandFailure | RevitApi | InvalidResult | PayloadLimit | RollbackFailure | UnknownCode

  datatype StepError = StepError(code: Code, message: Text, maxBytes: Option<nat>, tentative: Option<nat>)

  datatype Execution = Completed | Guarded | Failed | Indeterminate | NotStarted | UnknownExecution

  datatype Effect = Committed | ReadOnly | RolledBack | Discarded | EffectIndeterminate | EffectNotStarted | UnknownEffect

  datatype Suppression = BatchRolledBack | BatchIndeterminate | UnknownSuppression

  datatype Transaction = TxCommitted | TxRolledBack | TxIndeterminate | UnknownTx

  datatype Row = Row(
    index: int, invocationId: string, command: string, execution: Execution, effect: Effect,
    suppressed: Option<Suppression>, result: Option<Json>, guardedReason: Option<string>, error: Option<StepError>)

  datatype Rollback = Rollback(
    attempted: bool, succeeded: Option<bool>, trigger: Option<int>, triggerState: Option<Execution>,
    error: Option<StepError>)

  datatype Reply = Reply(
    resultVersion: int, batchVersion: int, batchId: string, digest: string, atomic: bool, status: Execution,
    transaction: Transaction, failedStep: Option<int>, steps: seq<Row>, rollback: Rollback)

  const NO_ROLLBACK := Rollback(false, None, None, None, None)

  predicate IsFileMember(m: Member) {
    m.value.JString? && (m.name == Ascii("path") || m.name == Ascii("fileName") || m.name == Ascii("contentBase64"))
  }

  /** An object that names a file by path, name or content. */
  predicate NamesFile(entry: Json) {
    entry.JObject? && exists i :: 0 <= i < |entry.members| && IsFileMember(entry.members[i])
  }

  predicate ListsFiles(m: Member) {
    && m.name == Ascii("files") && m.value.JArray?
    && exists i :: 0 <= i < |m.value.items| && NamesFile(m.value.items[i])
  }

  /** `hasDeclaredArtifactShape`, the same at both ends. */
  predicate DeclaresArtifact(v: Json) {
    v.JObject? && exists i :: 0 <= i < |v.members| && ListsFiles(v.members[i])
  }

  /** What the fixture asks of an inline result: its compact form is small enough. */
  predicate Fits(v: Json) {
    !DeclaresArtifact(v) && Utf8Bytes(Stringify(v)) <= MAX_INLINE_RESULT_BYTES
  }
}
