/** Producer and consumer of an atomic batch reply agree, and exactly when they do not. */
module BatchAgreement {
  import opened Wrappers
  import JournalRecords
  import opened Utf16
  import opened CanonicalJson
  import opened BatchReplies
  import opened FixtureBatch
  import opened BridgeBatch

  /** Step `i`'s handler itself reports that its response would be too large. */
  predicate ReportsLimit(attempts: seq<Attempt>, i: nat) {
    i < |attempts| && Observed(attempts[i]).Fail? && Observed(attempts[i]).error.code.PayloadLimit?
  }

  /** What is known of the outcome at position `i`. */
  predicate OutcomeAt(r: Request, attempts: seq<Attempt>, o: HandlerOutcome, i: nat) {
    match o
    case Done(result) => Fits(result) && !ReportsLimit(attempts, i)
    case Guard(reason) => JournalRecords.IsReasonToken(reason) && !ReportsLimit(attempts, i)
    case Fail(e) =>
      && ErrorOk(Some(e), if ReportsLimit(attempts, i) then MAX_RESPONSE_PAYLOAD_BYTES else r.maxBytes)
      && (ReportsLimit(attempts, i) ==> e.code.PayloadLimit?)
  }

  /** The outcome taken over by a step that was observed as `o`. */
  lemma JudgedAt(r: Request, attempts: seq<Attempt>, o: HandlerOutcome, i: nat)
    requires i < |attempts| && o == Observed(attempts[i]) && OutcomeOk(o)
    ensures OutcomeAt(r, attempts, Judge(o), i)
    ensures Judge(o).Done? ==> !ReportsLimit(attempts, i)
  {
  }

  lemma NextOutcomeAt(r: Request, attempts: seq<Attempt>, size: Reply -> nat, done: seq<HandlerOutcome>)
    requires |done| < |r.steps| == |attempts|
    ensures OutcomeAt(r, attempts, NextOutcome(r, attempts, size, done), |done|)
  {
    ObservedIsOk(attempts[|done|]);
    JudgedAt(r, attempts, Observed(attempts[|done|]), |done|);
  }

  lemma {:induction false} ExecutedOutcomes(r: Request, attempts: seq<Attempt>, size: Reply -> nat, n: nat, i: nat)
    requires n <= |r.steps| == |attempts|
    requires i < |Executed(r, attempts, size, n)|
    ensures OutcomeAt(r, attempts, Executed(r, attempts, size, n)[i], i)
  {
    var prev := Executed(r, attempts, size, n - 1);
    if i < |prev| {
      ExecutedOutcomes(r, attempts, size, n - 1, i);
      assert Executed(r, attempts, size, n)[i] == prev[i];
    } else {
      NextOutcomeAt(r, attempts, size, prev);
    }
  }

  ghost predicate SettledOk(r: Request, attempts: seq<Attempt>, done: seq<HandlerOutcome>) {
    && |done| <= |r.steps| == |attempts|
    && (forall i :: 0 <= i < |done| ==> OutcomeAt(r, attempts, done[i], i))
    && (forall i :: 0 <= i < |done| - 1 ==> done[i].Done?)
    && (|done| == |r.steps| || (done != [] && !done[|done| - 1].Done?))
  }

  lemma ExecutedIsOk(r: Request, attempts: seq<Attempt>, size: Reply -> nat)
    requires |r.steps| == |attempts|
    ensures SettledOk(r, attempts, Executed(r, attempts, size, |r.steps|))
  {
    var n := |r.steps|;
    var done := Executed(r, attempts, size, n);
    ExecutedShape(r, attempts, size, n);
    forall i | 0 <= i < |done| ensures OutcomeAt(r, attempts, done[i], i) {
      ExecutedOutcomes(r, attempts, size, n, i);
    }
  }

  /** Turning the last success into an invalid result keeps the shape. */
  lemma InvalidatedIsOk(r: Request, attempts: seq<Attempt>, done: seq<HandlerOutcome>, error: Text)
    requires SettledOk(r, attempts, done) && AllDone(done) && done != []
    ensures SettledOk(r, attempts, done[|done| - 1 := Refused(error)])
  {
    assert OutcomeAt(r, attempts, done[|done| - 1], |done| - 1);
  }

  lemma SettlingIsOk(r: Request, attempts: seq<Attempt>, done: seq<HandlerOutcome>, contract: Reply -> Option<Text>)
    requires SettledOk(r, attempts, done)
    ensures SettledOk(r, attempts, Settled(r, done, contract))
  {
    if AllDone(done) && done != [] && contract(Projection(r, done)).Some? {
      InvalidatedIsOk(r, attempts, done, contract(Projection(r, done)).value);
    }
  }

  lemma SettledIsOk(r: Request, attempts: seq<Attempt>, size: Reply -> nat, contract: Reply -> Option<Text>)
    requires |r.steps| == |attempts|
    ensures SettledOk(r, attempts, Settled(r, Executed(r, attempts, size, |r.steps|), contract))
  {
    ExecutedIsOk(r, attempts, size);
    SettlingIsOk(r, attempts, Executed(r, attempts, size, |r.steps|), contract);
  }

  /** The bridge accepts the trigger exactly when the limit it cites, if any, is the negotiated one. */
  predicate LimitAgrees(r: Request, attempts: seq<Attempt>, done: seq<HandlerOutcome>) {
    !AllDone(done) && ReportsLimit(attempts, |done| - 1) ==> r.maxBytes == MAX_RESPONSE_PAYLOAD_BYTES
  }

  predicate SomeMutationStarted(r: Request, done: seq<HandlerOutcome>) {
    exists i :: 0 <= i < |done| && i < |r.steps| && r.steps[i].mutating
  }

  /** Every result of a batch that ran to its end has a canonical form. */
  predicate ResultsHaveForms(done: seq<HandlerOutcome>) {
    forall i :: 0 <= i < |done| && done[i].Done? ==> HasCanonicalForm(done[i].result)
  }

  lemma CommittedRowsAgree(r: Request, attempts: seq<Attempt>, done: seq<HandlerOutcome>, i: nat)
    requires SettledOk(r, attempts, done) && AllDone(done) && i < |r.steps|
    ensures var row := Projection(r, done).steps[i];
            && RowNamed(row, r, i) && CommittedShape(row, r.steps[i]) && |done| == |r.steps|
            && (CommittedRowOk(row, r.steps[i]) <==> HasCanonicalForm(done[i].result))
            && row.result == Some(done[i].result)
  {
    assert OutcomeAt(r, attempts, done[i], i);
  }

  lemma {:induction false} FirstWithoutForm(done: seq<HandlerOutcome>) returns (i: nat)
    requires AllDone(done) && !ResultsHaveForms(done)
    ensures i < |done| && !HasCanonicalForm(done[i].result) && forall j :: 0 <= j < i ==> HasCanonicalForm(done[j].result)
  {
    i := 0;
    while HasCanonicalForm(done[i].result)
      invariant i < |done| && forall j :: 0 <= j < i ==> HasCanonicalForm(done[j].result)
      invariant exists k :: i <= k < |done| && !HasCanonicalForm(done[k].result)
      decreases |done| - i
    {
      i := i + 1;
    }
  }

  /** A committed reply is accepted when all results have canonical forms, and otherwise makes the validator throw. */
  lemma CommittedAgrees(r: Request, attempts: seq<Attempt>, done: seq<HandlerOutcome>, raw: nat)
    requires SettledOk(r, attempts, done) && AllDone(done)
    ensures var reply := Projection(r, done);
            && (Valid(reply, r, RESULT_CONTRACT_VERSION, raw, r.maxBytes) <==> raw <= r.maxBytes && ResultsHaveForms(done))
            && (Unmeasurable(reply, r, RESULT_CONTRACT_VERSION, raw, r.maxBytes) <==> raw <= r.maxBytes && !ResultsHaveForms(done))
  {
    var reply := Projection(r, done);
    forall i | 0 <= i < |r.steps|
      ensures RowNamed(reply.steps[i], r, i) && CommittedShape(reply.steps[i], r.steps[i]) && |done| == |r.steps|
      ensures CommittedRowOk(reply.steps[i], r.steps[i]) <==> HasCanonicalForm(done[i].result)
      ensures reply.steps[i].result == Some(done[i].result)
    {
      CommittedRowsAgree(r, attempts, done, i);
    }
    assert |done| == |r.steps|;
    if !ResultsHaveForms(done) {
      var i := FirstWithoutForm(done);
      assert RowThrows(reply, r, i);
    }
  }

  lemma StoppedRowAgrees(r: Request, attempts: seq<Attempt>, done: seq<HandlerOutcome>, uncertain: bool, i: nat)
    requires SettledOk(r, attempts, done) && !AllDone(done) && i < |r.steps|
    ensures var row := SuppressedRows(r, done, if uncertain then BatchIndeterminate else BatchRolledBack)[i];
            && RowNamed(row, r, i)
            && (i != |done| - 1 ==> StoppedRowOk(row, r.steps[i], i, |done| - 1, uncertain, r.maxBytes))
            && (i == |done| - 1 ==>
                  (StoppedRowOk(row, r.steps[i], i, |done| - 1, uncertain, r.maxBytes) <==> LimitAgrees(r, attempts, done)))
  {
    if i < |done| { assert OutcomeAt(r, attempts, done[i], i); }
  }

  lemma StoppedAgrees(r: Request, attempts: seq<Attempt>, done: seq<HandlerOutcome>, reply: Reply, message: Text, raw: nat)
    requires SettledOk(r, attempts, done) && !AllDone(done)
    requires reply == RolledBackReply(r, done) || reply == IndeterminateReply(r, done, message)
    ensures Valid(reply, r, RESULT_CONTRACT_VERSION, raw, r.maxBytes) <==>
      && raw <= r.maxBytes && LimitAgrees(r, attempts, done)
      && (reply == IndeterminateReply(r, done, message) ==> SomeMutationStarted(r, done))
  {
    var t := |done| - 1;
    var uncertain := reply.status.Indeterminate?;
    forall i | 0 <= i < |r.steps|
      ensures RowNamed(reply.steps[i], r, i)
      ensures i != t ==> StoppedRowOk(reply.steps[i], r.steps[i], i, t, uncertain, r.maxBytes)
      ensures i == t ==> (StoppedRowOk(reply.steps[i], r.steps[i], i, t, uncertain, r.maxBytes) <==> LimitAgrees(r, attempts, done))
      ensures StartedMutation(reply, r, i) <==> i < |done| && r.steps[i].mutating
    {
      StoppedRowAgrees(r, attempts, done, uncertain, i);
    }
    assert !done[t].Done?;
  }

  /** What the bridge's acceptance of the fixture's reply comes down to. */
  predicate Agrees(r: Request, attempts: seq<Attempt>, done: seq<HandlerOutcome>, rollbackFails: bool) {
    if AllDone(done) then ResultsHaveForms(done)
    else LimitAgrees(r, attempts, done) && (rollbackFails ==> SomeMutationStarted(r, done))
  }

  /** The validator's verdict on the reply to outcomes `done`. */
  ghost predicate VerdictIs(v: Result<Option<Validated>>, reply: Reply, r: Request, attempts: seq<Attempt>,
                            done: seq<HandlerOutcome>, rollbackFails: bool, raw: nat)
  {
    && (v.Success? && v.value.Some? <==> raw <= r.maxBytes && Agrees(r, attempts, done, rollbackFails))
    && (v.Throw? <==> raw <= r.maxBytes && AllDone(done) && !ResultsHaveForms(done))
    && (v.Success? && v.value.Some? ==>
          && v.value.value.status == reply.status && v.value.value.transaction == reply.transaction
          && v.value.value.failed == (if AllDone(done) then None else Some(|done| - 1)))
  }

  lemma SettledReplyAgrees(r: Request, attempts: seq<Attempt>, executed: seq<HandlerOutcome>, contract: Reply -> Option<Text>,
                           rollbackFails: bool, message: Text, raw: nat)
    requires |executed| <= |r.steps| && SettledOk(r, attempts, Settled(r, executed, contract))
    requires ReplyOf(r, executed, contract, rollbackFails, message).Some?
    ensures var reply := ReplyOf(r, executed, contract, rollbackFails, message).value;
            VerdictIs(Verdict(reply, r, RESULT_CONTRACT_VERSION, raw, r.maxBytes), reply, r, attempts,
                      Settled(r, executed, contract), rollbackFails, raw)
  {
    var reply := ReplyOf(r, executed, contract, rollbackFails, message).value;
    var done := Settled(r, executed, contract);
    AcceptsExactlyValid(reply, r, RESULT_CONTRACT_VERSION, raw, r.maxBytes);
    if AllDone(done) {
      CommittedAgrees(r, attempts, done, raw);
    } else {
      StoppedAgrees(r, attempts, done, reply, message, raw);
    }
  }

  /**
   Whatever the handlers return or throw, the bridge accepts the fixture's reply exactly when it fits
   the negotiated cap and: a batch that ran to its end has results with canonical forms; a batch that
   stopped reports no limit other than the negotiated one, and had started a mutation if its rollback
   fails.  The verdict is then the fixture's own.  The validator throws exactly at a committed reply
   within the cap that holds a result without a canonical form.
   */
  lemma ReplyIsAccepted(r: Request, attempts: seq<Attempt>, size: Reply -> nat, contract: Reply -> Option<Text>,
                        rollbackFails: bool, message: Text)
    requires |r.steps| == |attempts|
    requires BatchReply(r, attempts, size, contract, rollbackFails, message).Some?
    ensures var reply := BatchReply(r, attempts, size, contract, rollbackFails, message).value;
            VerdictIs(Verdict(reply, r, RESULT_CONTRACT_VERSION, size(reply), r.maxBytes), reply, r, attempts,
                      Settled(r, Executed(r, attempts, size, |r.steps|), contract), rollbackFails, size(reply))
  {
    var reply := BatchReply(r, attempts, size, contract, rollbackFails, message).value;
    SettledIsOk(r, attempts, size, contract);
    SettledReplyAgrees(r, attempts, Executed(r, attempts, size, |r.steps|), contract, rollbackFails, message, size(reply));
  }

  /** Cutting a bounded message to 240 units cuts what was given; only an empty one is replaced. */
  lemma BoundedCut(m: Text)
    requires m != []
    ensures Cut(Bounded(m), MAX_MESSAGE_UNITS) == Cut(m, MAX_MESSAGE_UNITS)
  {
    CutOfCut(m, 600, MAX_MESSAGE_UNITS);
  }

  /** The trigger is journaled as failed and the cut of its message leaves half a surrogate pair. */
  predicate CutBreaks(r: Request, done: seq<HandlerOutcome>, rollbackFails: bool) {
    && !AllDone(done) && |done| <= |r.steps| && done[|done| - 1].Fail?
    && !(rollbackFails && r.steps[|done| - 1].mutating)
    && !WellFormed(Cut(done[|done| - 1].error.message, MAX_MESSAGE_UNITS))
  }

  lemma CutBreaksIs(r: Request, done: seq<HandlerOutcome>, rollbackFails: bool, message: Text)
    requires 0 < |done| <= |r.steps| && !AllDone(done)
    ensures var reply := if rollbackFails then IndeterminateReply(r, done, message) else RolledBackReply(r, done);
            MessageSurvives(reply, r) <==> !CutBreaks(r, done, rollbackFails)
  {
  }

  /** Whatever the handlers do, an accepted reply is settled in full exactly when no cut breaks its trigger's message. */
  lemma ReplyIsSettled(r: Request, attempts: seq<Attempt>, size: Reply -> nat, contract: Reply -> Option<Text>,
                       rollbackFails: bool, message: Text, digest: string, store: Value -> string)
    requires |r.steps| == |attempts| && DistinctSteps(r)
    requires BatchReply(r, attempts, size, contract, rollbackFails, message).Some?
    ensures var reply := BatchReply(r, attempts, size, contract, rollbackFails, message).value;
            var done := Settled(r, Executed(r, attempts, size, |r.steps|), contract);
            var v := Accepted(reply, r, RESULT_CONTRACT_VERSION, size(reply), r.maxBytes);
            v.Some? ==>
              if reply.status.Indeterminate? then
                IndeterminateEntries(r, v.value, digest, store).Success? <==> !CutBreaks(r, done, rollbackFails)
              else
                IsKnown(v.value) && (TerminalEntries(v.value, digest, store).Success? <==> !CutBreaks(r, done, rollbackFails))
  {
    var reply := BatchReply(r, attempts, size, contract, rollbackFails, message).value;
    var done := Settled(r, Executed(r, attempts, size, |r.steps|), contract);
    if Valid(reply, r, RESULT_CONTRACT_VERSION, size(reply), r.maxBytes) {
      EveryStepIsSettledOnce(reply, r, RESULT_CONTRACT_VERSION, size(reply), r.maxBytes, digest, store);
      if !AllDone(done) { CutBreaksIs(r, done, rollbackFails, message); }
    }
  }

  // ----- Inputs on which the two ends part -----

  function OneRead(cap: nat): (r: Request) {
    Request("b", "d", cap, [StepRequest("i", "read", false)])
  }

  lemma OneStep(r: Request, a: Attempt, size: Reply -> nat)
    requires |r.steps| == 1
    ensures Executed(r, [a], size, 1) == [NextOutcome(r, [a], size, [])]
  {
    assert Executed(r, [a], size, 0) == [];
  }

  /** A batch of one read that fails. */
  lemma OneFailure(cap: nat, a: Attempt, size: Reply -> nat, contract: Reply -> Option<Text>)
    requires Observed(a).Fail? && forall reply :: contract(reply) == None
    ensures var r := OneRead(cap);
            && Settled(r, Executed(r, [a], size, 1), contract) == [Observed(a)] && !AllDone([Observed(a)])
            && BatchReply(r, [a], size, contract, false, []) == Some(RolledBackReply(r, [Observed(a)]))
  {
    OneStep(OneRead(cap), a, size);
    assert ![Observed(a)][0].Done?;
  }

  /** A handler that cites the fixture's own 32 MiB limit is refused under any smaller negotiated cap. */
  lemma HandlerLimitIsRefused(cap: nat, message: Text)
    requires 100 <= cap < MAX_RESPONSE_PAYLOAD_BYTES
    ensures var e := StepError(PayloadLimit, message, Some(MAX_RESPONSE_PAYLOAD_BYTES), Some(MAX_RESPONSE_PAYLOAD_BYTES + 1));
            var attempts := [Returned(Explicit(Fail(e), None))];
            var reply := BatchReply(OneRead(cap), attempts, (_: Reply) => 100, (_: Reply) => None, false, []);
            reply.Some? && Verdict(reply.value, OneRead(cap), RESULT_CONTRACT_VERSION, 100, cap) == Success(None)
  {
    var e := StepError(PayloadLimit, message, Some(MAX_RESPONSE_PAYLOAD_BYTES), Some(MAX_RESPONSE_PAYLOAD_BYTES + 1));
    var attempts, size, contract := [Returned(Explicit(Fail(e), None))], (_: Reply) => 100, (_: Reply) => None;
    assert Observed(attempts[0]) == Fail(e.(message := Bounded(message)));
    OneFailure(cap, attempts[0], size, contract);
    ReplyIsAccepted(OneRead(cap), attempts, size, contract, false, []);
    LimitDisagrees(cap, attempts);
  }

  lemma LimitDisagrees(cap: nat, attempts: seq<Attempt>)
    requires |attempts| == 1 && cap != MAX_RESPONSE_PAYLOAD_BYTES && ReportsLimit(attempts, 0)
    ensures !Agrees(OneRead(cap), attempts, [Observed(attempts[0])], false)
  {
    assert ![Observed(attempts[0])][0].Done?;
  }

  /** A batch of one read that returns a result. */
  lemma OneResult(cap: nat, a: Attempt, result: Json, size: Reply -> nat, contract: Reply -> Option<Text>)
    requires Observed(a) == Done(result) && Fits(result) && forall reply :: contract(reply) == None && size(reply) <= cap
    ensures var r := OneRead(cap);
            && Settled(r, Executed(r, [a], size, 1), contract) == [Done(result)] && AllDone([Done(result)])
            && BatchReply(r, [a], size, contract, false, []) == Some(Projection(r, [Done(result)]))
  {
    OneStep(OneRead(cap), a, size);
  }

  /** A result that holds half a surrogate pair is committed by the fixture, and the bridge's validator throws at the reply. */
  lemma UnpairedResultThrows()
    ensures var attempts := [Returned(Explicit(Done(JString([0xD800])), None))];
            var reply := BatchReply(OneRead(1024), attempts, (_: Reply) => 100, (_: Reply) => None, false, []);
            && reply.Some? && reply.value.transaction.TxCommitted?
            && Verdict(reply.value, OneRead(1024), RESULT_CONTRACT_VERSION, 100, 1024) == Throw
  {
    var result := JString([0xD800]);
    var attempts, size, contract := [Returned(Explicit(Done(result), None))], (_: Reply) => 100, (_: Reply) => None;
    UnpairedFits();
    OneResult(1024, attempts[0], result, size, contract);
    assert !UnitOk([0xD800], 0) && !HasCanonicalForm(result);
    assert [Done(result)][0].Done? && !ResultsHaveForms([Done(result)]);
    ReplyIsAccepted(OneRead(1024), attempts, size, contract, false, []);
  }

  lemma UnpairedFits()
    ensures Fits(JString([0xD800]))
  {
    var s: Text := [0xD800];
    assert !UnitOk(s, 0);
    assert QuoteBody(s, 0) == [] && QuoteBody(s, 1) == QuoteBody(s, 0) + QuoteUnit(s, 0);
    assert |QuoteUnit(s, 0)| == 6;
    FewBytes(Quote(s));
  }

  lemma {:induction false} FewBytes(t: Text)
    ensures Utf8Bytes(t) <= 3 * |t|
  {
    if t != [] { FewBytes(t[1..]); }
  }

  /** 239 letters and one character outside the basic plane: the 240th unit is half of it. */
  const SPLIT: Text := seq(239, i => 0x78) + [0xD83D, 0xDE00]

  /** A failed step with this message is rolled back and accepted, and the mapping then throws. */
  lemma SplitMessageThrows(digest: string, store: Value -> string)
    ensures var reply := BatchReply(OneRead(1024), [Threw(SPLIT)], (_: Reply) => 100, (_: Reply) => None, false, []);
            && WellFormed(SPLIT) && reply.Some?
            && var v := Accepted(reply.value, OneRead(1024), RESULT_CONTRACT_VERSION, 100, 1024);
               v.Some? && IsKnown(v.value) && TerminalEntries(v.value, digest, store) == Throw
  {
    var attempts, size, contract := [Threw(SPLIT)], (_: Reply) => 100, (_: Reply) => None;
    SplitIsWellFormed();
    CutWellFormedIff(SPLIT, MAX_MESSAGE_UNITS);
    BoundedCut(SPLIT);
    OneFailure(1024, attempts[0], size, contract);
    assert CutBreaks(OneRead(1024), [Observed(attempts[0])], false);
    assert Agrees(OneRead(1024), attempts, [Observed(attempts[0])], false);
    ReplyIsAccepted(OneRead(1024), attempts, size, contract, false, []);
    ReplyIsSettled(OneRead(1024), attempts, size, contract, false, [], digest, store);
  }

  lemma SplitIsWellFormed()
    ensures WellFormed(SPLIT) && |SPLIT| == 241 && IsHigh(SPLIT[239])
  {
    forall i | 0 <= i < |SPLIT| ensures UnitOk(SPLIT, i) {}
  }
}
