# RBP/1 bridge: model and proofs

A Dafny model of the bridge between the RBP/1 Gateway and the Revit add-in, and proofs of what
the bridge is for: a mutation reaches the add-in at most once, nothing is acknowledged before it
is durable, every uncertain mutation is held, deliveries are ordered and lossless, the two ends of
an atomic batch agree, and the codecs around them are exact.

## How the project is laid out

| files | what they hold |
|---|---|
| `Wrappers` | `Option` and `Result`; `Throw` is an exception |
| `JournalRecords`, `MutationHolds`, `Sequences` | the protocol package's record, hold and sequence transitions |
| `SemanticTables`, `SemanticInvariant`, `SemanticSteps` | records, holds and batches: transactions, their invariant, each transaction keeps it |
| `WireTables`, `WireInvariant`, `WireSteps`, `WireDeliveries` | sequence state, inbound work, delivery plans, outbox: the same |
| `Journal`, `JournalSteps`, `JournalSafety` | all operations as one machine with crash points and restarts |
| `JournalTheorems`, `JournalDeliveries`, `JournalRestart` | theorems over every sequence of operations |
| `RestartFailure`, `RestartCondition` | the run after which no restart succeeds, and exactly when one does |
| `JournalProgress` | what the journal does when nothing stands in the way |
| `DurableJournal` | the journal object: fields changed in place by loops, with rollback |
| `Utf16`, `CanonicalJson` | UTF-16 text and canonical JSON |
| `BatchReplies`, `FixtureBatch`, `BridgeBatch`, `BatchAgreement` | both ends of the atomic batch protocol |
| `BatchSettlement` | what a reply does to the journal's tables |
| `TransactionGroup` | the fixture's transaction group and concurrent batches |
| `ControlScheduler`, `LineSplitter` | the JSONL controller |
| `StrictJson`, `JsonGrammar` | the duplicate-key scanner and the JSON grammar |
| `Framing`, `ArtifactSpool`, `UuidV7` | frames, the spool's chunk plan, identifiers |

`#durable` is an atomic update: a transaction is a function that returns the new tables or `Throw`,
and a step that throws leaves everything as it was. A driver stretch that runs without awaiting (accept,
claim, send) is one operation with a `cut` that says where a crash ended it. Operations take arbitrary
arguments in any order, so the theorems cover every interleaving of redelivery, cancellation, crash and
restart, and more interleavings than the driver's dispatch window allows. `Hist` and `sent` are
specification state: the numbers given to drafts, the deliveries whose rows were deleted, the keys sent.

SHA-256 is taken to be injective, so digests are compared as the values they digest. A result of a batch
step is a JSON tree over UTF-16 code units; the size of a whole reply and what the schema objects to in it
are given functions of the reply.

## What turned out false

- A restart does not always succeed. The bridge journals a mutation, crashes before it claims it, and
  restarts; it sends another mutation of the same document, and while that one is in flight the first is
  delivered again, which promotes it under a new hold. If the bridge now crashes, the hold blocks the
  classification of the second mutation, and every later restart throws (`RestartCanFailForEver`).
  `RestartSucceedsIff` gives the exact condition on the tables a restart finds.
- The two ends of an atomic batch do not always agree. The fixture accepts a handler's own
  `response_payload_limit` report when it cites 32 MiB, and the bridge accepts only the negotiated cap
  (`HandlerLimitIsRefused`). The fixture commits a result that holds half a surrogate pair, and the bridge's
  validator throws while it measures the canonical form (`UnpairedResultThrows`). `ReplyIsAccepted` has the
  exact condition, for acceptance and for the throw.
- An accepted reply is not always settled. The bridge cuts the trigger's message to 240 code units; when the
  cut falls inside a surrogate pair, writing the journal entry throws (`SplitMessageThrows`).
  `EveryStepIsSettledOnce` says exactly when the mapping succeeds, and `ReplySettlesBatch` and
  `FixtureBatchSettles` exactly when the batch leaves the dispatched state. On the indeterminate path the
  holds are stored by then, and a restart from there cannot succeed if one of them conflicts with a mutation
  of the batch that never started (`BrokenMessageStrands`).
- UUIDs are not always distinct: two identifiers of a run are equal exactly when the counter had already
  stuck at 2^53 at the first of them and their millisecond fields agree modulo 2^48 (`IdsRepeatIff`).

## Model

| member | source | states |
|---|---|---|
| JournalTheorems.MutationSentAtMostOnce | packages/bridge-simulator/src/bridgeSimulator.ts:1532-1626 | over every run, a key sent to the add-in twice, by whatever route, belongs to a read |
| JournalTheorems.RunKeeps | packages/bridge-simulator/src/journal.ts:2597-2625 | the whole invariant of the tables and of what was sent holds after every sequence of operations |
| JournalTheorems.RunAdvances | packages/bridge-simulator/src/journal.ts:2699-2721 | no record, hold or batch row is ever lost and none goes back on what it recorded |
| JournalTheorems.AckNeverDecreases | packages/bridge-simulator/src/journal.ts:397-406 | until unregistration is confirmed the acknowledgeable number never goes down |
| JournalTheorems.AckCoversWork | packages/bridge-simulator/src/journal.ts:2033-2155 | every acknowledged number is answered with nothing, bound to a durable plan of its session, or its delivery's terminal frame was acknowledged by the peer |
| JournalTheorems.InboundRowsMoveForward | packages/bridge-simulator/src/journal.ts:2418-2435 | the row constraint holds at every point, a delivery row names an existing plan, and rows keep their identity and move only forward |
| JournalTheorems.SupersessionIsLocal | packages/bridge-simulator/src/journal.ts:2241-2257 | supporting fact about one transaction: storing a reply changes other rows only if they are older, of the same session, type and correlation, and then silences them |
| JournalTheorems.HoldsCoverAndStay | packages/bridge-simulator/src/journal.ts:2732-2755 | every indeterminate mutation names a stored hold that lists its key, for ever |
| JournalTheorems.BatchTerminalIsWriteOnce | packages/bridge-simulator/src/journal.ts:1772-1811 | a batch is terminal exactly when a carrier is stored, and neither payload nor carrier ever changes |
| JournalTheorems.ConflictingCommitChangesNothing | packages/bridge-simulator/src/journal.ts:1813-1880 | supporting fact about one transaction: a commit with another carrier leaves every table as it was |
| JournalTheorems.DispatchedAtMostOnce | packages/bridge-simulator/src/journal.ts:1583-1622 | a batch enters the dispatched state at most once in a run |
| JournalTheorems.StepsSentInOrder | packages/bridge-simulator/src/journal.ts:1709-1769 | a step of a non-atomic batch is sent only when all earlier steps have completed durably |
| JournalTheorems.NothingSentAfterFinal | packages/bridge-simulator/src/bridgeSimulator.ts:1095-1109 | once the snapshot of a non-atomic batch is final it stays final and no step of it is sent again |
| JournalRestart.RestartOfAnyRun | packages/bridge-simulator/src/journal.ts:241-250 | after a successful restart of any run no possibly dispatched mutation is open, each is held, no hold is lost, and a second restart changes nothing |
| JournalRestart.RestartClassifiesAll | packages/bridge-simulator/src/journal.ts:847-948 | a successful classification leaves no interrupted mutation and no dispatched atomic batch |
| JournalRestart.SecondRestartChangesNothing | packages/bridge-simulator/src/journal.ts:847-870 | classifying twice, in any order, is classifying once |
| RestartFailure.GroupClassifiesIff | packages/bridge-simulator/src/journal.ts:794-844 | promoting a session's interrupted mutations throws exactly when a hold that is not cleared conflicts with one of them |
| RestartFailure.BatchClassifiesIff | packages/bridge-simulator/src/journal.ts:877-948 | an interrupted atomic batch is classified exactly when it has rows, none of its mutations is settled and no hold blocks one of them |
| RestartCondition.RestartSucceedsIff | packages/bridge-simulator/src/journal.ts:241-250 | a restart succeeds exactly when, in the tables it finds, every dispatched atomic batch has rows, no settled mutation and none that a hold blocks, no two of these batches have open mutations with conflicting scopes, and no other interrupted mutation is blocked by a hold or conflicts with such a batch; the order of the listing does not matter |
| RestartCondition.RestartCanSucceedIff | packages/bridge-simulator/src/journal.ts:241-250 | the tables can always be listed, so some restart succeeds exactly under that condition alone |
| RestartCondition.BatchesClassifyIff | packages/bridge-simulator/src/journal.ts:877-948 | classifying a list of dispatched batches succeeds exactly when they are ready and pairwise apart, and it promotes their open mutations and blocks exactly what conflicts with those |
| RestartFailure.PromoteBlocks | packages/bridge-simulator/src/journal.ts:794-844 | promoting open mutations adds holds that block exactly the records whose scope conflicts with one of them |
| RestartFailure.RestartCanFailForEver | packages/bridge-simulator/src/journal.ts:794-844 | a run of crash, restart, send and redelivery after which every restart throws and a sent mutation stays open |
| JournalDeliveries.DeliveryLeavesOnlyWhenFinished | packages/bridge-simulator/src/journal.ts:2300-2321 | a plan or carrier leaves only when the peer acknowledged its terminal number or unregistration is confirmed; until then shape, terminal number and draft texts stay |
| JournalDeliveries.UnsentDraftsAreSuffix | packages/bridge-simulator/src/journal.ts:1211-1279 | at every point the stored drafts are exactly the ordinals without a number, numbers increase with the ordinals, and the plan is pending exactly while drafts are left |
| JournalDeliveries.DraftSentOnce | packages/bridge-simulator/src/journal.ts:1349-1400 | sending a draft takes the next ordinal and the next number and removes just that draft |
| JournalProgress.FreshInvocationIsSent | packages/bridge-simulator/src/bridgeSimulator.ts:1504-1626 | a new invocation that arrives in order and is not blocked is sent, exactly it, and is executing |
| JournalProgress.NextMessage | packages/bridge-simulator/src/journal.ts:2033-2118 | the next message of a session is journalled with its decision, its reply and its send |
| JournalProgress.SettledIsReplayed | packages/protocol/src/journalState.ts:466-519 | supporting fact about one transaction: a settled invocation is answered with its stored outcome and changes nothing |
| JournalProgress.ChangedBindingIsRefused | packages/bridge-simulator/src/journal.ts:619-698 | supporting fact about one transaction: another binding under a known key is refused and changes nothing |
| JournalProgress.OpenMutationIsHeld | packages/bridge-simulator/src/journal.ts:619-698 | a redelivered mutation that may have run becomes indeterminate under a new hold naming it alone |
| JournalProgress.AtomicBatchIsSentWhole | packages/bridge-simulator/src/journal.ts:1886-1970 | a new atomic batch that is not blocked is accepted, claimed and sent with all its steps |
| JournalProgress.NextStepIsClaimed | packages/bridge-simulator/src/journal.ts:1709-1769 | a received step is claimed once everything before it has completed and no hold blocks it |
| JournalProgress.ExactlyNextDraftCanBeSent | packages/bridge-simulator/src/journal.ts:1349-1400 | while a plan is pending and the window is free, the first unsent draft can be sent and no other |
| JournalSafety.ExecKeepsSem | packages/bridge-simulator/src/bridgeSimulator.ts:2407-2446 | every operation keeps the semantic invariant and sends only keys it claimed durably, mutations only for the first time |
| JournalSafety.ExecKeepsWire | packages/bridge-simulator/src/journal.ts:2033-2155 | every operation keeps the wire invariant, and only a confirmed unregistration takes anything back, for its own session |
| JournalSafety.RestartKeeps | packages/bridge-simulator/src/journal.ts:229-250 | a restart, however far it gets, keeps the invariant and loses nothing |
| JournalSteps.InvokeSends | packages/bridge-simulator/src/bridgeSimulator.ts:1504-1626 | accepting, claiming and sending one invocation, cut anywhere |
| JournalSteps.BatchSends | packages/bridge-simulator/src/bridgeSimulator.ts:1909-2110 | the same for a batch: all steps of an atomic one, or the reads a redelivery repeats |
| JournalSteps.AtomicSends | packages/bridge-simulator/src/journal.ts:1583-1622 | the claim of an atomic batch consumes each of its steps once, and the steps differ |
| JournalSteps.StepSends | packages/bridge-simulator/src/journal.ts:1709-1769 | the claim of a non-atomic step |
| JournalSteps.DecidedStepsRead | packages/bridge-simulator/src/journal.ts:1972-2029 | a redelivered batch re-executes at most one step: a read, the first without a completed outcome |
| SemanticSteps.AcceptKeepsInv | packages/bridge-simulator/src/journal.ts:619-698 | accepting or redelivering an invocation keeps the invariant and advances |
| SemanticSteps.RedeliverKeepsInv | packages/protocol/src/journalState.ts:466-519 | redelivery promotes an open mutation together with its hold and never reopens a record |
| SemanticSteps.ClaimInvocationKeepsInv | packages/bridge-simulator/src/journal.ts:700-708 | the one-time claim of a received record |
| SemanticSteps.IndeterminateKeepsInv | packages/bridge-simulator/src/journal.ts:794-844 | bulk promotion with its holds |
| SemanticSteps.ClassifyBatchKeepsInv | packages/bridge-simulator/src/journal.ts:877-948 | an interrupted atomic batch, its records and holds change together |
| SemanticSteps.UnregisterKeepsInv | packages/bridge-simulator/src/journal.ts:987-1053 | unregistration settles or holds every open record of the session |
| SemanticSteps.AcceptBatchKeepsInv | packages/bridge-simulator/src/journal.ts:1886-2031 | accepting or redelivering a batch |
| SemanticSteps.ClaimAtomicKeepsInv | packages/bridge-simulator/src/journal.ts:1583-1622 | claiming an atomic batch |
| SemanticSteps.ClaimStepsConsume | packages/bridge-simulator/src/journal.ts:1600-1618 | each claimed step was received before the claim and is not after it |
| SemanticSteps.ClaimStepKeepsInv | packages/bridge-simulator/src/journal.ts:1709-1769 | claiming a non-atomic step keeps the order of the batch |
| SemanticSteps.AtomicIndeterminateKeepsInv | packages/bridge-simulator/src/journal.ts:1630-1704 | losing the reply of an atomic batch |
| SemanticSteps.CommitKeepsInv | packages/bridge-simulator/src/journal.ts:1772-1811 | committing a batch terminal with its step outcomes |
| SemanticSteps.CommitLateKeepsInv | packages/bridge-simulator/src/journal.ts:1813-1880 | committing a late atomic terminal |
| SemanticSteps.ResolveKeepsInv | packages/bridge-simulator/src/journal.ts:1151-1170 | resolving a hold never removes it |
| SemanticInvariant.RecordTerminalsKeepsInv | packages/bridge-simulator/src/journal.ts:742-765 | recording outcomes keeps the invariant, dispatch marks and holds |
| SemanticInvariant.CancelKeepsInv | packages/protocol/src/journalState.ts:521-540 | cancellation keeps the invariant |
| SemanticInvariant.PromoteKeepsInv | packages/bridge-simulator/src/journal.ts:794-844 | installing holds and marking records keeps holds and uncertain mutations naming each other, both ways |
| MutationHolds.CandidatesSound | packages/protocol/src/mutationHold.ts:201-240 | every uncertain key gets exactly one candidate hold and no hold names another key |
| MutationHolds.AuthorizeKeepsHolds | packages/protocol/src/mutationHold.ts:621-699 | an allowed dispatch leaves no conflicting hold uncleared, removes none, and clears only what its resolution authorised |
| JournalRecords.RecordTerminalAdvances | packages/protocol/src/journalState.ts:390-448 | outcomes are write-once and a late outcome never ends indeterminacy |
| JournalRecords.MarkIndeterminateAdvances | packages/protocol/src/journalState.ts:450-464 | promotion keeps the record's invariant and stores the hold |
| WireInvariant.AckGrows | packages/bridge-simulator/src/journal.ts:397-406 | forward moves of the rows never lower the acknowledgeable number |
| WireInvariant.AckIsCovered | packages/bridge-simulator/src/journal.ts:397-406 | coverage of the acknowledged numbers in any state of the invariant |
| WireTables.Acknowledgeable | packages/bridge-simulator/src/journal.ts:397-406 | it is the largest number received with no unfinished work up to it |
| WireSteps.ArriveKeeps | packages/bridge-simulator/src/journal.ts:2033-2155 | arrivals, new, repeated or refused, keep the wire invariant |
| WireSteps.InboundAdvances | packages/protocol/src/sequenceState.ts:264-340 | only the next number is accepted; duplicates, gaps and faults leave the receive counter alone |
| WireSteps.StoreReplyKeeps | packages/bridge-simulator/src/journal.ts:2218-2239 | storing a reply keeps the wire invariant |
| WireSteps.CompleteNoReplyKeeps | packages/bridge-simulator/src/journal.ts:597-613 | silencing a row keeps the wire invariant |
| WireSteps.CancelJournaledKeeps | packages/bridge-simulator/src/journal.ts:527-534 | cancelling before dispatch silences the journaled rows of the invocation |
| WireSteps.StoreWithKeeps | packages/bridge-simulator/src/journal.ts:2290-2321 | storing a sequence state with the clean-up it triggers loses only rows whose delivery the peer acknowledged |
| WireDeliveries.StageKeeps | packages/bridge-simulator/src/journal.ts:1211-1279 | staging and replaying a delivery |
| WireDeliveries.QueueKeeps | packages/bridge-simulator/src/bridgeSimulator.ts:2953-3000 | queueing a frame gives it the next number and keeps the wire invariant |
| WireDeliveries.NextDraftIsFirstUnsent | packages/bridge-simulator/src/journal.ts:1365-1378 | the smallest stored ordinal is the number of drafts already sent |
| WireDeliveries.AcknowledgeKeeps | packages/bridge-simulator/src/bridgeSimulator.ts:3004-3014 | a cumulative acknowledgement |
| WireDeliveries.CleanedKeeps | packages/bridge-simulator/src/journal.ts:1424-1454 | cleaning an acknowledged carrier always finds its delivery and loses nothing else |
| WireDeliveries.CleanedHasPlan | packages/bridge-simulator/src/journal.ts:1424-1440 | a stored carrier always has its plan |
| WireDeliveries.ConfirmKeeps | packages/bridge-simulator/src/journal.ts:1060-1082 | confirming an unregistration touches only its session |
| DurableJournal.DurableBridgeJournal.constructor | packages/bridge-simulator/src/journal.ts:229-250 | an empty journal satisfies the invariant |
| DurableJournal.DurableBridgeJournal.RecordTerminals | packages/bridge-simulator/src/journal.ts:742-765 | the loop over outcomes, each with its own session, records all of them or none |
| DurableJournal.DurableBridgeJournal.MarkIndeterminateMany | packages/bridge-simulator/src/journal.ts:794-844 | holds and records change together or not at all |
| DurableJournal.DurableBridgeJournal.ClassifyInterruptedMutations | packages/bridge-simulator/src/journal.ts:847-870 | the interrupted mutations of a row listing are grouped by session and each session is its own transaction; if none throws, none is left open |
| DurableJournal.DurableBridgeJournal.GroupInterrupted | packages/bridge-simulator/src/journal.ts:849-860 | the grouping loop lists exactly the interrupted mutations, one group per session |
| DurableJournal.DurableBridgeJournal.MarkAtomicBatchDispatched | packages/bridge-simulator/src/journal.ts:1583-1622 | all steps are claimed with the batch, or none; the invariant is kept when the stored batch is atomic |
| DurableJournal.DurableBridgeJournal.AcknowledgeableRxSeq | packages/bridge-simulator/src/journal.ts:397-406 | the search for the smallest unfinished work |
| DurableJournal.DurableBridgeJournal.StageDurableDelivery | packages/bridge-simulator/src/journal.ts:1211-1279 | plan, drafts and binding are stored together or not at all |
| DurableJournal.DurableBridgeJournal.QueueDraft | packages/bridge-simulator/src/journal.ts:1349-1400 | a draft is consumed with its sequence state or not at all |
| DurableJournal.DurableBridgeJournal.AcceptInboundInvocation | packages/bridge-simulator/src/journal.ts:408-441 | acceptance, decision, reply and claim of one invocation |
| FixtureBatch.NormalizeIsOk | packages/addin-loopback-fixture/src/fixture.ts:475-529 | whatever a handler returns, its outcome has a valid reason token or a permitted error with valid evidence |
| FixtureBatch.ObservedIsOk | packages/addin-loopback-fixture/src/fixture.ts:1394-1440 | whatever happens at a step, busy, a throw, an injected error or any returned value, gives such an outcome |
| FixtureBatch.ReasonTokenIsToken | packages/addin-loopback-fixture/src/fixture.ts:174-179 | every reason becomes a token |
| FixtureBatch.ReasonTokenIdempotent | packages/addin-loopback-fixture/src/fixture.ts:174-179 | a token is reported unchanged |
| FixtureBatch.NestedFailure | packages/addin-loopback-fixture/src/fixture.ts:443-473 | a nested failure is guarded with a token or a command failure |
| FixtureBatch.ExecuteBatch | packages/addin-loopback-fixture/src/fixture.ts:1384-1528 | the loop over the steps computes the specified reply |
| FixtureBatch.ExecutedShape | packages/addin-loopback-fixture/src/fixture.ts:1394-1476 | all outcomes but the last are successes, and the last stops the batch unless it is complete |
| BridgeBatch.ValidateAtomicBatchResult | packages/bridge-simulator/src/bridgeSimulator.ts:578-702 | the validator, with its loops, accepts exactly the valid replies and throws exactly where it reaches a committed result without a canonical form |
| BridgeBatch.AcceptsExactlyValid | packages/bridge-simulator/src/bridgeSimulator.ts:578-702 | supporting fact: the replies it throws at are none of the valid ones |
| BridgeBatch.TerminalMappingAgrees | packages/bridge-simulator/src/bridgeSimulator.ts:2598-2717 | summarising the mapped outcomes of a known reply gives back its status and failed index, so the disagreement throw is unreachable |
| BridgeBatch.IndeterminateMappingAgrees | packages/bridge-simulator/src/bridgeSimulator.ts:2477-2567 | summarising an indeterminate reply gives indeterminate at the first mutation that may have started |
| BridgeBatch.EveryStepIsSettledOnce | packages/bridge-simulator/src/bridgeSimulator.ts:2477-2700 | for every accepted reply the mapping succeeds exactly when the trigger, if it is journaled as failed under its own message, has a message whose first 240 units are well-formed; then every step gets exactly one of a hold and a journal entry the journal takes, with the status the reply gave it |
| BridgeBatch.EntryIff | packages/bridge-simulator/src/bridgeSimulator.ts:2811-2826 | a journal entry is written exactly when its payload has a canonical form |
| BridgeBatch.FirstFailure | packages/bridge-simulator/src/bridgeSimulator.ts:524-543 | the first outcome that is not a success |
| BatchAgreement.ReplyIsAccepted | packages/addin-loopback-fixture/src/fixture.ts:1384-1737 | whatever the handlers return or throw, the bridge accepts the fixture's reply, with its status, transaction state and failed index, exactly when it fits the cap and: all results of a completed batch have canonical forms; a stopped batch reports no limit but the negotiated cap, and had started a mutation if its rollback fails. It throws exactly at a committed reply within the cap with a result that has no canonical form |
| BatchAgreement.ReplyIsSettled | packages/bridge-simulator/src/bridgeSimulator.ts:2477-2700 | whatever the handlers do, the mapping of an accepted reply throws exactly when the trigger is journaled as failed and the 240-unit cut of its message is not well-formed |
| BatchAgreement.BoundedCut | packages/addin-loopback-fixture/src/fixture.ts:169-172 | supporting fact: bounding a message to 600 units does not change its first 240 |
| BatchAgreement.HandlerLimitIsRefused | packages/bridge-simulator/src/bridgeSimulator.ts:567-576 | under any cap below 32 MiB, a reply the fixture builds and the bridge refuses |
| BatchAgreement.UnpairedResultThrows | packages/bridge-simulator/src/bridgeSimulator.ts:621-635 | a reply the fixture commits and the bridge's validator throws at |
| BatchAgreement.SplitMessageThrows | packages/bridge-simulator/src/bridgeSimulator.ts:2676-2690 | a well-formed message whose failed step is accepted by the bridge and cannot be journaled |
| BatchSettlement.ReplySettlesBatch | packages/bridge-simulator/src/bridgeSimulator.ts:2453-2475 | a batch in flight leaves the dispatched state exactly when the validator does not throw, the trigger's journaled message survives its cut, and no hold stands in the way of a mutation that must be held; otherwise its row stays as it was |
| BatchSettlement.KnownReplySettles | packages/bridge-simulator/src/bridgeSimulator.ts:2598-2746 | a known reply records the outcome of every step with the batch carrier, or changes nothing |
| BatchSettlement.UncertainReplySettles | packages/bridge-simulator/src/bridgeSimulator.ts:2477-2596 | an indeterminate reply holds every mutation that may have run and journals every other step; if only the message fails, the holds stay and the batch stays dispatched |
| BatchSettlement.GiveUpIff | packages/bridge-simulator/src/bridgeSimulator.ts:2748-2767 | a refused or missing result makes the batch indeterminate and holds its mutations, exactly when no hold blocks one of them |
| BatchSettlement.FixtureBatchSettles | packages/bridge-simulator/src/bridgeSimulator.ts:2453-2475 | the same end to end, in terms of what the handlers did |
| BatchSettlement.BrokenMessageStrands | packages/bridge-simulator/src/bridgeSimulator.ts:2488-2558 | after an indeterminate reply whose message cannot be journaled, no restart succeeds if a stored hold conflicts with a mutation that never started |
| BatchSettlement.ClaimLeavesInFlight | packages/bridge-simulator/src/journal.ts:1583-1622 | the claim of an atomic batch leaves it in flight, as the settlement results suppose |
| Utf16.AssertWellFormedUnicode | packages/protocol/src/paramsDigest.ts:32-45 | the loop accepts exactly the texts in which no surrogate stands alone |
| Utf16.WellFormedIffEncoded | packages/protocol/src/paramsDigest.ts:32-45 | those are exactly the encodings of sequences of Unicode characters |
| Utf16.CutWellFormedIff | packages/bridge-simulator/src/bridgeSimulator.ts:2678-2680 | cutting well-formed text keeps it so exactly when the cut is not inside a surrogate pair |
| CanonicalJson.CanonicalizeIff | packages/protocol/src/paramsDigest.ts:56-111 | canonicalising succeeds exactly when every number is finite and every string and member name, at any depth, is well-formed |
| CanonicalJson.CanonicalIgnoresOrder | packages/protocol/src/paramsDigest.ts:97-107 | the canonical form of an object does not depend on the order of its members (section 3.2.3 of RFC 8785) |
| CanonicalJson.CanonicalBytes | packages/bridge-simulator/src/bridgeSimulator.ts:631-634 | the canonical form takes as many bytes as the compact form the fixture measures |
| CanonicalJson.StringifyWellFormed | packages/addin-loopback-fixture/src/framing.ts:27-33 | the compact form of any value is well-formed text |
| TransactionGroups.OverlayIsApplied | packages/addin-loopback-fixture/src/transactionGroup.ts:56-63 | reading through the overlay is reading what assimilation would leave |
| TransactionGroups.TestTransactionGroup.Read | packages/addin-loopback-fixture/src/transactionGroup.ts:56-63 | the backward search returns the value assimilation would leave |
| TransactionGroups.TestTransactionGroup.Stage | packages/addin-loopback-fixture/src/transactionGroup.ts:46-54 | a write is appended to the staged list, or refused |
| TransactionGroups.TestTransactionGroup.Assimilate | packages/addin-loopback-fixture/src/transactionGroup.ts:65-74 | the shared model receives exactly the staged writes in order |
| TransactionGroups.TestTransactionGroup.Rollback | packages/addin-loopback-fixture/src/transactionGroup.ts:76-86 | the model is untouched whether the rollback succeeds or fails |
| ConcurrentBatches.ModelHoldsCommittedBatches | packages/addin-loopback-fixture/src/fixture.ts:1384-1528 | in every interleaving the model is the initial map with the writes of exactly the batches that answered committed, once each, in assimilation order |
| ConcurrentBatches.CommitsIffAnswered | packages/addin-loopback-fixture/src/fixture.ts:1479-1487 | a group is assimilated exactly when the batch answers committed |
| ConcurrentBatches.CommitAppliesOverlay | packages/addin-loopback-fixture/src/transactionGroup.ts:56-74 | supporting fact about one step: committing a batch leaves in the shared model what its group read through its overlay |
| ControlScheduler.BarrierRunsAlone | packages/bridge-simulator/src/control.ts:2227-2255 | for every completion order, no operation runs beside a barrier operation |
| ControlScheduler.ResponsesAreOrdered | packages/bridge-simulator/src/control.ts:2270-2291 | responses are written in request order, each once, none after the shutdown response |
| ControlScheduler.DrainedMeansAnswered | packages/bridge-simulator/src/control.ts:2165-2176 | once drained without shutdown or write error, every accepted request is answered |
| ControlScheduler.JobWritesAllReady | packages/bridge-simulator/src/control.ts:2270-2291 | a write job stops only at a gap, behind the shutdown response or at the failed write, and then nothing more is written |
| ControlScheduler.NoDeadlock | packages/bridge-simulator/src/control.ts:2227-2291 | in every run with an unsettled task or a pending write, the controller can take a step that leaves less to do |
| ControlScheduler.StopCanDrain | packages/bridge-simulator/src/control.ts:2165-2176 | from every run, stopping can end drained: closed, or with every accepted request answered |
| ControlScheduler.ProgressDecreases | packages/bridge-simulator/src/control.ts:2227-2291 | whatever the controller does by itself, if it changes anything it leaves less to do |
| ControlScheduler.StopAlwaysDrains | packages/bridge-simulator/src/control.ts:2165-2176 | after a stop every way of going on is finite, and where it cannot go on the controller is drained: closed, or with every accepted request answered |
| ControlScheduler.BridgeJsonlControl.ScheduleTask | packages/bridge-simulator/src/control.ts:2227-2255 | a request waits for the last barrier, a barrier also for every unsettled task |
| ControlScheduler.BridgeJsonlControl.PublishResponse | packages/bridge-simulator/src/control.ts:2270-2273 | a finished operation leaves its response and one more write job |
| ControlScheduler.BridgeJsonlControl.RunWriteJob | packages/bridge-simulator/src/control.ts:2270-2291 | the publishing loop of one job, also when a write fails |
| LineSplitter.Splitter.Consume | packages/bridge-simulator/src/control.ts:2178-2214 | however the stream is cut, the events so far are the events of the bytes so far |
| LineSplitter.PartEvents | packages/addin-loopback-fixture/src/control.ts:204-225 | part of a line adds one event exactly when the line outgrows 64 KiB |
| LineSplitter.LineFeedEvents | packages/addin-loopback-fixture/src/control.ts:226-243 | a line feed adds the line without its carriage return, unless it was already reported |
| LineSplitter.EventsFollowLines | packages/bridge-simulator/src/control.ts:2178-2214 | supporting fact: one event per line in order, one more for an unfinished line exactly when it is too large |
| LineSplitter.LinesAreTheStream | packages/bridge-simulator/src/control.ts:2178-2214 | the finished lines and the rest make up the stream again |
| StrictJson.DuplicateKeyScanner.Scan | packages/addin-loopback-fixture/src/strictJson.ts:41-51 | the cursor machine terminates on every text with the specified verdict |
| StrictJson.DuplicateKeyScanner.ScanObject | packages/addin-loopback-fixture/src/strictJson.ts:75-102 | the member loop and its key set |
| StrictJson.DuplicateKeyScanner.ScanArray | packages/addin-loopback-fixture/src/strictJson.ts:104-122 | the item loop |
| StrictJson.DuplicateKeyScanner.ScanName | packages/addin-loopback-fixture/src/strictJson.ts:125-138 | the string token and its decoded value |
| JsonGrammar.ScannerIsExact | packages/addin-loopback-fixture/src/strictJson.ts:41-143 | on every JSON text the scanner consumes the whole text, or reports a duplicate exactly when some object at some depth has two members with equal decoded names (section 4 of RFC 8259) |
| JsonGrammar.ScansString | packages/addin-loopback-fixture/src/strictJson.ts:125-138 | every string, with any escapes, is decoded and left at its end |
| Framing.ChunkingIsIrrelevant | packages/addin-loopback-fixture/src/framing.ts:74-99 | any cutting of a stream yields the frames and the fatal point of one piece |
| Framing.DecodeEncoded | packages/addin-loopback-fixture/src/framing.ts:35-47 | decoding concatenated frames gives the payloads back |
| Framing.FramesSurviveChunking | packages/addin-loopback-fixture/src/framing.ts:35-99 | the two together, for any cutting |
| Framing.FrameDecoder.Push | packages/addin-loopback-fixture/src/framing.ts:74-99 | the loop decodes buffer and chunk as one piece, keeps fewer than 4 + max bytes, and closes on a fatal length |
| Framing.HeaderRoundTrip | packages/addin-loopback-fixture/src/framing.ts:43-45 | a 32-bit length survives its header |
| ArtifactSpools.RehydrateRestores | packages/bridge-simulator/src/artifacts.ts:455-521 | rehydrating the compact carrier gives back exactly the carrier while its files are unchanged, and refuses otherwise |
| ArtifactSpools.RehydrateRestoresResult | packages/bridge-simulator/src/artifacts.ts:599-637 | the same for a chunked result |
| ArtifactSpools.ChunksMakeUpBytes | packages/bridge-simulator/src/artifacts.ts:277-291 | chunks concatenate to the bytes, none is empty or too long, and there are ceil(size / chunkBytes) |
| ArtifactSpools.RetainedIsUnchanged | packages/bridge-simulator/src/artifacts.ts:239-321 | right after retaining, the files are what the carrier says |
| ArtifactSpools.ArtifactSpool.Retain | packages/bridge-simulator/src/artifacts.ts:239-321 | all files and the whole carrier, or nothing |
| ArtifactSpools.ArtifactSpool.RetainChunkedResult | packages/bridge-simulator/src/artifacts.ts:323-373 | one file and its carrier, or nothing |
| ArtifactSpools.ArtifactSpool.Rehydrate | packages/bridge-simulator/src/artifacts.ts:455-521 | the loops over members and chunks compute the specified carrier |
| ArtifactSpools.CutIntoChunks | packages/bridge-simulator/src/artifacts.ts:277-291 | the loop over offsets |
| UuidV7.UuidDecodes | packages/gateway-stub/src/ids.ts:18-29 | an identifier decodes to its time modulo 2^48 and its counter modulo 2^74 |
| UuidV7.UuidIsVersion7 | packages/gateway-stub/src/ids.ts:18-29 | every output has the version-7 and variant shape of section 5.7 of RFC 9562 |
| UuidV7.IdsRepeatIff | packages/gateway-stub/src/ids.ts:18-29 | two identifiers of a run are equal exactly when the counter had stuck at 2^53 and their time fields agree, whatever the clock does |
| UuidV7.IdsAreDistinct | packages/gateway-stub/src/ids.ts:18-21 | supporting fact: an identifier made before the counter sticks differs from every later one |
| UuidV7.StuckCounterRepeats | packages/gateway-stub/src/ids.ts:18-21 | supporting fact: behind that point equal time fields give equal identifiers |
| UuidV7.HexIsFixed | packages/gateway-stub/src/ids.ts:9-11 | padding and slicing writes exactly the low digits |
| UuidV7.PersistedGatewayState.AllocateUuidV7 | packages/gateway-stub/src/ids.ts:18-29 | one allocation and its effect on the persisted counter |

## Left out

- SQLite, fsync, the write-ahead log and schema migration: a transaction is an atomic update.
- The artifact clean-up queue and the delivery tombstones: they record what was removed and would add only easy members.
- `saveSequenceWithCarrier`: the peer gives a carrier only with a staged draft, so every carrier has its plan (`CleanedHasPlan`) and a queue request with a carrier and no draft throws here.
- The in-memory dispatch window: operations may interleave more freely here than the driver lets them.
- `recordVerificationAttempt` and `recordLateEvidence` are one evidence operation without the checks on the attesting read; a hold's states and its resolution are modelled.
- Sequence priming for conformance, reconnect timing, sockets, TLS, HTTP bindings and CLI entry points.
- The reuse of a session id after its unregistration is completed is modelled as a fresh session; a carrier clean-up that was listed before the confirmation and ends after such a reuse is not.
- Non-atomic batch summaries and the carrier byte budget of `#invokeNonAtomicBatch`: they decide outcomes, not dispatch.
- `#normalizeAbandonedBatchOutcome` and the text of a retained payload: how a payload is written down is a given function of it.
- A late atomic reply (`#recordLateAtomicBatchResponse`) and the wording of its outcomes; committing its carrier is modelled.
- `jsonValueError` and `toLowerCase`: what they find in a handler's return value is part of that value.
- The bound 2^53 on byte counts in a reply: sizes are unbounded naturals there.
- UTF-8 decoding, the byte-order mark and the size limit of `parseStrictJsonBytes`: the scanner starts from UTF-16 text the JSON parser has accepted.
- File-system containment, symbolic links and inode checks of the spool, `captureDeclaredPaths`, evidence and orphan reconciliation.
- The file-name rules of the spool: whether a name passes is an attribute of the name.
- The C# broker and receiver, the dashboard, the documentation server and the Revit snippets.
- DurableBridgeJournal: unregistration, batch acceptance, cancellation and hold resolution are modelled on values only, so in-place update is not shown for them.
- MarkAtomicBatchDispatched: keeps the invariant only for a stored batch that is atomic; the driver calls it for no other, and the order of non-atomic steps would not survive it.
- BatchSettlement: the two commit methods are modelled on values; the carrier is a given string, and the batch is in flight with no step decided, as its claim leaves it.
