# Verified models of an AI runtime's stateful cores

Dafny models of seven stateful parts of the runtime, with proofs of what they keep over every run. Each
part is written twice: once as a specification over values, one function per transaction or step, on
which the theorems are proved, and once as the program runs, as classes and loops whose contracts equate
their result with that specification. What a step leaves is stated once more in literal states
(`BackgroundOutcomes`, `AttachmentOutcomes`, the contracts of the service methods), so that neither form
rests on the other alone.

- **Background responses** (`BackgroundRows`, `BackgroundSteps`, `BackgroundInvariant`,
  `BackgroundTheorems`, `BackgroundSettlement`, `BackgroundOutcomes`, `BackgroundStore`). Workers reconcile a parked run with a
  provider's background response: claims with leases, heartbeats, requeues, webhook receipts, budget
  settlement. The state is one submission with its run, reservation, outcomes and receipts; workers may
  present any claim value, however old. `BackgroundSubmitSteps` and `BackgroundSubmit` model the submission
  that creates such a row, with a failure possible at every await, before or after its effect.
- **Attachments** (`AttachmentSteps`, `AttachmentProtocol`, `AttachmentInvariant`, `AttachmentTheorems`,
  `AttachmentHistory`, `AttachmentStore`, `AttachmentOutcomes`, `AttachmentRuns`, `AttachmentCleaning`,
  `AttachmentService`). Upload, cleanup workers, owner removal, finalization and linking race over one record
  and a blob store. Each external call is one step, and may succeed, fail, or succeed and report failure.
- **Agent loop** (`AgentLoopSteps`, `AgentLoopGuard`, `AgentLoopTheorems`, `AgentLoopRounds`, `Transcript`,
  `TranscriptParser`, `Checkpoint`). The sequencing guard of a run, the parser of replayed conversations
  with the grammar it recognises, and the JSON checkpoints that carry them.
- **Live deltas** (`Utf8`, `LiveDelta`). Coalescing of streamed text on character boundaries (section 3 of
  RFC 3629) under a byte and a time ceiling.
- **Local harness** (`HarnessEvents`, `HarnessFraming`, `HarnessTraces`, `HarnessProcess`). JSON-lines framing of chunked
  process output and the event automaton behind it.
- **Credentials** (`CredentialSaga`, `CredentialCleanup`, `CredentialService`). Rotation and removal of provider secrets across
  a database and a secret store.
- **Disclosure** (`Disclosure`). Evaluation of a tool result against a static schema.

`Wrappers`, `References` and `Arithmetic` hold what several parts share. `dafny verify dfyconfig.toml`
checks the project.

## Where the code falls short of what one would expect

Each of these is proved with the exact condition.

- More than 65 unsettled receipts of one response, one to process and 64 duplicates, block its commit even
  when all of them agree (`BackgroundSettlement.CommitVerdict`; a run that gets there in
  `AgreeingReceiptsCanBlockTheCommit`).
- Giving a claim back after the retrieval marker was bound is refused unless retries or time are exhausted,
  and a heartbeat is refused from then on (`BackgroundTheorems.MarkerDecidesGivingBack`,
  `MarkerDecidesRenewal`).
- Claiming and expiry stop when the clock no longer fits a signed 32-bit number of seconds
  (`BackgroundTheorems.ClaimSucceedsExactlyWhenDue`, `ExpiredRowIsClosed`).
- The attachment documentation (docs/attachments.md:88-107) promises later cleanup of a removal whose storage
  call failed, and a reclaimable lease after a crash. After one failed or abandoned cleanup attempt the row
  counts as a retention case and no cleanup of an active session takes it again
  (`AttachmentTheorems.RemovalIsStrandedAfterOneFailedCleanup`, `StrandedForever`; a run that gets there in
  `AttachmentRuns.RemovalEndsStranded`).
- An upload can delete the object its ready record serves. The record is served with its attested object
  along a run exactly as long as no step is that deletion
  (`AttachmentTheorems.ServedRecordsNameAttestedObjects`), and only an accepting commit that takes effect and
  whose answer is lost leads up to it (`EndangeredExactlyByALostAnswer`; a run in
  `AttachmentRuns.LostAcceptanceDeletesTheServedObject`). Runs without such a commit are safe
  (`AcknowledgedRunsAreServed`).
- In the same way the compensation of a set can delete the secret the profile refers to
  (`CredentialSaga.ReferencesAreLiveExactlyWithoutSuchADeletion`, `EndangeredExactlyByALostAnswer`; a run in
  `LostAnswerDeletesTheCredential`; safe runs in `AcknowledgedRunsStayLive`).
- A tool result with model input and no egress manifest is stored before it is refused, and the guard never
  recovers (`AgentLoopTheorems.ResultWedgesExactlyWhen`, `WedgedForever`). Both tool services always supply
  the two together, so this needs a caller of another kind.
- Whether a line of exactly the frame limit closed by carriage return and newline is accepted depends on
  where the output is cut (`HarnessFraming.ChunkingMattersExactlyWhenALineIsTooLong`).

## Model

| member | source | states |
|---|---|---|
| BackgroundStore.Store.MatchReceipt | src/orm_background.rs:4807-4916 | Binds the first pending receipt unless one is bound already, refuses two bound ones, and reports exactly the bound receipt; the row state equals the specification function of the old state. |
| BackgroundStore.Store.FinishMatched | src/orm_background.rs:3494-3556 | Gives the one bound receipt its final state and time and touches no other row. |
| BackgroundStore.Store.CloseDuplicateReceipts | src/orm_background.rs:3558-3632 | Refuses more than 64 or malformed pending receipts; otherwise every pending receipt of the response becomes a duplicate when it agrees with the verdict and goes to recovery when it does not, all others unchanged. |
| BackgroundStore.Store.CloseRecovery | src/orm_background.rs:4617-4805 | Moves submission, run, outcome and bound receipt to recovery together, or refuses. |
| BackgroundStore.Store.ClaimOnce | src/orm_background.rs:1856-1996 | Hands out a claim that copies the new row exactly: generation and version up by one, lease equal to the next attempt and cut off at the deadline, retrieval marker cleared; a failed check leaves every row as it was. |
| BackgroundStore.Store.HeartbeatOnce | src/orm_background.rs:1998-2058 | Renews lease and next attempt together up to the deadline and returns the claim with the new version; a row that carries a retrieval marker is refused. |
| BackgroundStore.Store.BindRetrievalEgress | src/orm_background.rs:2702-2793 | Sets the retrieval marker once, under a current claim and an unsettled graph. |
| BackgroundStore.Store.CloseExpiredOnce | src/orm_background.rs:2060-2118 | Closes a live row whose deadline has passed into recovery and reports how many it closed. |
| BackgroundStore.Store.ReleaseBeforeRetrieval | src/orm_background.rs:2120-2208 | Requeues or exhausts a claim that retrieved nothing, with the marker left as it is. |
| BackgroundStore.Store.ReleaseNonterminal | src/orm_background.rs:2210-2312 | Requeues a nonterminal observation after the backoff, or closes it when retries or time are used up. |
| BackgroundStore.Store.HandleRetrievalFailure | src/orm_background.rs:2314-2435 | Requeues a retryable failure and closes any other one into recovery, only after a bound retrieval; the new state is that of the specification function, which BackgroundOutcomes.FailureOutcome states without naming it. |
| BackgroundStore.Store.CommitBudget | src/orm_budget.rs:709-944 | Turns an uncertain reservation into a committed one with exactly the settled usage, once; the counters of the budget scopes are not in the state. |
| BackgroundStore.Store.CommitGraph | src/orm_background.rs:3173-3338 | Writes the verdict to submission, run, outcome and receipts in one piece, or none of it; which states belong to which verdict is stated in BackgroundOutcomes.CommitOutcome and VerdictTable. |
| BackgroundStore.Store.CommitOnce | src/orm_background.rs:3010-3075 | Settles a current claim, or sends a disagreeing receipt to recovery; everything is rolled back when a later check fails. |
| BackgroundStore.Store.Commit | src/orm_background.rs:2845-2956 | Compares an already settled submission with the observation and otherwise settles it; the state changes only in the second case. |
| BackgroundRows.RetryDelay | src/orm_background.rs:4052-4067 | The backoff is at least one second and at most the deployment maximum; BackgroundOutcomes.BackoffDoubles gives its values. |
| BackgroundInvariant.MatchKeeps | src/orm_background.rs:4807-4916 | On consistent receipts matching always succeeds, binds at most one, processes none and reports the first bound receipt. |
| BackgroundInvariant.FinishKeeps | src/orm_background.rs:3494-3556 | Finishing leaves no bound receipt, and one more processed one exactly when it processes. |
| BackgroundInvariant.CountClosed | src/orm_background.rs:3558-3632 | Closing duplicates leaves nothing pending and changes neither the bound nor the processed receipts. |
| BackgroundInvariant.ReceiptsSettle | src/orm_background.rs:3494-3632 | Receipts can be settled exactly when at most 64 are pending; afterwards none is bound, at most one is processed, and it agrees with the verdict. |
| BackgroundInvariant.CloseRecoveryKeeps | src/orm_background.rs:4617-4727 | Recovery of a live row never fails and leaves the whole recovered graph with an uncertain budget. |
| BackgroundInvariant.ClaimKeeps | src/orm_background.rs:1856-1996 | Claiming keeps the row, graph and receipt invariant. |
| BackgroundInvariant.CommitOnceKeeps | src/orm_background.rs:3010-3075 | Committing keeps the invariant and leaves either a settled graph with the given amounts or a recovered one. |
| BackgroundInvariant.CommitGraphKeeps | src/orm_background.rs:3173-3338 | The terminal graph is written exactly when the duplicates can be closed, and is then settled for this status and these amounts. |
| BackgroundInvariant.DeliverKeeps | src/orm_webhooks.rs:110-225 | A webhook that arrives at any time and sorts anywhere keeps the invariant. |
| BackgroundInvariant.StepKeeps | src/orm_background.rs:1856-3075 | Every transaction, clock tick and webhook delivery keeps the invariant, whatever claim or observation value is presented. |
| BackgroundInvariant.RunKeeps | src/orm_background.rs:1856-3075 | The invariant holds after every sequence of such steps. |
| BackgroundTheorems.ClaimSucceedsExactlyWhenDue | src/orm_background.rs:1621-1996 | A claim is handed out if and only if the worker is valid, the row is due before its deadline and the clock fits the 32-bit query filter, fails exactly when worker or clock do not fit, and otherwise changes nothing; the long claim validator never refuses a due row. |
| BackgroundTheorems.ExpiredRowIsClosed | src/orm_background.rs:1739-1768 | Within the same clock limit, an expired live row always passes its validator and is closed completely; past the limit the call fails. |
| BackgroundTheorems.MarkerDecidesRenewal | src/orm_background.rs:1998-2793 | For a current claim, renewing the lease and binding the marker succeed exactly while the marker is not set. |
| BackgroundTheorems.MarkerDecidesRetrieval | src/orm_background.rs:2210-2435 | For a current claim, a retrieval failure is handled exactly when the marker is set, and a nonterminal observation always. |
| BackgroundTheorems.MarkerDecidesGivingBack | src/orm_background.rs:2120-2208 | A current claim can be given back unused if and only if the marker is not set or retries or time are exhausted. |
| BackgroundTheorems.Lockstep | src/orm_background.rs:3173-3338 | In every reachable state submission and run correspond, there is one outcome exactly when the run has left the provider, and the budget is committed exactly when the submission is completed, failed or cancelled, otherwise uncertain. |
| BackgroundTheorems.FencedStep | src/orm_background.rs:4517-4589 | Every step keeps all claim values ever issued except the newest behind the row version. |
| BackgroundTheorems.AtMostOneClaimValidates | src/orm_background.rs:4517-4589 | Over any run from an accepted row, of all claim values ever issued at most one validates. |
| BackgroundTheorems.SupersededClaimsStayDead | src/orm_background.rs:4517-4589 | Over any run from an accepted row, a superseded claim value never validates again on any continuation. |
| BackgroundTheorems.UnexpiredLeaseIsNeverTaken | src/orm_background.rs:1924-2112 | While a claim is current, neither another claim nor the expiry sweep touches the row. |
| BackgroundTheorems.ClaimsAndRetriesAreBounded | src/orm_background.rs:1907-1943 | Along any run claims happen at strictly increasing seconds, their number is bounded by the remaining time to the deadline, and requeues by the maximum retries. |
| BackgroundTheorems.RowMoves | src/orm_background.rs:1856-3075 | Every step leaves the row alone or raises its version, and generation, retry counter and deadline move only as the protocol says. |
| BackgroundOutcomes.RecoveryOutcome | src/orm_background.rs:4617-4805 | Recovery in literal states: submission and run wait for recovery with this reason, the bound receipt goes with them, one outcome is added and the reservation stays uncertain. |
| BackgroundOutcomes.FailureOutcome | src/orm_background.rs:2314-2435 | A failed retrieval with the marker set: a final error goes to recovery with that error; a retryable one waits for the provider again with one retry more, due exactly after the backoff, marker cleared and run still parked, exactly when retries are left and that time is before the deadline; otherwise it goes to recovery as RetryExhausted or DeadlineExhausted, whichever it is. |
| BackgroundOutcomes.ObservationOutcome | src/orm_background.rs:2210-2312 | A nonterminal observation is stored as the last status and requeued or exhausted under the same conditions. |
| BackgroundOutcomes.GivenBackOutcome | src/orm_background.rs:2120-2208 | A claim given back unused is requeued after the bounded delay with one retry more and the last status as it was, or exhausted. |
| BackgroundOutcomes.ExpiryOutcome | src/orm_background.rs:2060-2118 | The sweep moves a live row to recovery as DeadlineExpired as soon as its deadline is reached, and changes nothing before. |
| BackgroundOutcomes.BackoffDoubles | src/orm_background.rs:4052-4067 | The backoff starts at one second, doubles with every retry up to the thirtieth and is cut off at the maximum. |
| BackgroundOutcomes.CurrentExactlyWhen | src/orm_background.rs:4517-4589 | Of all claim values exactly the one that repeats the row is current, exactly until its lease runs out: every other check of the validator is implied. |
| BackgroundOutcomes.ClaimOutcome | src/orm_background.rs:1856-1996 | A claim in literal states: owner, generation, lease end, cleared marker, and the oldest pending receipt bound unless one is bound already. |
| BackgroundOutcomes.HeartbeatOutcome | src/orm_background.rs:1998-2058 | A heartbeat moves lease and next attempt to exactly the lease time from now, cut off at the deadline, and nothing else. |
| BackgroundOutcomes.BindOutcome | src/orm_background.rs:2702-2793 | Binding the retrieval sets the marker and the version and nothing else. |
| BackgroundOutcomes.MatchBindsTheDeciding | src/orm_background.rs:4807-4916 | The receipt that decides a commit is the bound one, or the oldest pending one. |
| BackgroundOutcomes.CommitOutcome | src/orm_background.rs:2845-3075 | A commit of a current claim in full: the condition under which it commits, and then the literal states of run and submission for the observed status, message and checkpoint, the final state of every receipt, the outcome and the committed reservation; a disagreeing receipt leads to recovery. |
| BackgroundOutcomes.VerdictTable | src/orm_background.rs:3173-3338 | In every reachable settled state: status Completed if and only if submission and run are Completed, Cancelled if and only if they are Cancelled, Failed or Incomplete if and only if they are Failed, a message exists exactly for Completed and is the checkpoint of the run, and the outcome says the same. |
| BackgroundOutcomes.DeliveryOutcome | src/orm_webhooks.rs:110-225 | A new terminal event waits unbound at its place, another one is stored as ignored, a repeated one changes nothing. |
| BackgroundSettlement.ReceiptsStayConsistent | src/orm_background.rs:3494-4916 | In every reachable state at most one receipt is bound, none once the submission is closed, at most one is ever processed, and it carries the final status. |
| BackgroundSettlement.CommitVerdict | src/orm_background.rs:3010-3075 | A commit of a current claim in full: a disagreeing receipt ends in recovery with the budget untouched; otherwise it settles if and only if the bound and the pending receipts of the response are at most 65 together, which a caller can count before the call. |
| BackgroundSettlement.AgreeingReceiptsCanBlockTheCommit | src/orm_background.rs:3558-3632 | From a row just acknowledged, the run that claims it, binds the retrieval and delivers n webhooks that all agree ends in a state whose commit aborts exactly when n exceeds 65. |
| BackgroundSettlement.CrowdedIsReached | src/orm_background.rs:1856-2793 | That run ends in exactly the crowded state: one claim, one bound marker, n pending receipts in order of arrival. |
| BackgroundSettlement.ClosedForever | src/orm_background.rs:2845-3075 | Once closed, submission, run, budget, usage and outcomes never change again. |
| BackgroundSettlement.ReplayIsExact | src/orm_background.rs:2845-2956 | After a successful commit and any further steps, committing any observation answers AlreadyReconciled exactly when its claim is for the same response of the same submission and status, usage and settled amounts are those of the first commit, fails otherwise, and changes nothing. |
| BackgroundSettlement.ReplayOnSettled | src/orm_background.rs:3634-3817 | The replay validator accepts exactly the agreeing observation on a settled graph. |
| BackgroundSubmit.Service.Prepare | src/orm_background.rs:1126-1270 | Writes the prepared row and renews the run lease, under a held lease and a held reservation, at most once. |
| BackgroundSubmit.Service.Accept | src/orm_background.rs:1272-1436 | Binds an exact acknowledgement to a pristine row, parks the run without a lease and computes the deadline from the earlier of creation and submission. |
| BackgroundSubmit.Service.CloseAmbiguity | src/orm_background.rs:1438-1560 | Moves a prepared row and its run to recovery with one outcome. |
| BackgroundSubmit.Service.Reconcile | src/orm_budget.rs:390-560 | Answers a repeated request as before; an uncertain reservation is never released. |
| BackgroundSubmit.Service.SubmitWithHeartbeats | src/orm_background.rs:1096-1124 | Starts the transport exactly once and changes neither row nor reservation; succeeds exactly when the transport does and every heartbeat succeeds within the lease of the one before, and tells how long the renewed lease still runs. |
| BackgroundSubmit.Service.ReleaseUnstarted | src/orm_background.rs:1562-1582 | Releases the reservation and reports the original failure, or reports the failed release. |
| BackgroundSubmit.Service.Mark | src/orm_background.rs:1035-1056 | Either the reservation is uncertain and the row open, exactly when the answer arrives and the lease still runs, or nothing is sent and the row is closed. |
| BackgroundSubmit.Service.Send | src/orm_background.rs:1058-1094 | The transport is started on an open row with an uncertain reservation; the end is an accepted row, exactly when answer and binding come in time, or a closed one with the reservation still uncertain. |
| BackgroundSubmit.Service.Submit | src/orm_background.rs:900-1094 | For every placement of failures before or after their effect, delays and webhooks: it succeeds if and only if all fifteen stages succeed, the run stays leased from the row through every heartbeat to the answer, and the answer is exact and within its window; the end is then an accepted, lease-free run. The transport starts at most once per row, only on a prepared row with an uncertain reservation that is never released, and only when every stage before it succeeded. A failure names the first stage that failed, says exactly what was left behind, and blames a failed undoing only when it did fail, for one of the reasons listed. |
| BackgroundSubmitSteps.AcceptEstablishesInv | src/orm_background.rs:1272-1436 | An accepted row satisfies the invariant of the reconciliation protocol. |
| BackgroundSubmitSteps.AwaitKeepsAccepted | src/orm_background.rs:900-1094 | Time and webhooks never disturb an accepted submission. |
| BackgroundSubmitSteps.RunLeaseIsFenced | src/orm_runs.rs:3785-3816 | A run lease renewed since, run out, or of another attempt or owner holds no longer. |
| BackgroundSubmitSteps.PrepareOutcome | src/orm_background.rs:1126-1270 | Preparing needs the lease and an untouched reservation of this attempt, writes an empty row, renews the lease and cannot be done twice. |
| BackgroundSubmitSteps.AcceptOutcome | src/orm_background.rs:1272-1436 | An acknowledgement is bound exactly when it is exact and dated and its window, counted from the earlier of creation and now, is still open; the row then waits with exactly that deadline, due at once, and the run is parked. |
| BackgroundSubmitSteps.CloseAmbiguityOutcome | src/orm_background.rs:1438-1560 | Closing an ambiguity moves an open row and its run to recovery with one outcome for the reason given, under a held lease. |
| BackgroundSubmitSteps.ReconcileOutcome | src/orm_budget.rs:390-560 | A reservation moves once, asking again is answered as before, and an uncertain one is never released. |
| AttachmentService.Service.ClaimUpload | src/orm_attachments.rs:349-428 | Claims the upload under owner, token, ticket time and state checks, clears the token and moves the row, or changes nothing. |
| AttachmentService.Service.Finish | src/orm_attachments.rs:430-460 | Writes a verdict only over the version that was claimed. |
| AttachmentService.Service.Discard | src/orm_attachments.rs:462-535 | Deletes the quarantine object and leaves exactly the row of the rejection or failure it was given, with cleanup still required unless the deletion was confirmed; a row that moved on is left alone. |
| AttachmentService.Service.Promote | src/orm_attachments.rs:2016-2048 | Succeeds if and only if the object is there, copy and deletion are done and the verdict is written over the claimed version; the object is then under the final key only and the row describes it. |
| AttachmentService.Service.Publish | src/orm_attachments.rs:2049-2076 | Publishes the final key over the claimed version, with the row spelled out, or deletes the unpublished object. |
| AttachmentService.Service.Scan | src/orm_attachments.rs:1936-2015 | Succeeds if and only if the scanner saw exactly the stored object and found nothing, the host accepted it, and the promotion goes through; any other report or decision is discarded for its own reason, with the row spelled out. |
| AttachmentService.Service.Upload | src/orm_attachments.rs:1840-2077 | The straight-line upload ends in the state its protocol steps lead to, for all answers; it succeeds if and only if owner, token and ticket are right, nothing is under the quarantine key, size and checksum fit, the scanner saw exactly this object and found nothing, the host accepted it, and every call and commit is done; the object is then under the final key only and the row describes it. |
| AttachmentService.Service.FinalizeUpload | src/orm_attachments.rs:1386-1514 | Releases exactly a ready, clean, fully described row and nothing else. |
| AttachmentService.Service.RemoveAttachment | src/orm_attachments.rs:1516-1687 | The row ends untouched, marked with its references, or deleted with all its named objects gone; no other object is touched; it succeeds exactly when mark, both removals and the close are answered, and which objects are gone is spelled out for every answer. |
| AttachmentService.Cleaner.DeleteIfPresent | src/orm_attachments.rs:1014-1031 | True exactly when absence was observed, whatever the delete call answered; the object goes exactly when it was found and the delete call took effect. |
| AttachmentService.Cleaner.ClaimCleanup | src/orm_attachments.rs:909-1012 | Claims an eligible row with a new generation and lease; a row awaiting retention only when retention is due. |
| AttachmentService.Cleaner.FinishCleanup | src/orm_attachments.rs:1033-1150 | Drops the references and settles the state by the state at claim time, or schedules the next attempt; only over the claimed version. |
| AttachmentService.Cleaner.CleanCandidate | src/orm_attachments.rs:1725-1747 | One candidate is handled as the value of the pass says; counted as cleaned only when every named object is absent, as failed only when references are kept for a retry. |
| AttachmentService.Cleaner.CleanupOnce | src/orm_attachments.rs:1692-1750 | Rows, store and report are those of the pass as a value; every candidate is counted once as deferred, cleaned or failed; only candidate rows change and only objects they name disappear. |
| AttachmentCleaning.CandidateOutcomeExactly | src/orm_attachments.rs:1725-1747 | A row that may be taken is cleaned exactly when the absence of all its objects is observed, and keeps its references for a later attempt otherwise; one that may not be taken is left alone; an error exactly when a commit is not done. |
| AttachmentCleaning.AnsweredPassCleansAll | src/orm_attachments.rs:1692-1750 | A pass over distinct candidates in which every call is answered cleans exactly the rows that may be taken, defers the others, fails none and counts them so; afterwards those rows name nothing and their objects are gone. |
| AttachmentCleaning.DeletionTakesThreeCalls | src/orm_attachments.rs:1014-1031 | Probe, delete and confirm of the interleaved protocol, undisturbed, come to the one deletion of the pass, for all answers. |
| AttachmentCleaning.RemovalTakesTwoCalls | src/orm_attachments.rs:1587-1640 | Probe and delete of a removal in the interleaved protocol, undisturbed, come to the removal the service makes, for all answers. |
| AttachmentService.DrainedKeeps | src/orm_attachments.rs:1840-2077 | Whatever store, scanner, policy and database answer, an undisturbed upload keeps the base invariant, and its record is served with the attested object if and only if the upload has not deleted that object itself. |
| AttachmentInvariant.ActorsKept | src/orm_attachments.rs:430-460 | Stale snapshots stay stale and confirmed deletions stay confirmed under every forward step. |
| AttachmentInvariant.CopyKeeps | src/orm_attachments.rs:2016-2030 | The copy under the new key has the scanned content and is known to the upload alone. |
| AttachmentInvariant.FinishKeeps | src/orm_attachments.rs:2049-2076 | A verdict that is committed makes the record serve exactly the attested object, or nothing. |
| AttachmentInvariant.UploadStepKeeps | src/orm_attachments.rs:1840-2077 | Every upload step keeps the base invariant, and the served object too unless the step deletes it as unpublished. |
| AttachmentInvariant.CleanupStepKeeps | src/orm_attachments.rs:1014-1150 | Every store call and finish of any cleanup worker keeps the base invariant and the served object. |
| AttachmentInvariant.MarkStepKeeps | src/orm_attachments.rs:1551-1586 | Marking a row for deletion takes it out of service and keeps the base invariant and the served object. |
| AttachmentInvariant.RemoveStepKeeps | src/orm_attachments.rs:1587-1687 | Every step of an owner removal keeps the base invariant and the served object. |
| AttachmentInvariant.StepKeeps | src/orm_attachments.rs:349-2077 | Every step of every actor keeps the base invariant, and the served object unless it is that one deletion. |
| AttachmentInvariant.ServedStep | src/orm_attachments.rs:1840-2077 | A served record still names its attested object after a step if and only if the step is not the upload deleting that object as unpublished. |
| AttachmentTheorems.ServedRecordsNameAttestedObjects | src/orm_attachments.rs:1840-2076 | From an issued ticket, over every interleaving with store failures and lost answers: after every step a ready or released record names an existing object of exactly the size and checksum the scanner attested, of the size the ticket was issued for and within the limit, with nothing left in quarantine, if and only if no step is an upload deleting as unpublished the object the record serves. |
| AttachmentTheorems.DroppedKeysAreGone | src/orm_attachments.rs:1014-1150 | Over every such interleaving, without exception, a final key dropped from the record is gone from the store. |
| AttachmentTheorems.EndangeredExactlyByALostAnswer | src/orm_attachments.rs:2049-2076 | The upload comes to take the served object for unpublished if and only if its accepting commit takes effect and the answer is lost. |
| AttachmentTheorems.AcknowledgedRunsAreServed | src/orm_attachments.rs:1840-2076 | From an issued ticket, as long as every accepting commit that takes effect is answered, a ready or released record names its attested object after every step, whatever else fails. |
| AttachmentHistory.ServedWasVouchedFor | src/orm_attachments.rs:1840-2076 | Over every interleaving, without exception: what a ready or released record describes was received, inspected, scanned with exactly that object observed and no finding and accepted by the host, copied, cleared from quarantine and published, by steps of this run in this order. |
| AttachmentHistory.FindingsAreNeverPublished | src/orm_attachments.rs:1936-2015 | When every scan in a run reports a finding or another object, or no decision is to allow, no record is ever ready or released. |
| AttachmentStore.EveryObjectIsAccountedFor | src/orm_attachments.rs:349-2077 | Over every interleaving: an object in the store is named by the record, is still in the hands of the running upload, was there before the ticket, or was left behind by a call of the upload that failed or was not heard of. |
| AttachmentStore.NothingLeaksWithoutFailure | src/orm_attachments.rs:349-2077 | When every store call and commit of the upload is done and the upload is over, the record names every object that was added, however cleanup, removal and finalization interleave and fail. |
| AttachmentRuns.LostAcceptanceDeletesTheServedObject | src/orm_attachments.rs:1840-2076 | For every ticket still valid, a run on which only the answer of the accepting commit is lost ends with a ready record whose object is gone. |
| AttachmentTheorems.AtMostOneUploadClaim | src/orm_attachments.rs:376-428 | However often it is tried, at most one claim of an upload succeeds. |
| AttachmentTheorems.StepIsOneShot | src/orm_attachments.rs:376-428 | A successful claim had the owner, the ticket token, a pending row and an unexpired ticket. |
| AttachmentTheorems.StaleHoldersStayFenced | src/orm_attachments.rs:430-460 | A holder of an older row version never changes the record again. |
| AttachmentTheorems.CleanupLeaseIsExclusive | src/orm_attachments.rs:909-1012 | A cleanup claim excludes every other for exactly its lease. |
| AttachmentOutcomes.ClaimUploadOutcome | src/orm_attachments.rs:349-428 | An upload is claimed exactly by the owner with the token of an unexpired ticket; the row is then safe from cleanup for exactly the processing time. |
| AttachmentOutcomes.VerdictOutcome | src/orm_attachments.rs:430-535 | A verdict is written exactly over the claimed version, and each kind of verdict leaves the row spelled out for it. |
| AttachmentOutcomes.WhenCleanupMayTake | src/orm_attachments.rs:2124-2151 | When a cleanup may take a row of an active session, state by state. |
| AttachmentOutcomes.ClaimCleanupOutcome | src/orm_attachments.rs:909-1012 | A cleanup claim counts generations, takes the token away and leases the row for exactly the lease time. |
| AttachmentOutcomes.CleanedOutcome | src/orm_attachments.rs:1033-1150 | A confirmed cleanup drops all references and settles the row by what it was: an unused ticket has expired, an abandoned upload has failed, a removal is done. |
| AttachmentOutcomes.BackoffOutcome | src/orm_attachments.rs:1050-1115 | A failed cleanup keeps references and state, counts one retry more and waits for exactly the backoff. |
| AttachmentOutcomes.DelayDoubles | src/orm_attachments.rs:2166-2177 | Each backoff is twice the one before, up to an hour. |
| AttachmentOutcomes.FinalizeOutcome | src/orm_attachments.rs:1386-1514 | Finalizing succeeds exactly on a ready, clean, fully described row that is not deleted, and changes state and time alone. |
| AttachmentOutcomes.RemovalOutcome | src/orm_attachments.rs:1516-1687 | A removal marks exactly a row that is not linked, uploading or deleted, and closes it with every reference dropped. |
| AttachmentOutcomes.LinkedStaysForever | src/orm_attachments.rs:349-2077 | A released attachment that is linked stays exactly as it is over every run, and so does its object, unless its own upload still takes it for unpublished. |
| AttachmentTheorems.FailedCleanupIsRetriedExactlyWhen | src/orm_attachments.rs:1050-1115 | A failed cleanup keeps its references and is claimed again if and only if its backoff is over and, for a row being deleted, session retention is due. |
| AttachmentTheorems.RemovalIsStrandedAfterOneFailedCleanup | src/orm_session_retention.rs:4039-4045 | After an owner removal and one failed or abandoned cleanup attempt no cleanup of an active session claims the row at any time, although its backoff is over; the owner can mark it again. |
| AttachmentTheorems.StrandedForever | src/orm_attachments.rs:930-943 | Such a row stays as it is over every run without an owner retry or due retention. |
| AttachmentRuns.RemovalEndsStranded | src/orm_attachments.rs:1516-1750 | From every consistent state with a ready, unlinked attachment, an owner removal whose first store call fails followed by one cleanup whose probe fails ends in such a row, with the object still in the store. |
| AgentLoopGuard.LoopGuard.Resume | src/agent_loop.rs:459-491 | Succeeds if and only if both counters are positive and within the limits and the reference is valid, and otherwise answers Conflict; the new guard takes over counters and reference and nothing else. |
| AgentLoopGuard.LoopGuard.AllDistinct | src/agent_loop.rs:549-554 | Decides whether a call identifier occurs twice. |
| AgentLoopGuard.LoopGuard.ObserveTurn | src/agent_loop.rs:514-574 | Accepts exactly the next chained turn under the limits and queues its calls in order, or changes nothing. |
| AgentLoopGuard.LoopGuard.ObserveResult | src/agent_loop.rs:584-612 | Stores the first matching output; the manifest is asked for after the output is stored. |
| AgentLoopGuard.LoopGuard.Continue | src/agent_loop.rs:620-648 | Hands out outputs and manifests in call order and clears the batch, or changes nothing; no lookup behind the length checks can fail. |
| AgentLoopRounds.TurnAcceptedExactly | src/agent_loop.rs:514-574 | A turn is accepted if and only if it is the next of this claim and chain, within the limits, with distinct calls and material to continue from. |
| AgentLoopRounds.ResultOutcome | src/agent_loop.rs:584-612 | A result is taken exactly when it is the first for a pending call, comes from the right tool with model input and brings its manifest; without input or manifest it is denied, otherwise it is a conflict. |
| AgentLoopRounds.RoundContinuesTheTurn | src/agent_loop.rs:514-648 | A whole round: the next turn chains to the accepted one, replays exactly its transfers when the conversation is stateless and nothing otherwise, and lists for every call, in order, its own result and manifest. |
| AgentLoopRounds.TurnsFormOneChain | src/agent_loop.rs:514-648 | Over any run an accepted turn belongs to this claim and refers to the last continuation handed out. |
| AgentLoopSteps.CompleteBatchCoversEveryCall | src/agent_loop.rs:620-640 | When the lengths agree every pending call has an output and a manifest, so the inner conflict exits are unreachable. |
| AgentLoopSteps.ObserveTurnKeeps | src/agent_loop.rs:514-574 | Accepting a turn keeps the guard invariant. |
| AgentLoopSteps.ContinueKeeps | src/agent_loop.rs:620-648 | Continuing keeps the guard invariant. |
| AgentLoopTheorems.FeedCollectsFirstAnswers | src/agent_loop.rs:584-612 | After any sequence of results the output of each pending call is that of its first answer, and its manifest is collected exactly when that answer carries one. |
| AgentLoopTheorems.ContinuationListsFirstAnswers | src/agent_loop.rs:620-648 | The batch is complete if and only if the first answer of every pending call is there and carries a manifest, and the continuation lists the first answers in the provider order. |
| AgentLoopTheorems.OrderOfResultsDoesNotMatter | src/agent_loop.rs:584-648 | Any two orders of the same unambiguous results, with or without manifests, lead to the same state and the same continuation. |
| AgentLoopTheorems.RunsStayWithinTheLimits | src/agent_loop.rs:514-574 | Over any run the counters equal the accepted turns and calls and stay within the limits. |
| AgentLoopTheorems.NothingFollowsATerminalTurn | src/agent_loop.rs:536-541 | After the terminal turn everything is refused and nothing changes. |
| AgentLoopTheorems.ResultWedgesExactlyWhen | src/agent_loop.rs:602-610 | A result wedges its call if and only if it answers the call without a manifest. |
| AgentLoopTheorems.WedgedForever | src/agent_loop.rs:602-648 | A wedged guard never accepts a turn or yields a continuation again. |
| TranscriptParser.StatelessEvidence | src/agent_loop.rs:244-381 | The queue-driven loops compute exactly the specified parse, or Conflict. |
| TranscriptParser.QueueCalls | src/agent_loop.rs:287-303 | Queues the calls of a turn exactly when all are valid and no identifier was used before. |
| TranscriptParser.TakeMessage | src/agent_loop.rs:268-338 | One message moves counters, queue, evidence and identifiers as the parser step says, or is refused. |
| TranscriptParser.FinishInput | src/agent_loop.rs:340-381 | Pairs the input with exactly the waiting calls, or refuses. |
| Transcript.ParserAcceptsTranscripts | src/agent_loop.rs:264-338 | The parser accepts every well-formed beginning of a transcript, with the state that belongs to it. |
| Transcript.ParserOnlyAcceptsTranscripts | src/agent_loop.rs:264-338 | Whatever the parser accepts is the rendering of a well-formed beginning of a transcript. |
| Transcript.TranscriptsYieldTheirPairing | src/agent_loop.rs:340-381 | A split transcript yields the in-order pairing of all its calls with their results. |
| Transcript.AcceptedIsATranscript | src/agent_loop.rs:244-381 | From any accepted input a transcript can be read back of which the messages and the input are the two parts. |
| Transcript.AcceptsExactlySplitTranscripts | src/agent_loop.rs:244-381 | Accepted if and only if within the limits and the messages followed by the input form User (Assistant, its results in order)+ with unique call identifiers, the input being a nonempty end of the last batch. |
| Transcript.HistoricalEvidenceIsWhatWasRecorded | src/agent_loop.rs:206-215 | The evidence has one historical entry per recorded result and one current entry per input block. |
| Checkpoint.CheckpointRestoresExactly | src/agent_loop.rs:123-217 | The JSON of any continuation can be read, restores that continuation and no other, and is refused exactly when its inputs or its transcript do not check out. |
| Checkpoint.AcceptedExactlyWhen | src/agent_loop.rs:123-217 | A snapshot is accepted if and only if its inputs are valid results in the order of its evidence, its replay is valid, and a stateless one parses with as much evidence as it carries. |
| Checkpoint.CheckpointRoundTrip | src/agent_loop.rs:123-217 | Whatever any JSON value restores, of either version and whatever it leaves out, is restored unchanged from its own checkpoint. |
| Checkpoint.ReplayRoundTrip | src/provider.rs:168-266 | Encoding and decoding a continuation with its instructions, messages, blocks and calls gives it back. |
| Checkpoint.EvidenceCountsNeverDisagree | src/agent_loop.rs:176-215 | A stateless checkpoint is accepted exactly under the earlier checks and a successful parse: the final count comparison never decides. |
| Utf8.BoundarySplits | src/live_delta.rs:425-434 | Cutting a valid string at a character boundary leaves two valid strings (section 3 of RFC 3629). |
| Utf8.OnlyBoundariesSplit | src/live_delta.rs:425-434 | Cutting anywhere else does not. |
| Utf8.BoundaryIsNear | src/live_delta.rs:425-434 | A boundary is never more than three octets back. |
| Utf8.ConcatIsValid | src/live_delta.rs:326 | Appending valid text keeps the buffer valid. |
| Utf8.PrefixLength | src/live_delta.rs:425-434 | Returns the longest prefix of whole characters within the limit, at most three octets short of it. |
| LiveDelta.Coalescer.constructor | src/live_delta.rs:251-259 | A new coalescer has accepted, emitted and buffered nothing. |
| LiveDelta.Coalescer.MakeBatch | src/live_delta.rs:404-422 | Numbers a batch with the next sequence number and fails only at the last one. |
| LiveDelta.Coalescer.FlushDue | src/live_delta.rs:343-367 | Emits exactly what has waited for the maximum delay and nothing younger; nothing that old is left. |
| LiveDelta.Coalescer.FlushAll | src/live_delta.rs:375-388 | Emits everything: the batches then spell the whole input. |
| LiveDelta.Coalescer.FlushOther | src/live_delta.rs:291-306 | A change of kind emits what waits of the other kind. |
| LiveDelta.Coalescer.FillOnce | src/live_delta.rs:310-331 | One round of the loop moves whole characters without losing a letter and makes progress. |
| LiveDelta.Coalescer.Fill | src/live_delta.rs:309-333 | Terminates for every fragment, emits only batches at most three octets below the ceiling and leaves less than the ceiling. |
| LiveDelta.Coalescer.PushEvent | src/live_delta.rs:272-334 | Keeps: batches in sequence order followed by the buffer spell exactly the input, one kind waits at most, numbers are 0, 1, 2, ..., every batch is a nonempty whole-character string within the ceiling, the age of waiting text is that of its first fragment and below the maximum delay; fails only at the end of the numbers. |
| HarnessEvents.BodyRuns | src/local_harness.rs:792-858 | The automaton accepts an opening and a body exactly when the body is disciplined, and its map is the history of the calls. |
| HarnessEvents.AcceptedHasShape | src/local_harness.rs:792-862 | Everything accepted is the beginning of a complete trace. |
| HarnessEvents.AcceptsExactlyCompleteTraces | src/local_harness.rs:792-862 | A trace is accepted and complete if and only if it is ResponseStarted, a disciplined body whose calls are all completed, one in-bounds usage, ResponseCompleted. |
| HarnessEvents.EveryCallIsOneBlock | src/local_harness.rs:806-834 | In a complete trace every call starts once and completes once, with all its deltas in between. |
| HarnessFraming.DrainInTwo | src/local_harness.rs:703-741 | Draining what has arrived first makes no difference when it succeeds. |
| HarnessFraming.DrainPrefix | src/local_harness.rs:703-741 | When every line fits, a prefix of an accepted stream is accepted. |
| HarnessFraming.ChunkContinuesTheReference | src/local_harness.rs:693-741 | One more chunk continues the one-piece reference exactly. |
| HarnessFraming.AcceptedChunksAreTheWhole | src/local_harness.rs:684-762 | However stdout is cut and stderr mixed in, what is accepted is what the reference accepts. |
| HarnessFraming.ChunkingDoesNotMatter | src/local_harness.rs:684-762 | For a stdout whose every line fits with its carriage return, any two deliveries end alike at a given exit and yield the same events. |
| HarnessFraming.ChunkingMattersExactlyWhenALineIsTooLong | src/local_harness.rs:703-726 | A stdout accepted in one piece is accepted in all pieces if and only if every line fits with its carriage return. |
| HarnessFraming.CarriageReturnDecides | src/local_harness.rs:703-726 | Concrete witness: a frame of exactly the limit closed by carriage return and newline is accepted in one piece and rejected when the newline comes later. |
| HarnessTraces.WholeReadsExactly | src/local_harness.rs:702-741 | With the splitting of the output at newlines defined on its own: the output is accepted in one piece if and only if it is within the limits, every line decodes and the events are a run of the automaton; the events are then those of the lines, in order. |
| HarnessTraces.AcceptedEventsAreTheLines | src/local_harness.rs:684-741 | For any accepted delivery the events are the in-order decoding of the complete lines of stdout, and their run leads to the state reached. |
| HarnessTraces.SuccessIsACompleteTrace | src/local_harness.rs:684-762 | A successful exit means whole lines and nothing else, with events that form a complete trace. |
| HarnessTraces.FittingOutputSucceedsExactly | src/local_harness.rs:684-762 | When every line fits, a delivery ends well if and only if its exit is a success, the output ends with a newline and the lines decode to a complete trace within the limits, whatever the cuts. |
| HarnessProcess.HarnessEventState.Accept | src/local_harness.rs:792-858 | Mutates its flags and call map exactly as the automaton step says. |
| HarnessProcess.ProcessStream.TakeLine | src/local_harness.rs:711-739 | Strips the line end, counts, checks and decodes one frame and hands on its event; that events are the lines in order is stated in ReadToExit and in HarnessTraces. |
| HarnessProcess.ProcessStream.DrainLines | src/local_harness.rs:702-741 | Takes every complete line out of the buffer, with the result of the recursive specification. |
| HarnessProcess.ProcessStream.OnStdout | src/local_harness.rs:693-741 | Accounts for a chunk and drains it. |
| HarnessProcess.ProcessStream.OnStderr | src/local_harness.rs:746-752 | Counts discarded bytes against their own limit. |
| HarnessProcess.ProcessStream.ReadToExit | src/local_harness.rs:684-762 | Accepts exactly a successful exit with an empty buffer and a complete state; the events it returns are the decoded lines of stdout in order and form a complete trace. |
| CredentialSaga.UpsertKeeps | src/orm_configuration.rs:293-407 | Reconfiguring a profile keeps the invariant: a profile with a credential never becomes a local harness. |
| CredentialSaga.PutKeeps | src/orm_configuration.rs:433-437 | Storing a secret, with any failure, accounts for it. |
| CredentialSaga.CommitSetKeeps | src/orm_configuration.rs:449-514 | Committing a new reference, heard of or not, records the displaced one in the same step. |
| CredentialSaga.CompensateKeeps | src/orm_configuration.rs:515-520 | Compensation deletes its secret or leaves it as a known orphan; references in use stay live exactly when it deletes nothing or nothing in use. |
| CredentialSaga.CommitRemoveKeeps | src/orm_configuration.rs:551-615 | Removing records the displaced reference in the same step. |
| CredentialSaga.DeletePreviousKeeps | src/orm_configuration.rs:156-172 | Deleting a displaced secret never touches one in use. |
| CredentialSaga.CompleteRowKeeps | src/orm_configuration.rs:160-171 | A cleanup row is completed only when its secret is gone. |
| CredentialSaga.StepKeeps | src/orm_configuration.rs:293-620 | Every step of every running call keeps the base invariant; the references in use stay live if and only if the step is not a compensation deleting one of them. |
| CredentialSaga.CredentialsStayConsistent | src/orm_configuration.rs:156-620 | Over every interleaving, without exception: references in profiles are unshared and not displaced, a local harness has none, every displaced reference has exactly one cleanup row, a completed row means the secret is gone, and any live secret in no profile and no row is held by a running call or a known orphan; what becomes of displaced ones is CredentialCleanup.DisplacedSecretsAreFollowedUp. |
| CredentialSaga.ReferencesAreLiveExactlyWithoutSuchADeletion | src/orm_configuration.rs:409-620 | Over every interleaving every reference in a profile is live after every step if and only if no compensation on the way deletes one that is in use. |
| CredentialSaga.EndangeredExactlyByALostAnswer | src/orm_configuration.rs:449-521 | A compensation comes to threaten a reference in use if and only if the commit of a new reference takes effect and its answer is lost. |
| CredentialSaga.AcknowledgedRunsStayLive | src/orm_configuration.rs:409-526 | From the empty state, as long as every commit of a new reference that takes effect is answered, every reference in a profile is live after every step, whatever else fails. |
| CredentialSaga.LostAnswerDeletesTheCredential | src/orm_configuration.rs:409-526 | From the empty state, a run of one insertion and one set on which only the answer of the commit is lost ends with a profile whose secret is deleted. |
| CredentialCleanup.DisplacedSecretsAreFollowedUp | src/orm_configuration.rs:156-620 | Over every interleaving: a displaced secret that still lives is about to be deleted by a running call, or was left by a commit that was not heard of or a deletion that was refused; and a cleanup row that is still open is being completed or was left open by such a failure. |
| CredentialCleanup.AnsweredRunsEndExact | src/orm_configuration.rs:156-620 | When every answer of store and database arrives and all calls are over, the store holds exactly the secrets the profiles refer to and every cleanup row is complete. |
| CredentialCleanup.PutOutcome | src/orm_configuration.rs:409-448 | A put stores its secret unless refused, and a secret whose storing was not heard of is an orphan at once. |
| CredentialService.Service.CommitReference | src/orm_configuration.rs:449-514 | Swaps the reference under the version it was read at and inserts the cleanup row of what it displaced. |
| CredentialService.Service.CompleteCleanup | src/orm_configuration.rs:156-172 | Deletes the displaced secret and then closes its row, exactly when the deletion was done. |
| CredentialService.Service.SetProviderCredential | src/orm_configuration.rs:409-526 | Ends in the state its protocol steps lead to, for all answers of store and database, and succeeds if and only if the secret is stored and the commit is done; the profile then holds the new reference and the displaced one is cleaned up: gone from the store once its deletion took effect, its row complete once that was recorded. |
| CredentialService.Service.RemoveProviderCredential | src/orm_configuration.rs:528-620 | Ends in the state its protocol steps lead to and succeeds exactly when the commit is done; the profile then holds no reference and the displaced one is cleaned up in the same way. |
| CredentialService.Service.UpsertProviderProfile | src/orm_configuration.rs:293-407 | Inserts a profile without a credential, or rewrites one read at this version and keeps its reference; refused exactly when the kind changes under a credential, the version differs or the commit fails. |
| Disclosure.EvaluatesExactly | src/disclosure.rs:252-312 | For every schema, validated or not: accepted if and only if the value conforms, visits only exportable nodes and is not too deep, and then the exact highest class and the saturated node count are reported. |
| Disclosure.ValidatedIsShallow | src/disclosure.rs:103-138 | In a validated schema the nodes of a conforming value never lie too deep. |
| Disclosure.SchemasEvaluateExactly | src/disclosure.rs:159-187 | For schemas built by the constructor the depth guard never decides: accepted if and only if conforming and exportable throughout. |
| Disclosure.PeakIsTheMaximum | src/disclosure.rs:314-318 | The reported class is reached by a visited node and exceeded by none. |
| Disclosure.ListsAreBounded | src/disclosure.rs:201-213 | No list anywhere in an accepted value is longer than the bound the schema announces. |
| Disclosure.NewSchemaExactlyWhen | src/disclosure.rs:103-138 | A schema is built if and only if every part of it is within the limits and well named; otherwise the error is that of a part that is not. |
| Disclosure.BoundIsTheLargest | src/disclosure.rs:201-213 | The announced bound is that of some list in the schema and the largest of all. |
| Disclosure.ErrorsHaveTheirFault | src/disclosure.rs:252-312 | Each way of refusing a value is reported only for a value with that very fault. |
| Disclosure.EvaluateNode | src/disclosure.rs:252-321 | The accumulating loops compute exactly the recursive evaluation. |

## Left out

- Identity and syntax of rows: identifiers, digests, scope, profile and model strings are collapsed into one binding per submission; their equality checks are kept, the checks of their form are not.
- Rows that carry no decision: audit events, messages, session events, inbox deliveries, run and queue counters, and heartbeat columns are not part of the state.
- Retries of serialization failures, pagination and candidate scans: a transaction is one atomic step, and the queue holds one submission.
- Takeover of a run by another worker during a submission, and cancellation of runs: a lapsed run lease only makes the submission's own transactions fail.
- Receipts of other responses, and the signature check of a webhook: an event arrives verified or not at all.
- BackgroundStore.Store.CommitBudget: does not model the counters of the budget scopes that the same transaction moves, because they are shared with other runs; a counter that is missing or would overflow aborts the commit there.
- Pricing: the settled amounts are an arbitrary answer; their agreement with the observed usage is checked as in the code.
- 64-bit overflow of timestamps and counters outside the acknowledgement deadline, the settled amounts, the delta sequence numbers and the harness counters.
- Principal rehydration, access, egress, protection, MFA, scanner and acceptance policies: arbitrary answers.
- Hashing and JSON: hashes are compared as values, and the decoder of harness frames is an arbitrary partial function; arguments, outputs and egress manifests inside a checkpoint are opaque JSON values, and an attachment block's identifier, type, size and checksum are one reference.
- Whitespace beyond ASCII in the blank checks of identifiers.
- Attachment retention, derived artifacts, provider files, MIME types, file names and policy versions; the answer of session state and retention policy is one Boolean, false for an active session.
- Several attachments in one protocol state: keys are distinct, so the protocol follows one record, while the cleanup pass works on many.
- The content of a stateless conversation inside the loop guard, and how the next continuation is built: its chain reference is an arbitrary function that may fail.
- `AiAgentContinuation::from_persisted_results`, limit constructors, getters and error texts: they would only add easy members.
- Timeouts and the stopping of a harness process: an early refusal ends the run without a verdict on the rest.
- A stored credential reference that no longer parses: the store only hands out references that do.
- The fingerprint of a disclosure schema, and tightening by a runtime minimum.
- Approvals, budgets, egress, execution and access services: their own state machines are not part of this model.
