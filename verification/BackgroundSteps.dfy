/** One function per transaction: what the transaction leaves behind when it commits. A transaction
    that fails any check is rolled back as a whole (`Aborted`). Row versions are compared and bumped
    by every update of the submission and run rows. */
module BackgroundSteps {
  import opened Wrappers
  import opened BackgroundRows

  datatype Tx<+T> = Done(db: Db, value: T) | Aborted

  /** The database after the transaction, committed or rolled back. */
  function After<T>(tx: Tx<T>, before: Db): Db {
    if tx.Done? then tx.db else before
  }

  function Returned<T>(tx: Tx<T>): Option<T> {
    if tx.Done? then Some(tx.value) else None
  }

  // ---------------------------------------------------------------------------------------------
  // Receipts
  // ---------------------------------------------------------------------------------------------

  predicate SameButReceipts(a: Db, b: Db) { a == b.(receipts := a.receipts) }

  /** Keeps the receipt already matched, or matches the oldest pending one. */
  function MatchReceipt(db: Db, s: Submission): (tx: Tx<Option<Receipt>>)
    ensures tx.Done? ==> SameButReceipts(tx.db, db)
  {
    if s.responseId.None? then Aborted
    else if Count(s.responseId, IsMatched, db.receipts) > 1 then Aborted
    else
      var matched := First(s.responseId, IsMatched, db.receipts);
      if matched < |db.receipts| then
        if ValidReceipt(db.receipts[matched], MatchedPending, true)
        then Done(db, Some(db.receipts[matched])) else Aborted
      else
        var pending := First(s.responseId, IsPending, db.receipts);
        if pending == |db.receipts| then Done(db, None)
        else if !ValidReceipt(db.receipts[pending], PendingReconciliation, false) then Aborted
        else
          var receipt := db.receipts[pending].(state := MatchedPending, bound := true);
          Done(db.(receipts := db.receipts[pending := receipt]), Some(receipt))
  }

  /** Rewrites the single matched receipt; nothing happens when there is none. */
  function FinishMatched(db: Db, s: Submission, state: ReceiptState, reason: Option<ReasonCode>): (tx: Tx<()>)
    ensures tx.Done? ==> SameButReceipts(tx.db, db)
  {
    if s.responseId.None? || Count(s.responseId, IsMatched, db.receipts) > 1 then Aborted
    else
      var i := First(s.responseId, IsMatched, db.receipts);
      if i == |db.receipts| then Done(db, ())
      else if !ValidReceipt(db.receipts[i], MatchedPending, true) then Aborted
      else
        var receipt := db.receipts[i].(state := state, reason := reason, processedAt := Some(db.now));
        Done(db.(receipts := db.receipts[i := receipt]), ())
  }

  function CloseDuplicate(id: Option<string>, status: ProviderStatus, now: int, r: Receipt): Receipt {
    if !IsPending(id, r) then r
    else if r.kind == status then r.(bound := true, state := DuplicateTerminal, reason := None, processedAt := Some(now))
    else r.(bound := true, state := ReceiptRecoveryRequired, reason := Some(TerminalReceiptConflict),
            processedAt := Some(now))
  }

  function CloseDuplicates(id: Option<string>, status: ProviderStatus, now: int, rs: seq<Receipt>): (closed: seq<Receipt>)
    ensures |closed| == |rs|
  {
    seq(|rs|, i requires 0 <= i < |rs| => CloseDuplicate(id, status, now, rs[i]))
  }

  predicate DuplicatesCloseable(id: Option<string>, rs: seq<Receipt>) {
    && Count(id, IsPending, rs) <= MAXIMUM_DUPLICATE_RECEIPTS
    && forall i :: 0 <= i < |rs| && IsPending(id, rs[i]) ==> ValidReceipt(rs[i], PendingReconciliation, false)
  }

  // ---------------------------------------------------------------------------------------------
  // Recovery
  // ---------------------------------------------------------------------------------------------

  function RecoveredRow(s: Submission, reason: ReasonCode): Submission {
    s.(state := RecoveryRequired, reason := Some(reason), owner := None, leaseExpiresAt := None,
       nextAttemptAt := None, version := s.version + 1)
  }

  /** `close_background_recovery`: submission, run, outcome and matched receipt leave together; the
      uncertain budget stays. */
  function CloseRecovery(db: Db, s: Submission, reason: ReasonCode): (tx: Tx<()>)
    ensures tx.Done? ==> tx.db.now == db.now
  {
    if !Parked(db.run, s) || s.reconciledAt.Some? || s.terminalMessage.Some? || db.outcomes != [] then Aborted
    else
      FinishMatched(
        db.(submission := Some(RecoveredRow(s, reason)),
            run := db.run.(state := RunRecoveryRequired, reason := Some(reason), version := db.run.version + 1),
            outcomes := [Outcome(RunRecoveryRequired, reason, s.responseId, db.now)]),
        s, ReceiptRecoveryRequired, Some(reason))
  }

  // ---------------------------------------------------------------------------------------------
  // Claims
  // ---------------------------------------------------------------------------------------------

  predicate IsLive(s: Submission) { s.state.WaitingProvider? || s.state.Reconciling? }

  /** The candidate query of `claim_once`. */
  predicate Claimable(db: Db) {
    && db.submission.Some? && IsLive(db.submission.value)
    && db.submission.value.nextAttemptAt.Some? && db.submission.value.nextAttemptAt.value <= db.now
    && db.submission.value.deadline.Some? && db.now < db.submission.value.deadline.value
  }

  /** The candidate query of `close_expired_once`. */
  predicate Expired(db: Db) {
    && db.submission.Some? && IsLive(db.submission.value)
    && db.submission.value.deadline.Some? && db.submission.value.deadline.value <= db.now
  }

  function ClaimOf(s: Submission): Claim
    requires s.owner.Some? && s.leaseExpiresAt.Some? && s.deadline.Some?
  {
    Claim(s.binding, s.providerStore, s.responseId, s.providerCreatedAt, s.owner.value, s.generation,
          s.leaseExpiresAt.value, s.version, s.retryCount, s.deadline.value, s.retrievalEgress)
  }

  function ClaimedRow(s: Submission, worker: string, expiry: int): Submission {
    s.(state := Reconciling, owner := Some(worker), generation := s.generation + 1,
       leaseExpiresAt := Some(expiry), nextAttemptAt := Some(expiry), retrievalEgress := None,
       version := s.version + 1)
  }

  function ClaimOnce(c: Config, db: Db, worker: string): (tx: Tx<Option<Claim>>)
    ensures tx.Done? ==> tx.db.now == db.now
  {
    if !c.validWorker(worker) || db.now > I32_MAX then Aborted
    else if !Claimable(db) then Done(db, None)
    else
      var s := db.submission.value;
      if !ValidClaimable(c, s, db.now) || !ClaimGraph(db, s) then Aborted
      else
        var expiry := Min(db.now + c.leaseTtl, s.deadline.value);
        var claimed := ClaimedRow(s, worker, expiry);
        if expiry <= db.now || !ValidActive(claimed, worker, claimed.generation, None, db.now) then Aborted
        else
          var matched := MatchReceipt(db.(submission := Some(claimed)), claimed);
          if matched.Aborted? then Aborted else Done(matched.db, Some(ClaimOf(claimed)))
  }

  predicate Current(db: Db, claim: Claim) {
    db.submission.Some? && ValidCurrentClaim(db.submission.value, claim, db.now)
  }

  function HeartbeatOnce(c: Config, db: Db, claim: Claim): (tx: Tx<Claim>)
    ensures tx.Done? ==> tx.db.now == db.now
  {
    if !Current(db, claim) then Aborted
    else
      var s := db.submission.value;
      var expiry := Min(db.now + c.leaseTtl, claim.deadline);
      var renewed := s.(leaseExpiresAt := Some(expiry), nextAttemptAt := Some(expiry), version := s.version + 1);
      if expiry <= db.now || !ValidActive(renewed, claim.worker, claim.generation, None, db.now) then Aborted
      else Done(db.(submission := Some(renewed)), claim.(leaseExpiresAt := expiry, version := renewed.version))
  }

  function BindRetrievalEgress(db: Db, claim: Claim, decision: nat): (tx: Tx<Claim>)
    ensures tx.Done? ==> tx.db.now == db.now
  {
    if !Current(db, claim) || claim.retrievalEgress.Some? || !ClaimGraph(db, db.submission.value) then Aborted
    else
      var s := db.submission.value;
      var marked := s.(retrievalEgress := Some(decision), version := s.version + 1);
      if !ValidActive(marked, claim.worker, claim.generation, Some(decision), db.now) then Aborted
      else
        Done(db.(submission := Some(marked)),
                  claim.(retrievalEgress := Some(decision), version := marked.version))
  }

  function CloseExpiredOnce(c: Config, db: Db): (tx: Tx<nat>)
    ensures tx.Done? ==> tx.db.now == db.now
  {
    if db.now > I32_MAX then Aborted
    else if !Expired(db) then Done(db, 0)
    else
      var s := db.submission.value;
      if !ValidExpired(c, s, db.now) || !ClaimGraph(db, s) then Aborted
      else
        var closed := CloseRecovery(db, s, DeadlineExpired);
        if closed.Aborted? then Aborted else Done(closed.db, 1)
  }

  // ---------------------------------------------------------------------------------------------
  // Releases
  // ---------------------------------------------------------------------------------------------

  function ReleasedRow(s: Submission, eligibleAt: int, status: Option<ProviderStatus>, clearMarker: bool): Submission {
    s.(state := WaitingProvider,
       providerStatus := if status.Some? then status else s.providerStatus,
       owner := None, leaseExpiresAt := None, nextAttemptAt := Some(eligibleAt),
       retryCount := s.retryCount + 1,
       retrievalEgress := if clearMarker then None else s.retrievalEgress,
       version := s.version + 1)
  }

  /** The common tail of the three releases: close when retries or time run out, else requeue. */
  function Release(c: Config, db: Db, claim: Claim, eligibleAt: int, status: Option<ProviderStatus>,
                   clearMarker: bool): (tx: Tx<()>)
    requires db.submission.Some?
    ensures tx.Done? ==> tx.db.now == db.now
  {
    var s := db.submission.value;
    if s.retryCount + 1 > c.maximumRetries || claim.deadline <= eligibleAt then
      if !ClaimGraph(db, s) then Aborted
      else CloseRecovery(db, s, if s.retryCount + 1 > c.maximumRetries then RetryExhausted else DeadlineExhausted)
    else
      var released := ReleasedRow(s, eligibleAt, status, clearMarker);
      if !ValidReleased(released, claim.generation, s.retryCount + 1, eligibleAt) then Aborted
      else Done(db.(submission := Some(released)), ())
  }

  /** The retrieval marker is left as it is here, which the final check then refuses when it is set. */
  function ReleaseBeforeRetrieval(c: Config, db: Db, claim: Claim, delay: int): (tx: Tx<()>)
    ensures tx.Done? ==> tx.db.now == db.now
  {
    if delay < 1 || c.maximumRetryDelay < delay || !Current(db, claim) then Aborted
    else Release(c, db, claim, db.now + delay, None, false)
  }

  function ReleaseNonterminal(c: Config, db: Db, observation: Observation): (tx: Tx<()>)
    requires c.Valid()
    ensures tx.Done? ==> tx.db.now == db.now
  {
    if observation.status.IsTerminal() || !Current(db, observation.claim)
       || db.submission.value.retrievalEgress.None? || observation.claim.retryCount < 0
    then Aborted
    else
      Release(c, db, observation.claim,
              db.now + RetryDelay(observation.claim.retryCount, c.maximumRetryDelay),
              Some(observation.status), true)
  }

  /** `detail` names the classified provider error; `retryable` its disposition. */
  function HandleRetrievalFailure(c: Config, db: Db, claim: Claim, retryable: bool, detail: string): (tx: Tx<()>)
    requires c.Valid()
    ensures tx.Done? ==> tx.db.now == db.now
  {
    if !Current(db, claim) || db.submission.value.retrievalEgress.None? || claim.retryCount < 0 then Aborted
    else if !retryable then
      if !ClaimGraph(db, db.submission.value) then Aborted
      else CloseRecovery(db, db.submission.value, RetrievalFailed(detail))
    else
      Release(c, db, claim, db.now + RetryDelay(claim.retryCount, c.maximumRetryDelay), None, true)
  }

  // ---------------------------------------------------------------------------------------------
  // Terminal commit
  // ---------------------------------------------------------------------------------------------

  datatype TerminalOutcome =
    TerminalCompleted(messageId: string) | TerminalFailed | TerminalCancelled | TerminalRecovery | AlreadyReconciled

  function TerminalStates(status: ProviderStatus): (RunState, SubmissionState)
    requires status.IsTerminal()
  {
    match status
    case ResponseCompleted => (RunCompleted, Completed)
    case ResponseFailed => (RunFailed, Failed)
    case ResponseIncomplete => (RunFailed, Failed)
    case ResponseCancelled => (RunCancelled, Cancelled)
  }

  function TerminalReason(status: ProviderStatus): Option<ReasonCode> {
    if status == ResponseCompleted then None else Some(ProviderOutcome(status))
  }

  function TerminalMessage(binding: Binding, status: ProviderStatus): Option<string> {
    if status == ResponseCompleted then Some("assistant-message/" + binding.identity) else None
  }

  function TerminalResult(binding: Binding, status: ProviderStatus): TerminalOutcome
    requires status.IsTerminal()
  {
    match status
    case ResponseCompleted => TerminalCompleted("assistant-message/" + binding.identity)
    case ResponseFailed => TerminalFailed
    case ResponseIncomplete => TerminalFailed
    case ResponseCancelled => TerminalCancelled
  }

  predicate Storable(a: Settlement) {
    && a.amounts.inputTokens <= I64_MAX && a.amounts.outputTokens <= I64_MAX
    && a.amounts.toolUnits <= I64_MAX && a.amounts.imageUnits <= I64_MAX
    && a.amounts.costMicrounits <= I64_MAX && a.amounts.runs <= I64_MAX
    && a.cachedInputTokens <= I64_MAX
  }

  /** `commit_uncertain_background_budget`; a reservation always covers exactly one run. */
  function CommitBudget(db: Db, actual: Settlement): (tx: Tx<()>)
    ensures tx.Done? ==> tx.db.now == db.now
  {
    if db.budget.None? || db.budget.value.state != Uncertain || db.budget.value.reconciledAt.None?
       || actual.amounts.runs != 1 || actual.cachedInputTokens > actual.amounts.inputTokens || !Storable(actual)
    then Aborted
    else
      Done(db.(budget := Some(db.budget.value.(state := Committed, actual := Some(actual),
                                                    reconciledAt := Some(db.now))),
                    usageEntries := db.usageEntries + [actual]), ())
  }

  function TerminalRow(s: Submission, status: ProviderStatus, now: int): Submission
    requires status.IsTerminal()
  {
    s.(providerStatus := Some(status), state := TerminalStates(status).1, reason := TerminalReason(status),
       owner := None, leaseExpiresAt := None, nextAttemptAt := None, reconciledAt := Some(now),
       terminalMessage := TerminalMessage(s.binding, status), version := s.version + 1)
  }

  /** Run and submission after the verdict, with receipts and outcome still to come. */
  function TerminalRows(db: Db, s: Submission, status: ProviderStatus): Db
    requires status.IsTerminal()
  {
    db.(submission := Some(TerminalRow(s, status, db.now)),
        run := db.run.(state := TerminalStates(status).0, reason := TerminalReason(status),
                       checkpoint := TerminalMessage(s.binding, status), version := db.run.version + 1))
  }

  /** Processes the matched receipt and closes the ones still pending. */
  function SettleReceipts(db: Db, s: Submission, matched: bool, status: ProviderStatus): (tx: Tx<()>)
    ensures tx.Done? ==> SameButReceipts(tx.db, db)
  {
    var processed := if matched then FinishMatched(db, s, Processed, None) else Done(db, ());
    if processed.Aborted? || !DuplicatesCloseable(s.responseId, processed.db.receipts) then Aborted
    else Done(processed.db.(receipts := CloseDuplicates(s.responseId, status, db.now, processed.db.receipts)), ())
  }

  /** `commit_background_terminal_graph`. */
  function CommitGraph(db: Db, s: Submission, matched: bool, status: ProviderStatus): (tx: Tx<TerminalOutcome>)
    requires status.IsTerminal()
    ensures tx.Done? ==> tx.db.now == db.now
  {
    if !Parked(db.run, s) || db.run.checkpoint.Some? || db.outcomes != [] then Aborted
    else
      var settled := SettleReceipts(TerminalRows(db, s, status), s, matched, status);
      if settled.Aborted? then Aborted
      else
        Done(settled.db.(
               outcomes := [Outcome(TerminalStates(status).0, ProviderOutcome(status), s.responseId, db.now)]),
             TerminalResult(s.binding, status))
  }

  function CommitOnce(db: Db, observation: Observation, actual: Settlement): (tx: Tx<TerminalOutcome>)
    requires observation.status.IsTerminal()
    ensures tx.Done? ==> tx.db.now == db.now
  {
    if !Current(db, observation.claim) || !ClaimGraph(db, db.submission.value) then Aborted
    else
      var s := db.submission.value;
      var matched := MatchReceipt(db, s);
      if matched.Aborted? then Aborted
      else if matched.value.Some? && matched.value.value.kind != observation.status then
        var closed := CloseRecovery(matched.db, s, TerminalReceiptConflict);
        if closed.Aborted? then Aborted else Done(closed.db, TerminalRecovery)
      else
        var budgeted := CommitBudget(matched.db, actual);
        if budgeted.Aborted? then Aborted
        else CommitGraph(budgeted.db, s, matched.value.Some?, observation.status)
  }

  /** The observation belongs to this row, whatever has happened to the row since. */
  predicate SameSubmission(s: Submission, claim: Claim) {
    && s.binding == claim.binding && s.providerStore == claim.providerStore
    && s.responseId == claim.responseId && s.providerCreatedAt == claim.providerCreatedAt
  }

  /** `validate_existing_background_terminal`. */
  predicate ValidReplay(db: Db, observation: Observation, actual: Settlement)
    requires observation.status.IsTerminal()
  {
    && db.submission.Some? && SameSubmission(db.submission.value, observation.claim)
    && db.budget.Some? && BudgetBound(db.budget.value, observation.claim.binding)
    && var s, b, status := db.submission.value, db.budget.value, observation.status;
    && s.state == TerminalStates(status).1 && s.providerStatus == Some(status)
    && s.reason == TerminalReason(status) && s.reconciledAt.Some?
    && s.terminalMessage == TerminalMessage(s.binding, status)
    && s.owner.None? && s.leaseExpiresAt.None? && s.nextAttemptAt.None? && s.retrievalEgress.Some?
    && b.state == Committed && b.actual == Some(actual) && b.reconciledAt.Some?
    && db.usageEntries == [actual]
    && db.run.state == TerminalStates(status).0
    && db.run.attemptId == s.binding.attemptId && db.run.leaseGeneration == s.binding.leaseGeneration
    && db.run.lease.None? && db.run.nextAttemptAt.None? && db.run.reason == TerminalReason(status)
    && db.run.checkpoint == TerminalMessage(s.binding, status)
    && |db.outcomes| == 1 && db.outcomes[0].finalState == TerminalStates(status).0
    && db.outcomes[0].responseId == s.responseId
    && s.responseId.Some?
    && Count(s.responseId, IsProcessed, db.receipts) <= 1
    && forall r :: r in db.receipts && IsProcessed(s.responseId, r) ==> r.kind == status && r.processedAt.Some?
  }

  predicate IsSettled(s: Submission) { s.state.Completed? || s.state.Failed? || s.state.Cancelled? }

  /** `commit`: `priced` is the answer of the usage-accounting service. */
  function Commit(db: Db, observation: Observation, priced: Amounts): (tx: Tx<TerminalOutcome>)
    ensures tx.Done? ==> tx.db.now == db.now
  {
    if !observation.status.IsTerminal() || observation.usage.None? || db.submission.None? || db.budget.None?
       || !SameSubmission(db.submission.value, observation.claim)
       || !BudgetBound(db.budget.value, observation.claim.binding)
       || priced.inputTokens != observation.usage.value.inputTokens
       || priced.outputTokens != observation.usage.value.outputTokens
       || priced.toolUnits != 0 || priced.imageUnits != 0 || priced.runs != 1
    then Aborted
    else
      var actual := Settlement(priced, observation.usage.value.cachedInputTokens);
      if IsSettled(db.submission.value) then
        if ValidReplay(db, observation, actual) then Done(db, AlreadyReconciled) else Aborted
      else CommitOnce(db, observation, actual)
  }
}
