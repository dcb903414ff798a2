/** The rows of the background-response reconciliation protocol: one submission, its parked run,
    its budget reservation, the outcomes of its attempt and the webhook receipts, together with the
    validators that every transaction applies to them. Times are whole seconds. */
module BackgroundRows {
  import opened Arithmetic
  import opened Wrappers

  const I32_MAX: int := 0x7FFF_FFFF
  const I64_MAX: int := 0x7FFF_FFFF_FFFF_FFFF

  const MAXIMUM_TEMPORARY_RESPONSE_WINDOW: int := 600
  const MAXIMUM_STORED_RESPONSE_WINDOW: int := 2_592_000
  const MAXIMUM_RECONCILIATION_LEASE_TTL: int := 300
  const MAXIMUM_RECONCILIATION_RETRY_DELAY: int := 3_600
  const MAXIMUM_DUPLICATE_RECEIPTS: nat := 64

  datatype SubmissionState =
    Prepared | WaitingProvider | Reconciling | Completed | Failed | Cancelled | RecoveryRequired

  datatype RunState =
    RunRunning | RunWaitingProvider | RunCompleted | RunFailed | RunCancelled | RunRecoveryRequired

  datatype BudgetState = Reserved | Uncertain | Committed | Released

  datatype ProviderStatus =
    Queued | InProgress | ResponseCompleted | ResponseFailed | ResponseIncomplete | ResponseCancelled
  {
    predicate IsTerminal() { !Queued? && !InProgress? }
  }

  /** The stable redacted reason written beside a state change. */
  datatype ReasonCode =
    | BudgetUncertaintyNotPersisted
    | SubmissionOutcomeUncertain
    | AcknowledgementNotPersisted
    | DeadlineExpired
    | DeadlineExhausted
    | RetryExhausted
    | TerminalReceiptConflict
    | RetrievalFailed(detail: string)
    | ProviderOutcome(status: ProviderStatus)

  /** Everything about a submission that is fixed when its row is inserted. `identity` stands for the
      digest over profile, model, request and egress manifest that names the row. */
  datatype Binding = Binding(identity: string, attemptId: nat, leaseGeneration: int)

  datatype Submission = Submission(
    binding: Binding,
    state: SubmissionState,
    createdAt: int,
    providerStore: Option<bool>,
    responseId: Option<string>,
    providerStatus: Option<ProviderStatus>,
    providerCreatedAt: Option<int>,
    submittedAt: Option<int>,
    owner: Option<string>,
    generation: int,
    leaseExpiresAt: Option<int>,
    nextAttemptAt: Option<int>,
    retryCount: int,
    deadline: Option<int>,
    reconciledAt: Option<int>,
    retrievalEgress: Option<nat>,
    terminalMessage: Option<string>,
    reason: Option<ReasonCode>,
    version: nat)

  /** Owner, expiry and heartbeat of a run lease are always written and cleared together. */
  datatype LeaseFields = LeaseFields(owner: string, expiresAt: int)

  datatype Run = Run(
    state: RunState,
    attemptId: nat,
    leaseGeneration: int,
    lease: Option<LeaseFields>,
    nextAttemptAt: Option<int>,
    reason: Option<ReasonCode>,
    checkpoint: Option<string>,
    version: nat)

  datatype Amounts = Amounts(
    inputTokens: nat, outputTokens: nat, toolUnits: nat, imageUnits: nat, costMicrounits: nat, runs: nat)

  datatype Settlement = Settlement(amounts: Amounts, cachedInputTokens: nat)

  datatype Budget = Budget(
    attemptId: nat,
    leaseGeneration: int,
    state: BudgetState,
    reconciledAt: Option<int>,
    actual: Option<Settlement>)

  datatype Outcome = Outcome(finalState: RunState, reason: ReasonCode, responseId: Option<string>, finishedAt: int)

  datatype ReceiptState =
    PendingReconciliation | MatchedPending | Processed | DuplicateTerminal | ReceiptRecoveryRequired | Ignored

  /** `bound` says that the run and attempt columns carry this submission's identifiers. */
  datatype Receipt = Receipt(
    id: nat,
    kind: ProviderStatus,
    responseId: Option<string>,
    bound: bool,
    state: ReceiptState,
    reason: Option<ReasonCode>,
    processedAt: Option<int>)

  /** The part of the database one submission can touch. Receipts are listed in the order of the
      receipt query (received, event, id). */
  datatype Db = Db(
    now: int,
    submission: Option<Submission>,
    run: Run,
    budget: Option<Budget>,
    usageEntries: seq<Settlement>,
    outcomes: seq<Outcome>,
    receipts: seq<Receipt>)

  /** Deployment limits. The syntax of worker names is left to the deployment. */
  datatype Config = Config(
    leaseTtl: int,
    maximumRetryDelay: int,
    maximumRetries: nat,
    temporaryWindow: int,
    storedWindow: int,
    validWorker: string -> bool)
  {
    ghost predicate Valid() {
      && 1 <= leaseTtl <= MAXIMUM_RECONCILIATION_LEASE_TTL
      && 1 <= maximumRetryDelay <= MAXIMUM_RECONCILIATION_RETRY_DELAY
      && maximumRetries <= 100
      && 1 <= temporaryWindow <= MAXIMUM_TEMPORARY_RESPONSE_WINDOW
      && 1 <= storedWindow <= MAXIMUM_STORED_RESPONSE_WINDOW
    }

    function Window(stored: bool): int {
      if stored then storedWindow else temporaryWindow
    }
  }

  /** A reconciliation claim: an unforgeable copy of the row as the claim left it. */
  datatype Claim = Claim(
    binding: Binding,
    providerStore: Option<bool>,
    responseId: Option<string>,
    providerCreatedAt: Option<int>,
    worker: string,
    generation: int,
    leaseExpiresAt: int,
    version: nat,
    retryCount: int,
    deadline: int,
    retrievalEgress: Option<nat>)

  datatype Usage = Usage(inputTokens: nat, outputTokens: nat, cachedInputTokens: nat)

  datatype RetrievedObservation = RetrievedObservation(claim: Claim, status: ProviderStatus, usage: Option<Usage>)

  /** Observations are only made by the retrieval service, which binds the egress marker first. */
  type Observation = o: RetrievedObservation | o.claim.retrievalEgress.Some?
    witness RetrievedObservation(
              Claim(Binding("", 0, 0), None, None, None, "", 0, 0, 0, 0, 0, Some(0)), Queued, None)

  function Min(a: int, b: int): int { if a <= b then a else b }

  function MaximumWindow(stored: bool): int {
    if stored then MAXIMUM_STORED_RESPONSE_WINDOW else MAXIMUM_TEMPORARY_RESPONSE_WINDOW
  }

  // ---------------------------------------------------------------------------------------------
  // Receipts of one submission
  // ---------------------------------------------------------------------------------------------

  predicate Concerns(id: Option<string>, r: Receipt) {
    id.Some? && r.responseId == id
  }

  predicate IsPending(id: Option<string>, r: Receipt) {
    Concerns(id, r) && r.state == PendingReconciliation
  }

  predicate IsMatched(id: Option<string>, r: Receipt) {
    Concerns(id, r) && r.state == MatchedPending && r.bound
  }

  predicate IsProcessed(id: Option<string>, r: Receipt) {
    Concerns(id, r) && r.state == Processed && r.bound
  }

  function Count(id: Option<string>, p: (Option<string>, Receipt) -> bool, rs: seq<Receipt>): nat {
    if rs == [] then 0 else (if p(id, rs[0]) then 1 else 0) + Count(id, p, rs[1..])
  }

  /** Position of the first receipt of the kind asked for; the length of the list when there is none. */
  function First(id: Option<string>, p: (Option<string>, Receipt) -> bool, rs: seq<Receipt>): (i: nat)
    ensures i <= |rs|
    ensures i < |rs| ==> p(id, rs[i])
    ensures forall k :: 0 <= k < i ==> !p(id, rs[k])
  {
    if rs == [] then 0 else if p(id, rs[0]) then 0 else 1 + First(id, p, rs[1..])
  }

  /** What a receipt must look like before it may be matched, processed or closed. */
  predicate ValidReceipt(r: Receipt, state: ReceiptState, bound: bool) {
    r.kind.IsTerminal() && r.state == state && r.reason.None? && r.processedAt.None? && r.bound == bound
  }

  // ---------------------------------------------------------------------------------------------
  // Row validators
  // ---------------------------------------------------------------------------------------------

  /** The conditions shared by `validate_claimable_submission` and `validate_expired_submission`. */
  predicate ValidAcceptedRow(c: Config, s: Submission) {
    && s.nextAttemptAt.Some? && s.deadline.Some? && s.submittedAt.Some? && s.responseId.Some?
    && s.providerStatus.Some? && s.providerStore.Some? && s.providerCreatedAt.Some?
    && 0 < s.createdAt && 0 < s.providerCreatedAt.value && 0 < s.submittedAt.value
    && s.createdAt <= s.submittedAt.value <= s.nextAttemptAt.value
    && s.submittedAt.value < s.deadline.value
    && s.deadline.value
       <= Min(s.providerCreatedAt.value, s.submittedAt.value) + MaximumWindow(s.providerStore.value)
    && s.reason.None?
    && 0 <= s.retryCount <= s.generation
    && s.retryCount <= c.maximumRetries
    && s.reconciledAt.None? && s.terminalMessage.None?
    && 1 <= s.version
  }

  predicate ValidClaimable(c: Config, s: Submission, now: int) {
    && ValidAcceptedRow(c, s)
    && s.nextAttemptAt.value <= now < s.deadline.value
    && match s.state {
         case WaitingProvider =>
           && s.owner.None? && s.leaseExpiresAt.None? && s.retrievalEgress.None?
           && (s.generation == 0 <==> s.retryCount == 0)
         case Reconciling =>
           && 0 < s.generation && s.owner.Some? && c.validWorker(s.owner.value)
           && s.leaseExpiresAt == s.nextAttemptAt
         case _ => false
       }
  }

  predicate ValidExpired(c: Config, s: Submission, now: int) {
    && ValidAcceptedRow(c, s)
    && s.deadline.value <= now
    && match s.state {
         case WaitingProvider => s.owner.None? && s.leaseExpiresAt.None? && s.retrievalEgress.None?
         case Reconciling =>
           && 0 < s.generation && s.owner.Some? && c.validWorker(s.owner.value)
           && s.leaseExpiresAt == s.nextAttemptAt && s.nextAttemptAt.value <= s.deadline.value
         case _ => false
       }
  }

  predicate ValidActive(s: Submission, worker: string, generation: int, egress: Option<nat>, now: int) {
    && s.leaseExpiresAt.Some?
    && s.state == Reconciling && s.owner == Some(worker) && s.generation == generation
    && s.nextAttemptAt == s.leaseExpiresAt && now < s.leaseExpiresAt.value
    && s.deadline.Some? && s.leaseExpiresAt.value <= s.deadline.value
    && s.reason.None? && s.reconciledAt.None? && s.retrievalEgress == egress && s.terminalMessage.None?
  }

  predicate ValidCurrentClaim(s: Submission, claim: Claim, now: int) {
    && s.binding == claim.binding
    && s.providerStore == claim.providerStore && s.responseId == claim.responseId
    && s.providerCreatedAt == claim.providerCreatedAt
    && s.retrievalEgress == claim.retrievalEgress
    && s.owner == Some(claim.worker) && s.generation == claim.generation
    && s.leaseExpiresAt == Some(claim.leaseExpiresAt) && s.nextAttemptAt == s.leaseExpiresAt
    && s.retryCount == claim.retryCount && s.deadline == Some(claim.deadline)
    && s.version == claim.version
    && now < claim.leaseExpiresAt && now < claim.deadline
    && ValidActive(s, claim.worker, claim.generation, claim.retrievalEgress, now)
  }

  predicate ValidReleased(s: Submission, generation: int, retryCount: int, eligibleAt: int) {
    && s.state == WaitingProvider && s.owner.None? && s.generation == generation
    && s.leaseExpiresAt.None? && s.nextAttemptAt == Some(eligibleAt) && s.retryCount == retryCount
    && s.deadline.Some? && eligibleAt < s.deadline.value
    && s.reason.None? && s.reconciledAt.None? && s.retrievalEgress.None? && s.terminalMessage.None?
  }

  predicate ValidWaiting(s: Submission) {
    && s.submittedAt.Some? && s.nextAttemptAt.Some? && s.deadline.Some?
    && s.state == WaitingProvider
    && s.providerStore.Some? && s.responseId.Some? && s.providerStatus.Some? && s.providerCreatedAt.Some?
    && s.reason.None? && s.owner.None? && s.generation == 0 && s.leaseExpiresAt.None? && s.retryCount == 0
    && s.submittedAt.value <= s.nextAttemptAt.value < s.deadline.value
    && s.reconciledAt.None? && s.retrievalEgress.None? && s.terminalMessage.None?
  }

  /** A row that has been prepared and not yet acknowledged or closed. */
  predicate PristinePrepared(s: Submission) {
    && s.state == Prepared
    && s.providerStore.None? && s.responseId.None? && s.providerStatus.None? && s.providerCreatedAt.None?
    && s.submittedAt.None? && s.owner.None? && s.generation == 0 && s.leaseExpiresAt.None?
    && s.nextAttemptAt.None? && s.retryCount == 0 && s.deadline.None? && s.reconciledAt.None?
    && s.retrievalEgress.None? && s.terminalMessage.None? && s.version == 0
  }

  /** The run as it must be while the provider works: parked, lease-free and without a verdict. */
  predicate Parked(run: Run, s: Submission) {
    && run.state == RunWaitingProvider
    && run.attemptId == s.binding.attemptId && run.leaseGeneration == s.binding.leaseGeneration
    && run.lease.None? && run.nextAttemptAt.None? && run.reason.None?
  }

  predicate BudgetBound(b: Budget, binding: Binding) {
    b.attemptId == binding.attemptId && b.leaseGeneration == binding.leaseGeneration
  }

  /** `load_background_claim_graph`: the supporting rows agree that nothing has been settled yet. */
  predicate ClaimGraph(db: Db, s: Submission) {
    && s.responseId.Some?
    && Parked(db.run, s) && db.run.checkpoint.None?
    && db.outcomes == []
    && db.budget.Some? && BudgetBound(db.budget.value, s.binding)
    && db.budget.value.state == Uncertain && db.budget.value.reconciledAt.Some?
    && db.budget.value.actual.None?
  }

  /** Bounded exponential backoff: 2^retries seconds, at most 2^30 and at most the deployment maximum. */
  function RetryDelay(retryCount: nat, maximum: int): (delay: int)
    requires 1 <= maximum
    ensures 1 <= delay <= maximum
  {
    Min(Pow2(if retryCount <= 30 then retryCount else 30), maximum)
  }
}
