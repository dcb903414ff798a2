/** What each reconciliation transaction makes of a current claim, said outright: the states, times and
    counters it leaves, told apart by conditions that can be checked before the call. */
module BackgroundOutcomes {
  import opened Arithmetic
  import opened Wrappers
  import opened BackgroundRows
  import opened BackgroundSteps
  import opened BackgroundInvariant
  import opened BackgroundSettlement

  // ---------------------------------------------------------------------------------------------
  // Recovery and requeueing
  // ---------------------------------------------------------------------------------------------

  /** Submission, run and outcome are in recovery for this reason; the receipt at `k`, if there is one,
      with them. Budget and usage are as before. */
  predicate WentToRecovery(before: Db, after: Db, reason: ReasonCode, k: nat)
    requires before.submission.Some?
  {
    var s, rs := before.submission.value, before.receipts;
    after == before.(
      submission := Some(s.(state := RecoveryRequired, reason := Some(reason), owner := None, leaseExpiresAt := None,
                            nextAttemptAt := None, version := s.version + 1)),
      run := before.run.(state := RunRecoveryRequired, reason := Some(reason), version := before.run.version + 1),
      outcomes := [Outcome(RunRecoveryRequired, reason, s.responseId, before.now)],
      receipts := if k < |rs|
                  then rs[k := rs[k].(bound := true, state := ReceiptRecoveryRequired, reason := Some(reason),
                                      processedAt := Some(before.now))]
                  else rs)
  }

  /** Position of the bound receipt. */
  function BoundAt(db: Db): nat
    requires db.submission.Some?
  {
    First(db.submission.value.responseId, IsMatched, db.receipts)
  }

  /** The row waits for its next attempt at the given time, with no owner, no marker and one retry more;
      run, budget and receipts are as before. */
  predicate Requeued(before: Db, after: Db, at: int, status: Option<ProviderStatus>)
    requires before.submission.Some?
  {
    var s := before.submission.value;
    after == before.(submission := Some(s.(
      state := WaitingProvider, providerStatus := status, owner := None, leaseExpiresAt := None,
      nextAttemptAt := Some(at), retryCount := s.retryCount + 1, retrievalEgress := None, version := s.version + 1)))
  }

  lemma RecoveryOutcome(c: Config, db: Db, reason: ReasonCode)
    requires Inv(c, db) && IsLive(db.submission.value)
    ensures var tx := CloseRecovery(db, db.submission.value, reason);
            tx.Done? && WentToRecovery(db, tx.db, reason, BoundAt(db))
  {
    CloseRecoveryKeeps(c, db, db.submission.value, reason);
  }

  /** Retries first, then time: what ends a row instead of requeueing it. */
  predicate ExhaustedOrRequeued(c: Config, before: Db, after: Db, at: int, status: Option<ProviderStatus>)
    requires before.submission.Some? && before.submission.value.deadline.Some?
  {
    var s := before.submission.value;
    && (c.maximumRetries <= s.retryCount ==> WentToRecovery(before, after, RetryExhausted, BoundAt(before)))
    && (s.retryCount < c.maximumRetries && s.deadline.value <= at ==>
          WentToRecovery(before, after, DeadlineExhausted, BoundAt(before)))
    && (s.retryCount < c.maximumRetries && at < s.deadline.value ==> Requeued(before, after, at, status))
  }

  /** A failed retrieval: a final error closes the row for that error; a retryable one requeues it after
      the backoff, unless retries or time are used up. */
  lemma FailureOutcome(c: Config, db: Db, claim: Claim, retryable: bool, detail: string)
    requires c.Valid() && Inv(c, db) && Current(db, claim) && claim.retrievalEgress.Some?
    ensures var s := db.submission.value;
            var tx := HandleRetrievalFailure(c, db, claim, retryable, detail);
            && tx.Done? && 0 <= s.retryCount && s.deadline.Some?
            && (!retryable ==> WentToRecovery(db, tx.db, RetrievalFailed(detail), BoundAt(db)))
            && (retryable ==>
                  ExhaustedOrRequeued(c, db, tx.db, db.now + RetryDelay(s.retryCount, c.maximumRetryDelay), s.providerStatus))
  {
    RecoveryOutcome(c, db, RetrievalFailed(detail));
    RecoveryOutcome(c, db, RetryExhausted);
    RecoveryOutcome(c, db, DeadlineExhausted);
  }

  /** A nonterminal observation is remembered and requeued after the backoff in the same way. */
  lemma ObservationOutcome(c: Config, db: Db, o: Observation)
    requires c.Valid() && Inv(c, db) && Current(db, o.claim)
    ensures var s := db.submission.value;
            var tx := ReleaseNonterminal(c, db, o);
            && 0 <= s.retryCount && s.deadline.Some?
            && (tx.Done? <==> o.status == Queued || o.status == InProgress)
            && (tx.Done? ==>
                  ExhaustedOrRequeued(c, db, tx.db, db.now + RetryDelay(s.retryCount, c.maximumRetryDelay), Some(o.status)))
  {
    RecoveryOutcome(c, db, RetryExhausted);
    RecoveryOutcome(c, db, DeadlineExhausted);
  }

  /** A claim given back unused is requeued after the delay asked for, which the deployment bounds. */
  lemma GivenBackOutcome(c: Config, db: Db, claim: Claim, delay: int)
    requires c.Valid() && Inv(c, db) && Current(db, claim)
    ensures var tx := ReleaseBeforeRetrieval(c, db, claim, delay);
            && db.submission.value.deadline.Some?
            && (tx.Done? ==>
                  1 <= delay <= c.maximumRetryDelay
                  && ExhaustedOrRequeued(c, db, tx.db, db.now + delay, db.submission.value.providerStatus))
  {
    RecoveryOutcome(c, db, RetryExhausted);
    RecoveryOutcome(c, db, DeadlineExhausted);
  }

  /** The sweep closes a live row for its deadline as soon as that is reached, and nothing else. */
  lemma ExpiryOutcome(c: Config, db: Db)
    requires c.Valid() && Inv(c, db) && db.now <= I32_MAX
    ensures var s, tx := db.submission.value, CloseExpiredOnce(c, db);
            && tx.Done?
            && if IsLive(s) && s.deadline.Some? && s.deadline.value <= db.now
               then tx.value == 1 && WentToRecovery(db, tx.db, DeadlineExpired, BoundAt(db))
               else tx.value == 0 && tx.db == db
  {
    if Expired(db) { RecoveryOutcome(c, db, DeadlineExpired); }
  }

  /** One second at first, then twice as long every time, up to the maximum of the deployment; after
      thirty retries it grows no further. */
  lemma BackoffDoubles(n: nat, maximum: int)
    requires 1 <= maximum
    ensures RetryDelay(0, maximum) == 1
    ensures n < 30 ==>
              RetryDelay(n + 1, maximum) == if 2 * RetryDelay(n, maximum) <= maximum then 2 * RetryDelay(n, maximum) else maximum
    ensures 30 <= n ==> RetryDelay(n, maximum) == RetryDelay(30, maximum)
  {
    assert Pow2(0) == 1;
    assert Pow2(n + 1) == 2 * Pow2(n);
  }

  // ---------------------------------------------------------------------------------------------
  // Claims and their renewal
  // ---------------------------------------------------------------------------------------------

  /** The lease runs for its full length, or to the deadline when that comes sooner. */
  predicate LeaseUntil(c: Config, now: int, deadline: int, lease: int) {
    lease == if now + c.leaseTtl <= deadline then now + c.leaseTtl else deadline
  }

  /** Of all claims exactly the one that repeats the row is current, exactly until its lease runs out;
      nothing else that the validator looks at ever decides. */
  lemma CurrentExactlyWhen(c: Config, db: Db, claim: Claim)
    requires c.Valid() && Inv(c, db)
    ensures var s := db.submission.value;
            Current(db, claim) <==>
              && s.state == Reconciling && db.now < claim.leaseExpiresAt
              && s.owner == Some(claim.worker) && s.leaseExpiresAt == Some(claim.leaseExpiresAt)
              && s.deadline == Some(claim.deadline)
              && claim == Claim(s.binding, s.providerStore, s.responseId, s.providerCreatedAt, claim.worker, s.generation,
                                claim.leaseExpiresAt, s.version, s.retryCount, claim.deadline, s.retrievalEgress)
  {}

  /** A claim takes the row for this worker, forgets the marker, and binds the oldest waiting receipt
      unless one is bound already. */
  lemma ClaimOutcome(c: Config, db: Db, worker: string)
    requires c.Valid() && Inv(c, db)
    ensures var tx := ClaimOnce(c, db, worker);
            tx.Done? && tx.value.Some? ==>
              var s, s' := db.submission.value, tx.db.submission.value;
              && tx.db.submission.Some? && s.deadline.Some? && s'.leaseExpiresAt.Some?
              && LeaseUntil(c, db.now, s.deadline.value, s'.leaseExpiresAt.value)
              && s' == s.(state := Reconciling, owner := Some(worker), generation := s.generation + 1,
                          leaseExpiresAt := s'.leaseExpiresAt, nextAttemptAt := s'.leaseExpiresAt,
                          retrievalEgress := None, version := s.version + 1)
              && tx.db == db.(submission := Some(s'), receipts := tx.db.receipts)
              && BindsTheOldest(s.responseId, db.receipts, tx.db.receipts)
  {
    ClaimKeeps(c, db, worker);
  }

  /** Position of the receipt that decides: the bound one, or else the oldest that waits. */
  function DecidingAt(id: Option<string>, rs: seq<Receipt>): (k: nat)
    ensures k <= |rs|
  {
    if First(id, IsMatched, rs) < |rs| then First(id, IsMatched, rs) else First(id, IsPending, rs)
  }

  predicate BindsTheOldest(id: Option<string>, rs: seq<Receipt>, rs': seq<Receipt>) {
    var k := DecidingAt(id, rs);
    rs' == if k < |rs| then rs[k := rs[k].(state := MatchedPending, bound := true)] else rs
  }

  /** A heartbeat renews lease and next attempt and nothing else, and hands back the claim that goes with it. */
  lemma HeartbeatOutcome(c: Config, db: Db, claim: Claim)
    requires c.Valid() && Inv(c, db) && Current(db, claim)
    ensures var tx := HeartbeatOnce(c, db, claim);
            tx.Done? ==>
              var s := db.submission.value;
              && LeaseUntil(c, db.now, claim.deadline, tx.value.leaseExpiresAt)
              && tx.value == claim.(leaseExpiresAt := tx.value.leaseExpiresAt, version := claim.version + 1)
              && tx.db == db.(submission := Some(s.(leaseExpiresAt := Some(tx.value.leaseExpiresAt),
                                                    nextAttemptAt := Some(tx.value.leaseExpiresAt),
                                                    version := s.version + 1)))
  {}

  /** Binding the retrieval sets the marker and nothing else. */
  lemma BindOutcome(c: Config, db: Db, claim: Claim, decision: nat)
    requires c.Valid() && Inv(c, db) && Current(db, claim)
    ensures var tx := BindRetrievalEgress(db, claim, decision);
            tx.Done? ==>
              var s := db.submission.value;
              && tx.value == claim.(retrievalEgress := Some(decision), version := claim.version + 1)
              && tx.db == db.(submission := Some(s.(retrievalEgress := Some(decision), version := s.version + 1)))
  {}

  // ---------------------------------------------------------------------------------------------
  // The terminal commit
  // ---------------------------------------------------------------------------------------------

  /** What the provider's last word means for submission and run. */
  predicate VerdictStates(status: ProviderStatus, s: SubmissionState, run: RunState) {
    match status
    case ResponseCompleted => s == Completed && run == RunCompleted
    case ResponseFailed => s == Failed && run == RunFailed
    case ResponseIncomplete => s == Failed && run == RunFailed
    case ResponseCancelled => s == Cancelled && run == RunCancelled
    case _ => false
  }

  predicate VerdictReported(status: ProviderStatus, message: Option<string>, outcome: TerminalOutcome) {
    match status
    case ResponseCompleted => message.Some? && outcome == TerminalCompleted(message.value)
    case ResponseFailed => message.None? && outcome == TerminalFailed
    case ResponseIncomplete => message.None? && outcome == TerminalFailed
    case ResponseCancelled => message.None? && outcome == TerminalCancelled
    case _ => false
  }

  /** Every receipt of the response is settled by its own verdict: the one that decided is processed, the
      others that waited are duplicates if they agree and need recovery if not. */
  predicate ReceiptsSettled(id: Option<string>, status: ProviderStatus, now: int, rs: seq<Receipt>, rs': seq<Receipt>) {
    var k := DecidingAt(id, rs);
    && |rs'| == |rs|
    && forall i :: 0 <= i < |rs| ==>
         rs'[i] == if i == k then rs[i].(bound := true, state := Processed, processedAt := Some(now))
                   else if !IsPending(id, rs[i]) then rs[i]
                   else if rs[i].kind == status then rs[i].(bound := true, state := DuplicateTerminal, processedAt := Some(now))
                   else rs[i].(bound := true, state := ReceiptRecoveryRequired,
                               reason := Some(TerminalReceiptConflict), processedAt := Some(now))
  }

  /** The graph is concluded: states, message, outcome, budget, usage and receipts all at once. */
  predicate Concluded(before: Db, after: Db, status: ProviderStatus, actual: Settlement, outcome: TerminalOutcome)
    requires before.submission.Some? && before.budget.Some?
  {
    && after.submission.Some?
    && var s, s', message := before.submission.value, after.submission.value, after.run.checkpoint;
    && VerdictStates(status, s'.state, after.run.state) && VerdictReported(status, message, outcome)
    && var reason := if status == ResponseCompleted then None else Some(ProviderOutcome(status));
    && s' == s.(state := s'.state, providerStatus := Some(status), reason := reason, owner := None, leaseExpiresAt := None,
                nextAttemptAt := None, reconciledAt := Some(before.now), terminalMessage := message,
                version := s.version + 1)
    && after == before.(
         submission := Some(s'),
         run := before.run.(state := after.run.state, reason := reason, checkpoint := message,
                            version := before.run.version + 1),
         budget := Some(before.budget.value.(state := Committed, actual := Some(actual), reconciledAt := Some(before.now))),
         usageEntries := [actual],
         outcomes := [Outcome(after.run.state, ProviderOutcome(status), s.responseId, before.now)],
         receipts := after.receipts)
    && ReceiptsSettled(s.responseId, status, before.now, before.receipts, after.receipts)
  }

  /** The price is for the usage that was observed, one run and nothing else. */
  predicate PriceFits(o: Observation, priced: Amounts) {
    && o.usage.Some?
    && priced.inputTokens == o.usage.value.inputTokens && priced.outputTokens == o.usage.value.outputTokens
    && priced.toolUnits == 0 && priced.imageUnits == 0 && priced.runs == 1
  }

  /** The receipt that decides says something else than the observation. */
  predicate Disagrees(db: Db, status: ProviderStatus)
    requires db.submission.Some?
  {
    var k := DecidingAt(db.submission.value.responseId, db.receipts);
    k < |db.receipts| && db.receipts[k].kind != status
  }

  lemma MatchBindsTheDeciding(c: Config, db: Db)
    requires Inv(c, db) && IsLive(db.submission.value)
    ensures var s := db.submission.value;
            var k, tx := DecidingAt(s.responseId, db.receipts), MatchReceipt(db, s);
            && tx.Done? && tx.db == db.(receipts := tx.db.receipts)
            && BindsTheOldest(s.responseId, db.receipts, tx.db.receipts)
            && First(s.responseId, IsMatched, tx.db.receipts) == k
            && tx.value == if k < |db.receipts| then Some(tx.db.receipts[k]) else None
  {
    var s := db.submission.value;
    MatchKeeps(db, s);
    CountFirst(s.responseId, IsMatched, MatchReceipt(db, s).db.receipts);
  }

  lemma ReceiptsAreSettled(id: Option<string>, status: ProviderStatus, now: int, rs: seq<Receipt>)
    requires CleanReceipts(rs) && id.Some?
    ensures var k := DecidingAt(id, rs);
            var processed := if k < |rs| then rs[k := rs[k].(bound := true, state := Processed, reason := None,
                                                             processedAt := Some(now))] else rs;
            ReceiptsSettled(id, status, now, rs, CloseDuplicates(id, status, now, processed))
  {
    assert forall i :: 0 <= i < |rs| && IsPending(id, rs[i]) ==> CleanReceipt(rs[i]);
    var k := DecidingAt(id, rs);
    assert k < |rs| ==> CleanReceipt(rs[k]);
  }

  /** A conflicting commit goes to recovery with the receipt that decided. */
  lemma ConflictOutcome(c: Config, db: Db)
    requires Inv(c, db) && IsLive(db.submission.value)
    ensures var s := db.submission.value;
            var matched := MatchReceipt(db, s);
            var tx := CloseRecovery(matched.db, s, TerminalReceiptConflict);
            tx.Done? && WentToRecovery(db, tx.db, TerminalReceiptConflict, DecidingAt(s.responseId, db.receipts))
  {
    var s := db.submission.value;
    MatchBindsTheDeciding(c, db);
    MatchKeeps(db, s);
    CloseRecoveryKeeps(c, MatchReceipt(db, s).db, s, TerminalReceiptConflict);
  }

  /** An agreeing commit concludes the graph. */
  lemma AgreementOutcome(c: Config, db: Db, status: ProviderStatus, actual: Settlement)
    requires Inv(c, db) && IsLive(db.submission.value) && status.IsTerminal() && !Disagrees(db, status)
    ensures var s := db.submission.value;
            var matched := MatchReceipt(db, s);
            && matched.Done? && db.budget.Some?
            && var budgeted := CommitBudget(matched.db, actual);
               budgeted.Done? ==>
                 var tx := CommitGraph(budgeted.db, s, matched.value.Some?, status);
                 tx.Done? ==> Concluded(db, tx.db, status, actual, tx.value)
  {
    hide SettleReceipts, CloseDuplicates, ReceiptsSettled, DecidingAt, First, Count, CleanReceipts;
    var s := db.submission.value;
    MatchBindsTheDeciding(c, db);
    hide MatchReceipt;
    var matched := MatchReceipt(db, s);
    var budgeted := CommitBudget(matched.db, actual);
    if budgeted.Done? && CommitGraph(budgeted.db, s, matched.value.Some?, status).Done? {
      ReceiptsAreSettled(s.responseId, status, db.now, db.receipts);
      SettlesTheDeciding(c, db, TerminalRows(budgeted.db, s, status), matched.value.Some?, status);
    }
  }

  lemma SettlesTheDeciding(c: Config, db: Db, rows: Db, matched: bool, status: ProviderStatus)
    requires Inv(c, db) && IsLive(db.submission.value)
    requires var s := db.submission.value;
             && rows.receipts == MatchReceipt(db, s).db.receipts && rows.now == db.now
             && matched == MatchReceipt(db, s).value.Some?
    ensures var s, rs := db.submission.value, db.receipts;
            var k, tx := DecidingAt(s.responseId, rs), SettleReceipts(rows, s, matched, status);
            tx.Done? ==>
              tx.db.receipts
              == CloseDuplicates(s.responseId, status, db.now,
                                 if k < |rs| then rs[k := rs[k].(bound := true, state := Processed, reason := None,
                                                                 processedAt := Some(db.now))] else rs)
  {
    var s, rs := db.submission.value, db.receipts;
    MatchBindsTheDeciding(c, db);
    var k := DecidingAt(s.responseId, rs);
    if k < |rs| {
      var done := rs[k].(bound := true, state := Processed, reason := None, processedAt := Some(db.now));
      assert rs[k := rs[k].(state := MatchedPending, bound := true)][k := done] == rs[k := done];
    }
  }

  /** Committing a current claim, in full: when it commits, and everything that is different afterwards. */
  lemma CommitOutcome(c: Config, db: Db, o: Observation, priced: Amounts)
    requires c.Valid() && Inv(c, db) && Current(db, o.claim)
    ensures var s := db.submission.value;
            var tx := Commit(db, o, priced);
            && db.budget.Some?
            && (tx.Done? <==>
                  && o.status.IsTerminal() && PriceFits(o, priced)
                  && (|| Disagrees(db, o.status)
                      || (&& o.usage.value.cachedInputTokens <= priced.inputTokens
                          && Storable(Settlement(priced, o.usage.value.cachedInputTokens))
                          && Count(s.responseId, IsMatched, db.receipts) + Count(s.responseId, IsPending, db.receipts) <= 65)))
            && (tx.Done? && Disagrees(db, o.status) ==>
                  && tx.value == TerminalRecovery
                  && WentToRecovery(db, tx.db, TerminalReceiptConflict, DecidingAt(s.responseId, db.receipts)))
            && (tx.Done? && !Disagrees(db, o.status) ==>
                  Concluded(db, tx.db, o.status, Settlement(priced, o.usage.value.cachedInputTokens), tx.value))
  {
    if o.status.IsTerminal() && PriceFits(o, priced) {
      CommitOnceOutcome(c, db, o, Settlement(priced, o.usage.value.cachedInputTokens));
    }
  }

  lemma CommitOnceOutcome(c: Config, db: Db, o: Observation, actual: Settlement)
    requires c.Valid() && Inv(c, db) && Current(db, o.claim) && o.status.IsTerminal() && actual.amounts.runs == 1
    ensures var s := db.submission.value;
            var tx := CommitOnce(db, o, actual);
            && db.budget.Some?
            && (tx.Done? <==>
                  (|| Disagrees(db, o.status)
                   || (&& actual.cachedInputTokens <= actual.amounts.inputTokens && Storable(actual)
                       && Count(s.responseId, IsMatched, db.receipts) + Count(s.responseId, IsPending, db.receipts) <= 65)))
            && (tx.Done? && Disagrees(db, o.status) ==>
                  && tx.value == TerminalRecovery
                  && WentToRecovery(db, tx.db, TerminalReceiptConflict, DecidingAt(s.responseId, db.receipts)))
            && (tx.Done? && !Disagrees(db, o.status) ==> Concluded(db, tx.db, o.status, actual, tx.value))
  {
    MatchBindsTheDeciding(c, db);
    if Disagrees(db, o.status) {
      ConflictOutcome(c, db);
    } else {
      AgreementOutcome(c, db, o.status, actual);
      if Payable(actual) {
        CommitVerdict(c, db, o, actual);
      }
    }
  }

  /** In every reachable state that is settled, the provider's last word and the states say the same, a
      message exists exactly for a completed response, and it is the run's checkpoint. */
  lemma VerdictTable(c: Config, db: Db, actions: seq<Action>)
    requires c.Valid() && Inv(c, db)
    ensures var after := Execute(c, db, actions);
            && after.submission.Some?
            && var s, run := after.submission.value, after.run;
            && (s.state == Completed || s.state == Failed || s.state == Cancelled ==>
                  && (s.providerStatus == Some(ResponseCompleted) <==> s.state == Completed && run.state == RunCompleted)
                  && (s.providerStatus == Some(ResponseFailed) || s.providerStatus == Some(ResponseIncomplete)
                      <==> s.state == Failed && run.state == RunFailed)
                  && (s.providerStatus == Some(ResponseCancelled) <==> s.state == Cancelled && run.state == RunCancelled)
                  && (s.terminalMessage.Some? <==> s.state == Completed) && run.checkpoint == s.terminalMessage)
            && (s.state != Completed ==> s.terminalMessage.None? && run.checkpoint.None?)
  {
    RunKeeps(c, db, actions);
  }

  // ---------------------------------------------------------------------------------------------
  // Deliveries
  // ---------------------------------------------------------------------------------------------

  predicate DistinctEvents(rs: seq<Receipt>) {
    forall i, j :: 0 <= i < j < |rs| ==> rs[i].id != rs[j].id
  }

  /** A new terminal event waits unbound at its place; another one is stored and ignored; a repeated one
      changes nothing. */
  lemma DeliveryOutcome(db: Db, r: Receipt, position: nat)
    requires position <= |db.receipts|
    ensures var after := Deliver(db, r, position).receipts;
            if exists k :: 0 <= k < |db.receipts| && db.receipts[k].id == r.id then after == db.receipts
            else
              && |after| == |db.receipts| + 1
              && after[..position] == db.receipts[..position] && after[position + 1..] == db.receipts[position..]
              && after[position].id == r.id && after[position].kind == r.kind && after[position].responseId == r.responseId
              && !after[position].bound
              && after[position].state
                 == (if r.kind == Queued || r.kind == InProgress then Ignored else PendingReconciliation)
  {}

  lemma DeliveriesStayDistinct(db: Db, r: Receipt, position: nat)
    requires DistinctEvents(db.receipts)
    ensures DistinctEvents(Deliver(db, r, position).receipts)
  {
    var after := Deliver(db, r, position).receipts;
    if after != db.receipts {
      forall i, j | 0 <= i < j < |after| ensures after[i].id != after[j].id {
        assert i != position ==> after[i] == db.receipts[if i < position then i else i - 1];
        assert j != position ==> after[j] == db.receipts[if j < position then j else j - 1];
      }
    }
  }
}
