/** The reconciliation transactions as the service performs them: rows are read, checked, updated and
    checked again in place, and everything is put back when a later check fails. */
module BackgroundStore {
  import opened Wrappers
  import opened BackgroundRows
  import Steps = BackgroundSteps

  class Store {
    const config: Config
    var now: int
    var submission: Option<Submission>
    var run: Run
    var budget: Option<Budget>
    var usageEntries: seq<Settlement>
    var outcomes: seq<Outcome>
    var receipts: seq<Receipt>

    constructor (config: Config, db: Db)
      requires config.Valid()
      ensures this.config == config && View() == db
    {
      this.config := config;
      now, submission, run, budget := db.now, db.submission, db.run, db.budget;
      usageEntries, outcomes, receipts := db.usageEntries, db.outcomes, db.receipts;
    }

    function View(): Db
      reads this
    {
      Db(now, submission, run, budget, usageEntries, outcomes, receipts)
    }

    /** Undoes the writes of a transaction that failed. */
    method Rollback(saved: Db)
      modifies this
      ensures View() == saved
    {
      now, submission, run, budget := saved.now, saved.submission, saved.run, saved.budget;
      usageEntries, outcomes, receipts := saved.usageEntries, saved.outcomes, saved.receipts;
    }

    method MatchReceipt(s: Submission) returns (ok: bool, matched: Option<Receipt>)
      modifies this`receipts
      ensures var tx := Steps.MatchReceipt(old(View()), s);
              ok == tx.Done? && (ok ==> View() == tx.db && matched == tx.value)
    {
      matched := None;
      if s.responseId.None? || Count(s.responseId, IsMatched, receipts) > 1 {
        return false, None;
      }
      var i := First(s.responseId, IsMatched, receipts);
      if i < |receipts| {
        return ValidReceipt(receipts[i], MatchedPending, true), Some(receipts[i]);
      }
      i := First(s.responseId, IsPending, receipts);
      if i == |receipts| {
        return true, None;
      }
      if !ValidReceipt(receipts[i], PendingReconciliation, false) {
        return false, None;
      }
      var receipt := receipts[i].(state := MatchedPending, bound := true);
      receipts := receipts[i := receipt];
      return true, Some(receipt);
    }

    method FinishMatched(s: Submission, state: ReceiptState, reason: Option<ReasonCode>) returns (ok: bool)
      modifies this`receipts
      ensures var tx := Steps.FinishMatched(old(View()), s, state, reason);
              ok == tx.Done? && (ok ==> View() == tx.db)
    {
      if s.responseId.None? || Count(s.responseId, IsMatched, receipts) > 1 {
        return false;
      }
      var i := First(s.responseId, IsMatched, receipts);
      if i == |receipts| {
        return true;
      }
      if !ValidReceipt(receipts[i], MatchedPending, true) {
        return false;
      }
      receipts := receipts[i := receipts[i].(state := state, reason := reason, processedAt := Some(now))];
      return true;
    }

    /** Walks the pending receipts of the response and gives each its own verdict. */
    method CloseDuplicateReceipts(s: Submission, status: ProviderStatus) returns (ok: bool)
      modifies this`receipts
      ensures ok == Steps.DuplicatesCloseable(s.responseId, old(receipts))
      ensures ok ==> receipts == Steps.CloseDuplicates(s.responseId, status, now, old(receipts))
    {
      if Count(s.responseId, IsPending, receipts) > MAXIMUM_DUPLICATE_RECEIPTS {
        return false;
      }
      var before := receipts;
      var i := 0;
      while i < |receipts|
        invariant 0 <= i <= |receipts| == |before|
        invariant receipts[i..] == before[i..]
        invariant forall k :: 0 <= k < i ==> receipts[k] == Steps.CloseDuplicate(s.responseId, status, now, before[k])
        invariant forall k :: 0 <= k < i && IsPending(s.responseId, before[k]) ==>
                    ValidReceipt(before[k], PendingReconciliation, false)
      {
        var receipt := receipts[i];
        assert receipt == before[i];
        if IsPending(s.responseId, receipt) {
          if !ValidReceipt(receipt, PendingReconciliation, false) {
            return false;
          }
          var agrees := receipt.kind == status;
          receipts := receipts[i := receipt.(
            bound := true,
            state := if agrees then DuplicateTerminal else ReceiptRecoveryRequired,
            reason := if agrees then None else Some(TerminalReceiptConflict),
            processedAt := Some(now))];
        }
        i := i + 1;
      }
      return true;
    }

    method CloseRecovery(s: Submission, reason: ReasonCode) returns (ok: bool)
      modifies this
      ensures var tx := Steps.CloseRecovery(old(View()), s, reason);
              ok == tx.Done? && (ok ==> View() == tx.db)
    {
      if !Parked(run, s) {
        return false;
      }
      submission := Some(s.(state := RecoveryRequired, reason := Some(reason), owner := None, leaseExpiresAt := None,
                            nextAttemptAt := None, version := s.version + 1));
      if s.reconciledAt.Some? || s.terminalMessage.Some? {
        return false;
      }
      run := run.(state := RunRecoveryRequired, lease := None, nextAttemptAt := None, reason := Some(reason),
                  version := run.version + 1);
      if outcomes != [] {
        return false;
      }
      outcomes := [Outcome(RunRecoveryRequired, reason, s.responseId, now)];
      ok := FinishMatched(s, ReceiptRecoveryRequired, Some(reason));
    }

    method ClaimOnce(worker: string) returns (ok: bool, claim: Option<Claim>)
      modifies this
      ensures var tx := Steps.ClaimOnce(config, old(View()), worker);
              View() == Steps.After(tx, old(View())) && ok == tx.Done? && (ok ==> claim == tx.value)
    {
      if !config.validWorker(worker) || now > I32_MAX {
        return false, None;
      }
      if !Steps.Claimable(View()) {
        return true, None;
      }
      var saved, current := View(), submission.value;
      if !ValidClaimable(config, current, now) || !ClaimGraph(View(), current) {
        return false, None;
      }
      var expiry := Min(now + config.leaseTtl, current.deadline.value);
      if expiry <= now {
        return false, None;
      }
      var updated := current.(
        state := Reconciling, owner := Some(worker), generation := current.generation + 1,
        leaseExpiresAt := Some(expiry), nextAttemptAt := Some(expiry), retrievalEgress := None,
        version := current.version + 1);
      submission := Some(updated);
      if !ValidActive(updated, worker, updated.generation, None, now) {
        Rollback(saved);
        return false, None;
      }
      var matchedOk, _ := MatchReceipt(updated);
      if !matchedOk {
        Rollback(saved);
        return false, None;
      }
      return true, Some(Steps.ClaimOf(updated));
    }

    method HeartbeatOnce(claim: Claim) returns (ok: bool, renewed: Claim)
      modifies this
      ensures var tx := Steps.HeartbeatOnce(config, old(View()), claim);
              View() == Steps.After(tx, old(View())) && ok == tx.Done? && (ok ==> renewed == tx.value)
    {
      renewed := claim;
      if submission.None? || !ValidCurrentClaim(submission.value, claim, now) {
        return false, claim;
      }
      var saved, current := View(), submission.value;
      var expiry := Min(now + config.leaseTtl, claim.deadline);
      if expiry <= now {
        return false, claim;
      }
      submission := Some(current.(leaseExpiresAt := Some(expiry), nextAttemptAt := Some(expiry),
                                  version := current.version + 1));
      if !ValidActive(submission.value, claim.worker, claim.generation, None, now) {
        Rollback(saved);
        return false, claim;
      }
      return true, claim.(leaseExpiresAt := expiry, version := submission.value.version);
    }

    method BindRetrievalEgress(claim: Claim, decision: nat) returns (ok: bool, marked: Claim)
      modifies this
      ensures var tx := Steps.BindRetrievalEgress(old(View()), claim, decision);
              View() == Steps.After(tx, old(View())) && ok == tx.Done? && (ok ==> marked == tx.value)
    {
      if submission.None? || !ValidCurrentClaim(submission.value, claim, now) || claim.retrievalEgress.Some?
         || !ClaimGraph(View(), submission.value)
      {
        return false, claim;
      }
      var current := submission.value;
      submission := Some(current.(retrievalEgress := Some(decision), version := current.version + 1));
      // The service checks the updated row once more here; that check cannot fail.
      assert ValidActive(submission.value, claim.worker, claim.generation, Some(decision), now);
      return true, claim.(retrievalEgress := Some(decision), version := submission.value.version);
    }

    /** One submission is in view, so the batch holds one candidate or none. */
    method CloseExpiredOnce() returns (ok: bool, closed: nat)
      modifies this
      ensures var tx := Steps.CloseExpiredOnce(config, old(View()));
              View() == Steps.After(tx, old(View())) && ok == tx.Done? && (ok ==> closed == tx.value)
    {
      if now > I32_MAX {
        return false, 0;
      }
      if !Steps.Expired(View()) {
        return true, 0;
      }
      var saved, current := View(), submission.value;
      if !ValidExpired(config, current, now) || !ClaimGraph(View(), current) {
        return false, 0;
      }
      ok := CloseRecovery(current, DeadlineExpired);
      if !ok {
        Rollback(saved);
        return false, 0;
      }
      return true, 1;
    }

    /** The tail shared by the three releases, after the claim has been checked. */
    method Release(claim: Claim, eligibleAt: int, status: Option<ProviderStatus>, clearMarker: bool) returns (ok: bool)
      requires submission.Some?
      modifies this
      ensures var tx := Steps.Release(config, old(View()), claim, eligibleAt, status, clearMarker);
              View() == Steps.After(tx, old(View())) && ok == tx.Done?
    {
      var saved, current := View(), submission.value;
      var retryCount := current.retryCount + 1;
      if retryCount > config.maximumRetries || claim.deadline <= eligibleAt {
        if !ClaimGraph(View(), current) {
          return false;
        }
        ok := CloseRecovery(current, if retryCount > config.maximumRetries then RetryExhausted else DeadlineExhausted);
        if !ok {
          Rollback(saved);
        }
        return;
      }
      var released := current.(
        state := WaitingProvider, owner := None, leaseExpiresAt := None, nextAttemptAt := Some(eligibleAt),
        retryCount := retryCount, version := current.version + 1);
      if status.Some? {
        released := released.(providerStatus := status);
      }
      if clearMarker {
        released := released.(retrievalEgress := None);
      }
      submission := Some(released);
      ok := ValidReleased(released, claim.generation, retryCount, eligibleAt);
      if !ok {
        Rollback(saved);
      }
    }

    method ReleaseBeforeRetrieval(claim: Claim, delay: int) returns (ok: bool)
      modifies this
      ensures var tx := Steps.ReleaseBeforeRetrieval(config, old(View()), claim, delay);
              View() == Steps.After(tx, old(View())) && ok == tx.Done?
    {
      if delay < 1 || config.maximumRetryDelay < delay || submission.None?
         || !ValidCurrentClaim(submission.value, claim, now)
      {
        return false;
      }
      ok := Release(claim, now + delay, None, false);
    }

    method ReleaseNonterminal(observation: Observation) returns (ok: bool)
      requires config.Valid()
      modifies this
      ensures var tx := Steps.ReleaseNonterminal(config, old(View()), observation);
              View() == Steps.After(tx, old(View())) && ok == tx.Done?
    {
      var claim := observation.claim;
      if observation.status.IsTerminal() || submission.None? || !ValidCurrentClaim(submission.value, claim, now)
         || submission.value.retrievalEgress.None? || claim.retryCount < 0
      {
        return false;
      }
      var delay := RetryDelay(claim.retryCount, config.maximumRetryDelay);
      ok := Release(claim, now + delay, Some(observation.status), true);
    }

    method HandleRetrievalFailure(claim: Claim, retryable: bool, detail: string) returns (ok: bool)
      requires config.Valid()
      modifies this
      ensures var tx := Steps.HandleRetrievalFailure(config, old(View()), claim, retryable, detail);
              View() == Steps.After(tx, old(View())) && ok == tx.Done?
    {
      if submission.None? || !ValidCurrentClaim(submission.value, claim, now)
         || submission.value.retrievalEgress.None? || claim.retryCount < 0
      {
        return false;
      }
      if retryable {
        var delay := RetryDelay(claim.retryCount, config.maximumRetryDelay);
        ok := Release(claim, now + delay, None, true);
        return;
      }
      var saved := View();
      if !ClaimGraph(saved, submission.value) {
        return false;
      }
      ok := CloseRecovery(submission.value, RetrievalFailed(detail));
      if !ok {
        Rollback(saved);
      }
    }

    method CommitBudget(actual: Settlement) returns (ok: bool)
      modifies this
      ensures var tx := Steps.CommitBudget(old(View()), actual);
              ok == tx.Done? && (if ok then View() == tx.db else View() == old(View()))
    {
      if budget.None? || budget.value.state != Uncertain || budget.value.reconciledAt.None?
         || actual.amounts.runs != 1 || actual.cachedInputTokens > actual.amounts.inputTokens || !Steps.Storable(actual)
      {
        return false;
      }
      usageEntries := usageEntries + [actual];
      budget := Some(budget.value.(state := Committed, actual := Some(actual), reconciledAt := Some(now)));
      return true;
    }

    method SettleReceipts(s: Submission, matched: bool, status: ProviderStatus) returns (ok: bool)
      modifies this`receipts
      ensures var tx := Steps.SettleReceipts(old(View()), s, matched, status);
              ok == tx.Done? && (ok ==> View() == tx.db)
    {
      if matched {
        ok := FinishMatched(s, Processed, None);
        if !ok {
          return false;
        }
      }
      ok := CloseDuplicateReceipts(s, status);
    }

    method CommitGraph(s: Submission, matched: bool, status: ProviderStatus)
      returns (ok: bool, outcome: Steps.TerminalOutcome)
      requires status.IsTerminal()
      modifies this
      ensures var tx := Steps.CommitGraph(old(View()), s, matched, status);
              ok == tx.Done? && (ok ==> View() == tx.db && outcome == tx.value)
    {
      outcome := Steps.TerminalResult(s.binding, status);
      if !Parked(run, s) || run.checkpoint.Some? {
        return false, outcome;
      }
      var (runState, submissionState) := Steps.TerminalStates(status);
      var message := Steps.TerminalMessage(s.binding, status);
      var reason := Steps.TerminalReason(status);
      run := run.(state := runState, reason := reason, checkpoint := message, version := run.version + 1);
      submission := Some(s.(
        providerStatus := Some(status), state := submissionState, reason := reason, owner := None,
        leaseExpiresAt := None, nextAttemptAt := None, reconciledAt := Some(now), terminalMessage := message,
        version := s.version + 1));
      assert View() == Steps.TerminalRows(old(View()), s, status);
      if outcomes != [] {
        return false, outcome;
      }
      ok := SettleReceipts(s, matched, status);
      if !ok {
        return false, outcome;
      }
      outcomes := [Outcome(runState, ProviderOutcome(status), s.responseId, now)];
      return true, outcome;
    }

    method CommitOnce(observation: Observation, actual: Settlement) returns (ok: bool, outcome: Steps.TerminalOutcome)
      requires observation.status.IsTerminal()
      modifies this
      ensures var tx := Steps.CommitOnce(old(View()), observation, actual);
              View() == Steps.After(tx, old(View())) && ok == tx.Done? && (ok ==> outcome == tx.value)
    {
      outcome := Steps.TerminalRecovery;
      if submission.None? || !ValidCurrentClaim(submission.value, observation.claim, now)
         || !ClaimGraph(View(), submission.value)
      {
        return false, outcome;
      }
      var saved, current := View(), submission.value;
      var matchedOk, matched := MatchReceipt(current);
      if matchedOk && matched.Some? && matched.value.kind != observation.status {
        ok := CloseRecovery(current, TerminalReceiptConflict);
      } else if matchedOk {
        ok := CommitBudget(actual);
        if ok {
          ok, outcome := CommitGraph(current, matched.Some?, observation.status);
        }
      } else {
        ok := false;
      }
      if !ok {
        Rollback(saved);
      }
    }

    /** `commit`: an already settled submission is only compared with the observation. */
    method Commit(observation: Observation, priced: Amounts) returns (ok: bool, outcome: Steps.TerminalOutcome)
      modifies this
      ensures var tx := Steps.Commit(old(View()), observation, priced);
              View() == Steps.After(tx, old(View())) && ok == tx.Done? && (ok ==> outcome == tx.value)
    {
      outcome := Steps.AlreadyReconciled;
      if !observation.status.IsTerminal() || observation.usage.None? || submission.None? || budget.None?
         || !Steps.SameSubmission(submission.value, observation.claim)
         || !BudgetBound(budget.value, observation.claim.binding)
      {
        return false, outcome;
      }
      var usage := observation.usage.value;
      if priced.inputTokens != usage.inputTokens || priced.outputTokens != usage.outputTokens
         || priced.toolUnits != 0 || priced.imageUnits != 0 || priced.runs != 1
      {
        return false, outcome;
      }
      var actual := Settlement(priced, usage.cachedInputTokens);
      if Steps.IsSettled(submission.value) {
        return Steps.ValidReplay(View(), observation, actual), outcome;
      }
      ok, outcome := CommitOnce(observation, actual);
    }
  }
}
