/** The reconciliation protocol as a state machine over its transactions, clock ticks and webhook
    deliveries, and the invariant every one of them keeps. */
module BackgroundInvariant {
  import opened Wrappers
  import opened BackgroundRows
  import opened BackgroundSteps

  /** Anything that can happen to the database. Workers may present any claim or observation value,
      however old. `DoCommitOnce` is a commit whose first, unprotected read came earlier. */
  datatype Action =
    | Tick(seconds: nat)
    | Webhook(receipt: Receipt, position: nat)
    | DoClaim(worker: string)
    | DoHeartbeat(claim: Claim)
    | DoBind(claim: Claim, decision: nat)
    | DoCloseExpired
    | DoReleaseBefore(claim: Claim, delay: int)
    | DoReleaseNonterminal(observation: Observation)
    | DoFailure(claim: Claim, retryable: bool, detail: string)
    | DoCommit(observation: Observation, priced: Amounts)
    | DoCommitOnce(observation: Observation, actual: Settlement)

  /** Insert-if-absent of a verified webhook event, at whatever place its timestamps sort it. */
  function Deliver(db: Db, r: Receipt, position: nat): (after: Db)
    ensures SameButReceipts(after, db)
  {
    if (exists k :: 0 <= k < |db.receipts| && db.receipts[k].id == r.id) || position > |db.receipts| then db
    else
      var arrived := if r.kind.IsTerminal()
                     then r.(bound := false, state := PendingReconciliation, reason := None, processedAt := None)
                   else r.(bound := false, state := Ignored);
      db.(receipts := db.receipts[..position] + [arrived] + db.receipts[position..])
  }

  function Step(c: Config, db: Db, a: Action): Db
    requires c.Valid()
  {
    match a
    case Tick(seconds) => db.(now := db.now + seconds)
    case Webhook(receipt, position) => Deliver(db, receipt, position)
    case DoClaim(worker) => After(ClaimOnce(c, db, worker), db)
    case DoHeartbeat(claim) => After(HeartbeatOnce(c, db, claim), db)
    case DoBind(claim, decision) => After(BindRetrievalEgress(db, claim, decision), db)
    case DoCloseExpired => After(CloseExpiredOnce(c, db), db)
    case DoReleaseBefore(claim, delay) => After(ReleaseBeforeRetrieval(c, db, claim, delay), db)
    case DoReleaseNonterminal(o) => After(ReleaseNonterminal(c, db, o), db)
    case DoFailure(claim, retryable, detail) => After(HandleRetrievalFailure(c, db, claim, retryable, detail), db)
    case DoCommit(o, priced) => After(Commit(db, o, priced), db)
    case DoCommitOnce(o, actual) => if o.status.IsTerminal() then After(CommitOnce(db, o, actual), db) else db
  }

  function Execute(c: Config, db: Db, actions: seq<Action>): Db
    requires c.Valid()
    decreases |actions|
  {
    if actions == [] then db else Execute(c, Step(c, db, actions[0]), actions[1..])
  }

  // ---------------------------------------------------------------------------------------------
  // The invariant
  // ---------------------------------------------------------------------------------------------

  predicate CleanReceipt(r: Receipt) {
    match r.state
    case PendingReconciliation => ValidReceipt(r, PendingReconciliation, false)
    case MatchedPending => ValidReceipt(r, MatchedPending, true)
    case Processed => r.bound && r.processedAt.Some?
    case _ => true
  }

  predicate CleanReceipts(rs: seq<Receipt>) {
    forall i :: 0 <= i < |rs| ==> CleanReceipt(rs[i])
  }

  /** A row the provider is still working for: the union of what the validators ask, and the pacing
      facts that bound the number of claims. */
  predicate LiveRow(c: Config, s: Submission, now: int) {
    && ValidAcceptedRow(c, s)
    && s.submittedAt.value <= now
    && s.submittedAt.value + s.generation <= s.nextAttemptAt.value
    && s.nextAttemptAt.value <= s.deadline.value
    && (0 < s.generation ==> s.submittedAt.value + s.generation - 1 <= now)
    && match s.state {
         case WaitingProvider =>
           && s.owner.None? && s.leaseExpiresAt.None? && s.retrievalEgress.None?
           && (s.generation == 0 <==> s.retryCount == 0)
         case Reconciling =>
           && 0 < s.generation && s.owner.Some? && c.validWorker(s.owner.value)
           && s.leaseExpiresAt == s.nextAttemptAt
           && s.retryCount < s.generation
         case _ => false
       }
  }

  /** The graph of a submission that is over, together with its verdict. */
  predicate ClosedGraph(db: Db, s: Submission, runState: RunState) {
    && s.responseId.Some? && s.submittedAt.Some? && s.deadline.Some? && 1 <= s.version
    && 0 <= s.generation <= s.deadline.value - s.submittedAt.value
    && s.owner.None? && s.leaseExpiresAt.None? && s.nextAttemptAt.None?
    && db.run.state == runState
    && db.run.attemptId == s.binding.attemptId && db.run.leaseGeneration == s.binding.leaseGeneration
    && db.run.lease.None? && db.run.nextAttemptAt.None?
    && |db.outcomes| == 1 && db.outcomes[0].finalState == runState && db.outcomes[0].responseId == s.responseId
    && Count(s.responseId, IsMatched, db.receipts) == 0
    && db.budget.Some? && BudgetBound(db.budget.value, s.binding) && db.budget.value.reconciledAt.Some?
  }

  /** Usage settled once, with this status and these amounts, and nothing left half done. */
  predicate Settled(db: Db, s: Submission, status: ProviderStatus, actual: Settlement)
    requires status.IsTerminal()
  {
    && ClosedGraph(db, s, TerminalStates(status).0)
    && s.state == TerminalStates(status).1 && s.providerStatus == Some(status)
    && s.reason == TerminalReason(status) && s.reconciledAt.Some?
    && s.terminalMessage == TerminalMessage(s.binding, status)
    && db.run.reason == TerminalReason(status) && db.run.checkpoint == TerminalMessage(s.binding, status)
    && db.budget.value.state == Committed && db.budget.value.actual == Some(actual)
    && db.usageEntries == [actual]
    && Count(s.responseId, IsProcessed, db.receipts) <= 1
    && forall i :: 0 <= i < |db.receipts| && IsProcessed(s.responseId, db.receipts[i]) ==> db.receipts[i].kind == status
  }

  predicate Recovered(db: Db, s: Submission) {
    && ClosedGraph(db, s, RunRecoveryRequired)
    && s.state == RecoveryRequired && s.reason.Some? && s.reconciledAt.None? && s.terminalMessage.None?
    && db.run.reason == s.reason && db.run.checkpoint.None? && db.outcomes[0].reason == s.reason.value
    && db.budget.value.state == Uncertain && db.budget.value.actual.None?
    && db.usageEntries == []
    && Count(s.responseId, IsProcessed, db.receipts) == 0
  }

  predicate Live(c: Config, db: Db, s: Submission) {
    && LiveRow(c, s, db.now)
    && ClaimGraph(db, s)
    && db.usageEntries == []
    && Count(s.responseId, IsMatched, db.receipts) <= 1
    && Count(s.responseId, IsProcessed, db.receipts) == 0
  }

  /** Holds of every submission the provider has acknowledged, whatever happens afterwards. */
  predicate Inv(c: Config, db: Db) {
    && CleanReceipts(db.receipts)
    && db.submission.Some?
    && var s := db.submission.value;
       match s.state
       case WaitingProvider => Live(c, db, s)
       case Reconciling => Live(c, db, s)
       case RecoveryRequired => Recovered(db, s)
       case Prepared => false
       case _ =>
         && s.providerStatus.Some? && s.providerStatus.value.IsTerminal()
         && db.budget.Some? && db.budget.value.actual.Some?
         && Settled(db, s, s.providerStatus.value, db.budget.value.actual.value)
  }

  // ---------------------------------------------------------------------------------------------
  // Counting receipts
  // ---------------------------------------------------------------------------------------------

  lemma {:induction false} CountUpdate(id: Option<string>, p: (Option<string>, Receipt) -> bool, rs: seq<Receipt>,
                                       i: nat, r: Receipt)
    requires i < |rs|
    ensures Count(id, p, rs[i := r])
         == Count(id, p, rs) - (if p(id, rs[i]) then 1 else 0) + (if p(id, r) then 1 else 0)
  {
    if i == 0 {
      assert rs[0 := r][1..] == rs[1..];
    } else {
      assert rs[i := r][1..] == rs[1..][i - 1 := r];
      CountUpdate(id, p, rs[1..], i - 1, r);
    }
  }

  lemma {:induction false} CountFirst(id: Option<string>, p: (Option<string>, Receipt) -> bool, rs: seq<Receipt>)
    ensures Count(id, p, rs) == 0 <==> First(id, p, rs) == |rs|
  {
    if rs != [] { CountFirst(id, p, rs[1..]); }
  }

  lemma {:induction false} CountInsert(id: Option<string>, p: (Option<string>, Receipt) -> bool, rs: seq<Receipt>,
                                       i: nat, r: Receipt)
    requires i <= |rs|
    ensures Count(id, p, rs[..i] + [r] + rs[i..]) == Count(id, p, rs) + (if p(id, r) then 1 else 0)
  {
    var inserted := rs[..i] + [r] + rs[i..];
    if i == 0 {
      assert inserted[1..] == rs;
    } else {
      assert inserted[1..] == rs[1..][..i - 1] + [r] + rs[1..][i - 1..];
      CountInsert(id, p, rs[1..], i - 1, r);
    }
  }

  /** Closing the duplicates leaves no pending receipt and touches neither the matched nor the processed ones. */
  lemma {:induction false} CountClosed(id: Option<string>, status: ProviderStatus, now: int, rs: seq<Receipt>)
    ensures var closed := CloseDuplicates(id, status, now, rs);
            && Count(id, IsMatched, closed) == Count(id, IsMatched, rs)
            && Count(id, IsProcessed, closed) == Count(id, IsProcessed, rs)
            && Count(id, IsPending, closed) == 0
  {
    if rs != [] {
      assert CloseDuplicates(id, status, now, rs)[1..] == CloseDuplicates(id, status, now, rs[1..]);
      CountClosed(id, status, now, rs[1..]);
    }
  }

  // ---------------------------------------------------------------------------------------------
  // Preservation, one transaction at a time
  // ---------------------------------------------------------------------------------------------

  /** A transaction that commits leaves the invariant; the others leave everything. */
  predicate Keeps<T>(c: Config, tx: Tx<T>) {
    tx.Done? ==> Inv(c, tx.db)
  }

  /** Matching binds at most one receipt and reports exactly the bound one. */
  lemma MatchKeeps(db: Db, s: Submission)
    requires s.responseId.Some? && CleanReceipts(db.receipts) && Count(s.responseId, IsMatched, db.receipts) <= 1
    ensures var tx := MatchReceipt(db, s);
            && tx.Done? && SameButReceipts(tx.db, db) && CleanReceipts(tx.db.receipts)
            && Count(s.responseId, IsMatched, tx.db.receipts) == (if tx.value.Some? then 1 else 0)
            && Count(s.responseId, IsProcessed, tx.db.receipts) == Count(s.responseId, IsProcessed, db.receipts)
            && var i := First(s.responseId, IsMatched, tx.db.receipts);
               tx.value == if i < |tx.db.receipts| then Some(tx.db.receipts[i]) else None
  {
    var id := s.responseId;
    CountFirst(id, IsMatched, db.receipts);
    var pending := First(id, IsPending, db.receipts);
    if First(id, IsMatched, db.receipts) == |db.receipts| && pending < |db.receipts| {
      var receipt := db.receipts[pending].(state := MatchedPending, bound := true);
      var rs := db.receipts[pending := receipt];
      CountUpdate(id, IsMatched, db.receipts, pending, receipt);
      CountUpdate(id, IsProcessed, db.receipts, pending, receipt);
      CountFirst(id, IsMatched, rs);
      assert MatchReceipt(db, s).db.receipts == rs;
    }
  }

  /** Finishing takes the matched receipt, if there is one, out of the matched state. */
  lemma FinishKeeps(db: Db, s: Submission, state: ReceiptState, reason: Option<ReasonCode>)
    requires s.responseId.Some? && CleanReceipts(db.receipts) && Count(s.responseId, IsMatched, db.receipts) <= 1
    requires state == Processed || state == ReceiptRecoveryRequired
    ensures var tx := FinishMatched(db, s, state, reason);
            && tx.Done? && SameButReceipts(tx.db, db) && CleanReceipts(tx.db.receipts)
            && Count(s.responseId, IsMatched, tx.db.receipts) == 0
            && Count(s.responseId, IsProcessed, tx.db.receipts)
               == Count(s.responseId, IsProcessed, db.receipts)
                  + (if state == Processed then Count(s.responseId, IsMatched, db.receipts) else 0)
  {
    var id := s.responseId;
    CountFirst(id, IsMatched, db.receipts);
    var i := First(id, IsMatched, db.receipts);
    if i < |db.receipts| {
      var receipt := db.receipts[i].(state := state, reason := reason, processedAt := Some(db.now));
      CountUpdate(id, IsMatched, db.receipts, i, receipt);
      CountUpdate(id, IsProcessed, db.receipts, i, receipt);
    }
  }

  lemma CloseRecoveryKeeps(c: Config, db: Db, s: Submission, reason: ReasonCode)
    requires CleanReceipts(db.receipts) && Live(c, db, s)
    ensures var tx := CloseRecovery(db, s, reason);
            && tx.Done? && Inv(c, tx.db) && Recovered(tx.db, RecoveredRow(s, reason))
            && tx.db.submission == Some(RecoveredRow(s, reason))
  {
    FinishKeeps(
      db.(submission := Some(RecoveredRow(s, reason)),
          run := db.run.(state := RunRecoveryRequired, reason := Some(reason), version := db.run.version + 1),
          outcomes := [Outcome(RunRecoveryRequired, reason, s.responseId, db.now)]),
      s, ReceiptRecoveryRequired, Some(reason));
  }

  lemma ClaimKeeps(c: Config, db: Db, worker: string)
    requires c.Valid() && Inv(c, db)
    ensures Keeps(c, ClaimOnce(c, db, worker))
  {
    var tx := ClaimOnce(c, db, worker);
    if tx.Done? && Claimable(db) {
      var s := db.submission.value;
      var claimed := ClaimedRow(s, worker, Min(db.now + c.leaseTtl, s.deadline.value));
      MatchKeeps(db.(submission := Some(claimed)), claimed);
    }
  }

  lemma ReleaseKeeps(c: Config, db: Db, claim: Claim, eligibleAt: int, status: Option<ProviderStatus>, clearMarker: bool)
    requires c.Valid() && Inv(c, db) && Current(db, claim) && db.now < eligibleAt
    ensures Keeps(c, Release(c, db, claim, eligibleAt, status, clearMarker))
  {
    CloseRecoveryKeeps(c, db, db.submission.value, RetryExhausted);
    CloseRecoveryKeeps(c, db, db.submission.value, DeadlineExhausted);
  }

  lemma CommitOnceKeeps(c: Config, db: Db, observation: Observation, actual: Settlement)
    requires c.Valid() && Inv(c, db) && observation.status.IsTerminal()
    ensures Keeps(c, CommitOnce(db, observation, actual))
    ensures var tx := CommitOnce(db, observation, actual);
            tx.Done? && tx.value != TerminalRecovery ==>
              && IsSettled(tx.db.submission.value)
              && Settled(tx.db, tx.db.submission.value, observation.status, actual)
              && tx.db.submission.value.retrievalEgress.Some?
              && SameSubmission(tx.db.submission.value, observation.claim)
  {
    var tx := CommitOnce(db, observation, actual);
    if tx.Done? {
      var s := db.submission.value;
      MatchKeeps(db, s);
      var matched := MatchReceipt(db, s);
      if tx.value == TerminalRecovery {
        CloseRecoveryKeeps(c, matched.db, s, TerminalReceiptConflict);
      } else {
        CommitGraphKeeps(c, matched.db, s, matched.value, observation.status, actual);
      }
    }
  }

  lemma ClosedReceiptsAreClean(id: Option<string>, status: ProviderStatus, now: int, rs: seq<Receipt>)
    requires CleanReceipts(rs)
    ensures var closed := CloseDuplicates(id, status, now, rs);
            && CleanReceipts(closed)
            && forall k :: 0 <= k < |rs| && IsProcessed(id, closed[k]) ==> closed[k] == rs[k]
  {}

  lemma MatchedReceiptIsProcessed(db: Db, s: Submission, matched: Option<Receipt>, status: ProviderStatus)
    requires s.responseId.Some? && CleanReceipts(db.receipts)
    requires Count(s.responseId, IsMatched, db.receipts) <= 1 && Count(s.responseId, IsProcessed, db.receipts) == 0
    requires var i := First(s.responseId, IsMatched, db.receipts);
             matched == if i < |db.receipts| then Some(db.receipts[i]) else None
    requires matched.Some? ==> matched.value.kind == status
    ensures var tx := if matched.Some? then FinishMatched(db, s, Processed, None) else Done(db, ());
            && tx.Done? && SameButReceipts(tx.db, db) && CleanReceipts(tx.db.receipts)
            && Count(s.responseId, IsPending, tx.db.receipts) == Count(s.responseId, IsPending, db.receipts)
            && Count(s.responseId, IsMatched, tx.db.receipts) == 0
            && Count(s.responseId, IsProcessed, tx.db.receipts) <= 1
            && forall k :: 0 <= k < |tx.db.receipts| && IsProcessed(s.responseId, tx.db.receipts[k]) ==>
                 tx.db.receipts[k].kind == status
  {
    var id := s.responseId;
    CountFirst(id, IsMatched, db.receipts);
    CountFirst(id, IsProcessed, db.receipts);
    FinishKeeps(db, s, Processed, None);
    var i := First(id, IsMatched, db.receipts);
    if matched.Some? {
      CountUpdate(id, IsPending, db.receipts, i, FinishMatched(db, s, Processed, None).db.receipts[i]);
    }
  }

  /** The receipts a commit leaves: the matched one processed, the pending ones closed. It can close
      them exactly when there are not too many. */
  lemma ReceiptsSettle(db: Db, s: Submission, matched: Option<Receipt>, status: ProviderStatus)
    requires s.responseId.Some? && CleanReceipts(db.receipts)
    requires Count(s.responseId, IsMatched, db.receipts) <= 1 && Count(s.responseId, IsProcessed, db.receipts) == 0
    requires var i := First(s.responseId, IsMatched, db.receipts);
             matched == if i < |db.receipts| then Some(db.receipts[i]) else None
    requires matched.Some? ==> matched.value.kind == status
    ensures var tx := SettleReceipts(db, s, matched.Some?, status);
            && (tx.Done? <==> Count(s.responseId, IsPending, db.receipts) <= MAXIMUM_DUPLICATE_RECEIPTS)
            && (tx.Done? ==>
                  && SameButReceipts(tx.db, db) && CleanReceipts(tx.db.receipts)
                  && Count(s.responseId, IsMatched, tx.db.receipts) == 0
                  && Count(s.responseId, IsProcessed, tx.db.receipts) <= 1
                  && forall k :: 0 <= k < |tx.db.receipts| && IsProcessed(s.responseId, tx.db.receipts[k]) ==>
                       tx.db.receipts[k].kind == status)
  {
    MatchedReceiptIsProcessed(db, s, matched, status);
    var rs := (if matched.Some? then FinishMatched(db, s, Processed, None) else Done(db, ())).db.receipts;
    ClosedReceiptsAreClean(s.responseId, status, db.now, rs);
    CountClosed(s.responseId, status, db.now, rs);
  }

  lemma CommitGraphKeeps(c: Config, db: Db, s: Submission, matched: Option<Receipt>, status: ProviderStatus, actual: Settlement)
    requires CleanReceipts(db.receipts) && Live(c, db, s) && status.IsTerminal()
    requires var i := First(s.responseId, IsMatched, db.receipts);
             matched == if i < |db.receipts| then Some(db.receipts[i]) else None
    requires matched.Some? ==> matched.value.kind == status
    ensures var budgeted := CommitBudget(db, actual);
            budgeted.Done? ==>
              var tx := CommitGraph(budgeted.db, s, matched.Some?, status);
              && (tx.Done? <==> Count(s.responseId, IsPending, db.receipts) <= MAXIMUM_DUPLICATE_RECEIPTS)
              && (tx.Done? ==>
                    && tx.value == TerminalResult(s.binding, status)
                    && tx.db.submission == Some(TerminalRow(s, status, db.now))
                    && Settled(tx.db, TerminalRow(s, status, db.now), status, actual)
                    && CleanReceipts(tx.db.receipts))
  {
    var budgeted := CommitBudget(db, actual);
    if budgeted.Done? {
      ReceiptsSettle(TerminalRows(budgeted.db, s, status), s, matched, status);
    }
  }

  lemma CommitKeeps(c: Config, db: Db, observation: Observation, priced: Amounts)
    requires c.Valid() && Inv(c, db)
    ensures Keeps(c, Commit(db, observation, priced))
  {
    if observation.status.IsTerminal() && observation.usage.Some? {
      CommitOnceKeeps(c, db, observation, Settlement(priced, observation.usage.value.cachedInputTokens));
    }
  }

  lemma DeliverKeeps(c: Config, db: Db, r: Receipt, position: nat)
    requires Inv(c, db)
    ensures Inv(c, Deliver(db, r, position))
  {
    var id := db.submission.value.responseId;
    DeliveredReceipts(db, r, position, id);
    SameCountsKeep(c, db, Deliver(db, r, position).receipts);
  }

  /** A delivery is neither bound nor processed, and leaves the receipts that are. */
  lemma DeliveredReceipts(db: Db, r: Receipt, position: nat, id: Option<string>)
    requires CleanReceipts(db.receipts)
    ensures var rs := Deliver(db, r, position).receipts;
            && CleanReceipts(rs) && SameCounts(id, db.receipts, rs)
            && forall k :: 0 <= k < |rs| && IsProcessed(id, rs[k]) ==> rs[k] in db.receipts
  {
    var after := Deliver(db, r, position);
    if after != db {
      CountInsert(id, IsMatched, db.receipts, position, after.receipts[position]);
      CountInsert(id, IsProcessed, db.receipts, position, after.receipts[position]);
      forall k | 0 <= k < |after.receipts| && k != position ensures after.receipts[k] in db.receipts {
        assert after.receipts[k] == db.receipts[if k < position then k else k - 1];
      }
    }
  }

  predicate SameCounts(id: Option<string>, rs: seq<Receipt>, rs': seq<Receipt>) {
    Count(id, IsMatched, rs') == Count(id, IsMatched, rs) && Count(id, IsProcessed, rs') == Count(id, IsProcessed, rs)
  }

  /** Of the receipts the invariant asks no more than this. */
  lemma SameCountsKeep(c: Config, db: Db, rs: seq<Receipt>)
    requires Inv(c, db) && CleanReceipts(rs)
    requires var id := db.submission.value.responseId;
             && SameCounts(id, db.receipts, rs)
             && forall k :: 0 <= k < |rs| && IsProcessed(id, rs[k]) ==> rs[k] in db.receipts
    ensures Inv(c, db.(receipts := rs))
  {}

  lemma HeartbeatKeeps(c: Config, db: Db, claim: Claim)
    requires c.Valid() && Inv(c, db)
    ensures Keeps(c, HeartbeatOnce(c, db, claim))
  {}

  lemma BindKeeps(c: Config, db: Db, claim: Claim, decision: nat)
    requires c.Valid() && Inv(c, db)
    ensures Keeps(c, BindRetrievalEgress(db, claim, decision))
  {}

  lemma CloseExpiredKeeps(c: Config, db: Db)
    requires c.Valid() && Inv(c, db)
    ensures Keeps(c, CloseExpiredOnce(c, db))
  {
    if Expired(db) { CloseRecoveryKeeps(c, db, db.submission.value, DeadlineExpired); }
  }

  lemma ReleaseBeforeKeeps(c: Config, db: Db, claim: Claim, delay: int)
    requires c.Valid() && Inv(c, db)
    ensures Keeps(c, ReleaseBeforeRetrieval(c, db, claim, delay))
  {
    if Current(db, claim) && 1 <= delay { ReleaseKeeps(c, db, claim, db.now + delay, None, false); }
  }

  lemma ReleaseNonterminalKeeps(c: Config, db: Db, o: Observation)
    requires c.Valid() && Inv(c, db)
    ensures Keeps(c, ReleaseNonterminal(c, db, o))
  {
    if Current(db, o.claim) && 0 <= o.claim.retryCount {
      ReleaseKeeps(c, db, o.claim, db.now + RetryDelay(o.claim.retryCount, c.maximumRetryDelay), Some(o.status), true);
    }
  }

  lemma FailureKeeps(c: Config, db: Db, claim: Claim, retryable: bool, detail: string)
    requires c.Valid() && Inv(c, db)
    ensures Keeps(c, HandleRetrievalFailure(c, db, claim, retryable, detail))
  {
    if Current(db, claim) && 0 <= claim.retryCount {
      if retryable {
        ReleaseKeeps(c, db, claim, db.now + RetryDelay(claim.retryCount, c.maximumRetryDelay), None, true);
      } else {
        CloseRecoveryKeeps(c, db, db.submission.value, RetrievalFailed(detail));
      }
    }
  }

  /** The steps that end a claim. */
  predicate Ends(a: Action) {
    a.DoCommit? || a.DoCommitOnce? || a.DoReleaseBefore? || a.DoReleaseNonterminal? || a.DoFailure?
  }

  lemma EndKeeps(c: Config, db: Db, a: Action)
    requires c.Valid() && Inv(c, db) && Ends(a)
    ensures Inv(c, Step(c, db, a))
  {
    match a
    case DoCommit(o, priced) => CommitKeeps(c, db, o, priced);
    case DoCommitOnce(o, actual) => if o.status.IsTerminal() { CommitOnceKeeps(c, db, o, actual); }
    case DoReleaseBefore(claim, delay) => ReleaseBeforeKeeps(c, db, claim, delay);
    case DoReleaseNonterminal(o) => ReleaseNonterminalKeeps(c, db, o);
    case DoFailure(claim, retryable, detail) => FailureKeeps(c, db, claim, retryable, detail);
  }

  lemma OtherStepKeeps(c: Config, db: Db, a: Action)
    requires c.Valid() && Inv(c, db) && !Ends(a)
    ensures Inv(c, Step(c, db, a))
  {
    match a
    case Tick(_) =>
    case Webhook(receipt, position) => DeliverKeeps(c, db, receipt, position);
    case DoClaim(worker) => ClaimKeeps(c, db, worker);
    case DoHeartbeat(claim) => HeartbeatKeeps(c, db, claim);
    case DoBind(claim, decision) => BindKeeps(c, db, claim, decision);
    case DoCloseExpired => CloseExpiredKeeps(c, db);
  }

  lemma StepKeeps(c: Config, db: Db, a: Action)
    requires c.Valid() && Inv(c, db)
    ensures Inv(c, Step(c, db, a))
  {
    if Ends(a) {
      EndKeeps(c, db, a);
    } else {
      OtherStepKeeps(c, db, a);
    }
  }

  /** Over every interleaving, the invariant stays. */
  lemma {:induction false} RunKeeps(c: Config, db: Db, actions: seq<Action>)
    requires c.Valid() && Inv(c, db)
    ensures Inv(c, Execute(c, db, actions))
    decreases |actions|
  {
    if actions != [] {
      StepKeeps(c, db, actions[0]);
      RunKeeps(c, Step(c, db, actions[0]), actions[1..]);
    }
  }
}
