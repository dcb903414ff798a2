/** Receipts, the terminal commit and its exact replay. */
module BackgroundSettlement {
  import opened Wrappers
  import opened BackgroundRows
  import opened BackgroundSteps
  import opened BackgroundInvariant

  // ---------------------------------------------------------------------------------------------
  // Receipts
  // ---------------------------------------------------------------------------------------------

  /** Over every run: one matched receipt at most and only while the submission is live; one processed
      receipt at most, and it agrees with the status that was settled. */
  lemma ReceiptsStayConsistent(c: Config, db: Db, actions: seq<Action>)
    requires c.Valid() && Inv(c, db)
    ensures var after := Execute(c, db, actions);
            && after.submission.Some?
            && var s := after.submission.value;
            && Count(s.responseId, IsMatched, after.receipts) <= (if IsLive(s) then 1 else 0)
            && Count(s.responseId, IsProcessed, after.receipts) <= (if IsSettled(s) then 1 else 0)
            && forall r :: r in after.receipts && IsProcessed(s.responseId, r) ==> s.providerStatus == Some(r.kind)
  {
    RunKeeps(c, db, actions);
    var after := Execute(c, db, actions);
    var s := after.submission.value;
    CountFirst(s.responseId, IsProcessed, after.receipts);
  }

  /** Usage a reservation for one run can be settled with. */
  predicate Payable(actual: Settlement) {
    actual.amounts.runs == 1 && actual.cachedInputTokens <= actual.amounts.inputTokens && Storable(actual)
  }

  /** What committing a current claim does, in full: a receipt that disagrees sends the graph to
      recovery with the budget unsettled; otherwise the graph settles, provided that besides the receipt
      that is bound no more than the fixed number of duplicates is waiting. */
  lemma CommitVerdict(c: Config, db: Db, o: Observation, actual: Settlement)
    requires c.Valid() && Inv(c, db) && o.status.IsTerminal() && Current(db, o.claim) && Payable(actual)
    ensures var s := db.submission.value;
            var matched := MatchReceipt(db, s);
            var tx := CommitOnce(db, o, actual);
            && matched.Done?
            && if matched.value.Some? && matched.value.value.kind != o.status then
                 && tx.Done? && tx.value == TerminalRecovery
                 && tx.db.submission.Some? && Recovered(tx.db, tx.db.submission.value)
                 && tx.db.submission.value.reason == Some(TerminalReceiptConflict)
                 && tx.db.budget == db.budget && tx.db.usageEntries == []
               else
                 && (tx.Done? <==> Count(s.responseId, IsMatched, db.receipts) + Count(s.responseId, IsPending, db.receipts)
                                   <= 1 + MAXIMUM_DUPLICATE_RECEIPTS)
                 && (tx.Done? ==> tx.value == TerminalResult(s.binding, o.status)
                                  && tx.db.submission.Some?
                                  && Settled(tx.db, tx.db.submission.value, o.status, actual))
  {
    var s := db.submission.value;
    MatchKeeps(db, s);
    var matched := MatchReceipt(db, s);
    if matched.value.Some? && matched.value.value.kind != o.status {
      CloseRecoveryKeeps(c, matched.db, s, TerminalReceiptConflict);
      FinishKeeps(
        matched.db.(submission := Some(RecoveredRow(s, TerminalReceiptConflict)),
            run := db.run.(state := RunRecoveryRequired, reason := Some(TerminalReceiptConflict), version := db.run.version + 1),
            outcomes := [Outcome(RunRecoveryRequired, TerminalReceiptConflict, s.responseId, db.now)]),
        s, ReceiptRecoveryRequired, Some(TerminalReceiptConflict));
    } else {
      CommitGraphKeeps(c, matched.db, s, matched.value, o.status, actual);
      MatchMovesOne(db, s);
    }
  }

  /** Matching turns at most one pending receipt into the bound one. */
  lemma MatchMovesOne(db: Db, s: Submission)
    requires s.responseId.Some? && CleanReceipts(db.receipts) && Count(s.responseId, IsMatched, db.receipts) <= 1
    ensures var matched := MatchReceipt(db, s);
            && matched.Done?
            && (Count(s.responseId, IsPending, matched.db.receipts) <= MAXIMUM_DUPLICATE_RECEIPTS
                <==> Count(s.responseId, IsMatched, db.receipts) + Count(s.responseId, IsPending, db.receipts)
                     <= 1 + MAXIMUM_DUPLICATE_RECEIPTS)
  {
    var id := s.responseId;
    MatchKeeps(db, s);
    CountFirst(id, IsMatched, db.receipts);
    CountFirst(id, IsPending, db.receipts);
    var pending := First(id, IsPending, db.receipts);
    if Count(id, IsMatched, db.receipts) == 0 && pending < |db.receipts| {
      CountUpdate(id, IsPending, db.receipts, pending, db.receipts[pending].(state := MatchedPending, bound := true));
    }
  }

  // ---------------------------------------------------------------------------------------------
  // A run that ends with a commit blocked by agreeing receipts
  // ---------------------------------------------------------------------------------------------

  function Delivery(i: nat): Receipt {
    Receipt(i, ResponseCompleted, Some("resp_1"), false, PendingReconciliation, None, None)
  }

  function PendingReceipts(n: nat): (rs: seq<Receipt>)
    ensures |rs| == n
  {
    seq(n, i requires 0 <= i < n => Delivery(i))
  }

  lemma {:induction false} CountAll(id: Option<string>, p: (Option<string>, Receipt) -> bool, rs: seq<Receipt>, holds: bool)
    requires forall i :: 0 <= i < |rs| ==> p(id, rs[i]) == holds
    ensures Count(id, p, rs) == if holds then |rs| else 0
  {
    if rs != [] { CountAll(id, p, rs[1..], holds); }
  }

  /** A submission the provider has just acknowledged. */
  const JUST_ACCEPTED: Db :=
    Db(10,
       Some(Submission(Binding("s", 1, 1), WaitingProvider, 1, Some(true), Some("resp_1"), Some(Queued), Some(5), Some(5),
                       None, 0, None, Some(5), 0, Some(100), None, None, None, None, 1)),
       Run(RunWaitingProvider, 1, 1, None, None, None, None, 2),
       Some(Budget(1, 1, Uncertain, Some(4), None)), [], [], [])

  function Expiry(c: Config): int { Min(10 + c.leaseTtl, 100) }

  /** The same submission claimed and about to be retrieved, in front of `n` agreeing webhook deliveries. */
  function Crowded(c: Config, n: nat): Db {
    JUST_ACCEPTED.(
      submission := Some(Submission(Binding("s", 1, 1), Reconciling, 1, Some(true), Some("resp_1"), Some(Queued), Some(5),
                                    Some(5), Some("worker"), 1, Some(Expiry(c)), Some(Expiry(c)), 0, Some(100), None,
                                    Some(7), None, None, 3)),
      receipts := PendingReceipts(n))
  }

  function FirstClaim(c: Config): Claim {
    Claim(Binding("s", 1, 1), Some(true), Some("resp_1"), Some(5), "worker", 1, Expiry(c), 2, 0, 100, None)
  }

  function Deliveries(n: nat): seq<Action> {
    if n == 0 then [] else Deliveries(n - 1) + [Webhook(Delivery(n - 1), n - 1)]
  }

  lemma {:induction false} ExecuteThen(c: Config, db: Db, actions: seq<Action>, last: Action)
    requires c.Valid()
    ensures Execute(c, db, actions + [last]) == Step(c, Execute(c, db, actions), last)
    decreases |actions|
  {
    if actions == [] {
      assert ([] + [last])[1..] == [];
    } else {
      assert (actions + [last])[1..] == actions[1..] + [last];
      ExecuteThen(c, Step(c, db, actions[0]), actions[1..], last);
    }
  }

  lemma {:induction false} DeliveriesCrowd(c: Config, n: nat)
    requires c.Valid()
    ensures Execute(c, Crowded(c, 0), Deliveries(n)) == Crowded(c, n)
  {
    if n == 0 {
    } else {
      DeliveriesCrowd(c, n - 1);
      ExecuteThen(c, Crowded(c, 0), Deliveries(n - 1), Webhook(Delivery(n - 1), n - 1));
      assert PendingReceipts(n - 1)[..n - 1] + [Delivery(n - 1)] + PendingReceipts(n - 1)[n - 1..] == PendingReceipts(n);
    }
  }

  /** A worker claims the row and binds its retrieval, and then the deliveries arrive. */
  function CrowdingRun(c: Config, n: nat): seq<Action> {
    [DoClaim("worker")] + ([DoBind(FirstClaim(c), 7)] + Deliveries(n))
  }

  lemma CrowdedIsReached(c: Config, n: nat)
    requires c.Valid() && c.validWorker("worker")
    ensures Inv(c, JUST_ACCEPTED) && Execute(c, JUST_ACCEPTED, CrowdingRun(c, n)) == Crowded(c, n)
  {
    var run := CrowdingRun(c, n);
    var claimed := Step(c, JUST_ACCEPTED, DoClaim("worker"));
    assert run[1..] == [DoBind(FirstClaim(c), 7)] + Deliveries(n);
    assert run[1..][1..] == Deliveries(n);
    assert ClaimOnce(c, JUST_ACCEPTED, "worker").value == Some(FirstClaim(c));
    assert Step(c, claimed, DoBind(FirstClaim(c), 7)) == Crowded(c, 0);
    DeliveriesCrowd(c, n);
  }

  lemma CrowdedCounts(n: nat)
    ensures Count(Some("resp_1"), IsPending, PendingReceipts(n)) == n
    ensures Count(Some("resp_1"), IsMatched, PendingReceipts(n)) == 0
    ensures Count(Some("resp_1"), IsProcessed, PendingReceipts(n)) == 0
    ensures 0 < n ==> First(Some("resp_1"), IsPending, PendingReceipts(n)) == 0
    ensures First(Some("resp_1"), IsMatched, PendingReceipts(n)) == n
  {
    CountAll(Some("resp_1"), IsPending, PendingReceipts(n), true);
    CountAll(Some("resp_1"), IsMatched, PendingReceipts(n), false);
    CountAll(Some("resp_1"), IsProcessed, PendingReceipts(n), false);
    CountFirst(Some("resp_1"), IsMatched, PendingReceipts(n));
  }

  function CrowdedObservation(c: Config): Observation {
    RetrievedObservation(FirstClaim(c).(version := 3, retrievalEgress := Some(7)), ResponseCompleted, Some(Usage(3, 2, 1)))
  }

  /** The promise that a current terminal observation can always be committed is false: on the run that
      delivers more than sixty-five webhooks that all agree with it, every commit rolls back. */
  lemma AgreeingReceiptsCanBlockTheCommit(c: Config, n: nat)
    requires c.Valid() && c.validWorker("worker")
    ensures Inv(c, JUST_ACCEPTED)
    ensures var db := Execute(c, JUST_ACCEPTED, CrowdingRun(c, n));
            && Current(db, CrowdedObservation(c).claim)
            && (CommitOnce(db, CrowdedObservation(c), Settlement(Amounts(3, 2, 0, 0, 9, 1), 1)).Aborted? <==> 65 < n)
  {
    CrowdedIsReached(c, n);
    RunKeeps(c, JUST_ACCEPTED, CrowdingRun(c, n));
    CrowdedCounts(n);
    CommitVerdict(c, Crowded(c, n), CrowdedObservation(c), Settlement(Amounts(3, 2, 0, 0, 9, 1), 1));
  }

  // ---------------------------------------------------------------------------------------------
  // Replay
  // ---------------------------------------------------------------------------------------------

  /** Once the submission is over, only the clock and the inbox of receipts still move. */
  lemma ClosedStep(c: Config, db: Db, a: Action)
    requires c.Valid() && Inv(c, db) && !IsLive(db.submission.value)
    ensures var after := Step(c, db, a);
            after == db.(now := after.now, receipts := after.receipts)
            && (!a.Tick? && !a.Webhook? ==> after == db)
  {}

  lemma {:induction false} ClosedForever(c: Config, db: Db, actions: seq<Action>)
    requires c.Valid() && Inv(c, db) && !IsLive(db.submission.value)
    ensures var after := Execute(c, db, actions);
            after == db.(now := after.now, receipts := after.receipts)
    decreases |actions|
  {
    if actions != [] {
      ClosedStep(c, db, actions[0]);
      StepKeeps(c, db, actions[0]);
      ClosedForever(c, Step(c, db, actions[0]), actions[1..]);
    }
  }

  /** The two claims are for the same response of the same submission. */
  predicate SameResponse(a: Claim, b: Claim) {
    && a.binding == b.binding && a.providerStore == b.providerStore
    && a.responseId == b.responseId && a.providerCreatedAt == b.providerCreatedAt
  }

  /** After a commit has settled the graph, and after anything that happens later, presenting an
      observation again is recognised exactly when it is of the same response, status, usage and price;
      everything else is refused, and neither answer changes the database. */
  lemma ReplayIsExact(
      c: Config, db: Db, first: Observation, firstPrice: Amounts, actions: seq<Action>, o: Observation, price: Amounts)
    requires c.Valid() && Inv(c, db)
    requires var tx := Commit(db, first, firstPrice);
             tx.Done? && tx.value != TerminalRecovery && tx.value != AlreadyReconciled
    ensures var later := Execute(c, Commit(db, first, firstPrice).db, actions);
            && Commit(later, o, price)
               == if SameResponse(o.claim, first.claim)
                     && o.status == first.status && o.usage == first.usage && price == firstPrice
                  then Done(later, AlreadyReconciled) else Aborted
  {
    var settled := Commit(db, first, firstPrice).db;
    var actual := Settlement(firstPrice, first.usage.value.cachedInputTokens);
    CommitOnceKeeps(c, db, first, actual);
    ClosedForever(c, settled, actions);
    RunKeeps(c, settled, actions);
    var later := Execute(c, settled, actions);
    ReplayOnSettled(later, first.status, actual, o, price);
  }

  lemma ReplayOnSettled(db: Db, status: ProviderStatus, actual: Settlement, o: Observation, price: Amounts)
    requires db.submission.Some? && status.IsTerminal() && CleanReceipts(db.receipts)
    requires Settled(db, db.submission.value, status, actual) && db.submission.value.retrievalEgress.Some?
    requires actual.amounts.toolUnits == 0 && actual.amounts.imageUnits == 0 && actual.amounts.runs == 1
    ensures Commit(db, o, price)
         == if SameSubmission(db.submission.value, o.claim) && o.status == status && price == actual.amounts
               && o.usage == Some(Usage(actual.amounts.inputTokens, actual.amounts.outputTokens, actual.cachedInputTokens))
            then Done(db, AlreadyReconciled) else Aborted
  {}
}
