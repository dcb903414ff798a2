/** What the reconciliation protocol guarantees over every interleaving of workers, webhook
    deliveries and clock ticks. */
module BackgroundTheorems {
  import opened Wrappers
  import opened BackgroundRows
  import opened BackgroundSteps
  import opened BackgroundInvariant

  // ---------------------------------------------------------------------------------------------
  // Validators never refuse a row the protocol produced
  // ---------------------------------------------------------------------------------------------

  predicate Due(db: Db) {
    && db.submission.Some? && IsLive(db.submission.value)
    && db.submission.value.nextAttemptAt.Some? && db.submission.value.deadline.Some?
    && db.submission.value.nextAttemptAt.value <= db.now < db.submission.value.deadline.value
  }

  /** A claim is handed out exactly when a valid worker asks for a due row before the year-2038 limit
      of the query filter; the claim is then the one current claim. */
  lemma ClaimSucceedsExactlyWhenDue(c: Config, db: Db, worker: string)
    requires c.Valid() && Inv(c, db)
    ensures var tx := ClaimOnce(c, db, worker);
            && (tx.Done? <==> c.validWorker(worker) && db.now <= I32_MAX)
            && (tx.Done? && tx.value.Some? <==> c.validWorker(worker) && db.now <= I32_MAX && Due(db))
            && (tx.Done? && tx.value.None? ==> tx.db == db)
            && (tx.Done? && tx.value.Some? ==>
                  && Current(tx.db, tx.value.value)
                  && tx.value.value.generation == db.submission.value.generation + 1)
    ensures Due(db) ==> ValidClaimable(c, db.submission.value, db.now) && ClaimGraph(db, db.submission.value)
  {
    if c.validWorker(worker) && db.now <= I32_MAX && Due(db) {
      var s := db.submission.value;
      var claimed := ClaimedRow(s, worker, Min(db.now + c.leaseTtl, s.deadline.value));
      MatchKeeps(db.(submission := Some(claimed)), claimed);
    }
  }

  /** A live row past its deadline is always closable, up to the same limit of the query filter, and
      closing it recovers the whole graph. */
  lemma ExpiredRowIsClosed(c: Config, db: Db)
    requires c.Valid() && Inv(c, db)
    ensures var tx := CloseExpiredOnce(c, db);
            && (tx.Done? <==> db.now <= I32_MAX)
            && (tx.Done? ==> (tx.value == 1 <==> Expired(db)) && (tx.value == 0 ==> tx.db == db))
            && (tx.Done? && Expired(db) ==>
                  && ValidExpired(c, db.submission.value, db.now)
                  && Recovered(tx.db, tx.db.submission.value)
                  && tx.db.submission.value.reason == Some(DeadlineExpired))
  {
    if Expired(db) { CloseRecoveryKeeps(c, db, db.submission.value, DeadlineExpired); }
  }

  /** What a worker can do with a current claim turns on the retrieval marker: before it is set the lease
      can be renewed and the marker bound. */
  lemma MarkerDecidesRenewal(c: Config, db: Db, claim: Claim, decision: nat)
    requires c.Valid() && Inv(c, db) && Current(db, claim)
    ensures HeartbeatOnce(c, db, claim).Done? <==> claim.retrievalEgress.None?
    ensures BindRetrievalEgress(db, claim, decision).Done? <==> claim.retrievalEgress.None?
  {}

  /** Afterwards only an observation or a failure moves the row. */
  lemma MarkerDecidesRetrieval(c: Config, db: Db, claim: Claim, o: Observation, retryable: bool, detail: string)
    requires c.Valid() && Inv(c, db) && Current(db, claim) && !o.status.IsTerminal()
    ensures o.claim == claim ==> ReleaseNonterminal(c, db, o).Done?
    ensures HandleRetrievalFailure(c, db, claim, retryable, detail).Done? <==> claim.retrievalEgress.Some?
  {
    CloseRecoveryKeeps(c, db, db.submission.value, RetryExhausted);
    CloseRecoveryKeeps(c, db, db.submission.value, DeadlineExhausted);
    CloseRecoveryKeeps(c, db, db.submission.value, RetrievalFailed(detail));
  }

  /** Giving the claim back unused is refused once the marker is set, unless retries or time have run out. */
  lemma MarkerDecidesGivingBack(c: Config, db: Db, claim: Claim, delay: int)
    requires c.Valid() && Inv(c, db) && Current(db, claim) && 1 <= delay <= c.maximumRetryDelay
    ensures ReleaseBeforeRetrieval(c, db, claim, delay).Done?
            <==> claim.retrievalEgress.None? || c.maximumRetries <= claim.retryCount || claim.deadline <= db.now + delay
  {
    CloseRecoveryKeeps(c, db, db.submission.value, RetryExhausted);
    CloseRecoveryKeeps(c, db, db.submission.value, DeadlineExhausted);
  }

  // ---------------------------------------------------------------------------------------------
  // Lockstep
  // ---------------------------------------------------------------------------------------------

  /** Submission, run, outcome and budget always tell the same story. */
  lemma Lockstep(c: Config, db: Db, actions: seq<Action>)
    requires c.Valid() && Inv(c, db)
    ensures var after := Execute(c, db, actions);
            && after.submission.Some? && after.budget.Some?
            && var s := after.submission.value;
            && (IsLive(s) <==> after.run.state == RunWaitingProvider)
            && (s.state == Completed <==> after.run.state == RunCompleted)
            && (s.state == Failed <==> after.run.state == RunFailed)
            && (s.state == Cancelled <==> after.run.state == RunCancelled)
            && (s.state == RecoveryRequired <==> after.run.state == RunRecoveryRequired)
            && |after.outcomes| == (if after.run.state == RunWaitingProvider then 0 else 1)
            && (after.budget.value.state == (if IsSettled(s) then Committed else Uncertain))
            && |after.usageEntries| == (if IsSettled(s) then 1 else 0)
  {
    RunKeeps(c, db, actions);
  }

  // ---------------------------------------------------------------------------------------------
  // Fencing
  // ---------------------------------------------------------------------------------------------

  /** The database and every claim value ever handed to a worker. */
  datatype World = World(db: Db, issued: seq<Claim>)

  function IssuedBy(c: Config, db: Db, a: Action): Option<Claim>
    requires c.Valid()
  {
    match a
    case DoClaim(worker) =>
      var tx := ClaimOnce(c, db, worker);
      if tx.Done? then tx.value else None
    case DoHeartbeat(claim) => Returned(HeartbeatOnce(c, db, claim))
    case DoBind(claim, decision) => Returned(BindRetrievalEgress(db, claim, decision))
    case _ => None
  }

  function StepWorld(c: Config, w: World, a: Action): World
    requires c.Valid()
  {
    var claim := IssuedBy(c, w.db, a);
    World(Step(c, w.db, a), if claim.Some? then w.issued + [claim.value] else w.issued)
  }

  function ExecuteWorld(c: Config, w: World, actions: seq<Action>): World
    requires c.Valid()
    decreases |actions|
  {
    if actions == [] then w else ExecuteWorld(c, StepWorld(c, w, actions[0]), actions[1..])
  }

  predicate Mirrors(claim: Claim, s: Submission) {
    && s.state == Reconciling && s.owner.Some? && s.leaseExpiresAt.Some? && s.deadline.Some?
    && claim == ClaimOf(s)
  }

  predicate Fenced(c: Config, w: World) {
    && Inv(c, w.db)
    && (forall i, j :: 0 <= i < j < |w.issued| ==> w.issued[i].version < w.issued[j].version)
    && forall i :: 0 <= i < |w.issued| ==>
         && w.issued[i].version <= w.db.submission.value.version
         && (w.issued[i].version == w.db.submission.value.version ==> Mirrors(w.issued[i], w.db.submission.value))
  }

  predicate SamePacing(s: Submission, s': Submission) {
    s'.deadline == s.deadline && s'.submittedAt == s.submittedAt && s'.version == s.version + 1
  }

  /** A release that leaves the row in the queue. */
  predicate Requeues(c: Config, db: Db, a: Action)
    requires c.Valid()
  {
    && (a.DoReleaseBefore? || a.DoReleaseNonterminal? || a.DoFailure?)
    && db.submission.Some? && Step(c, db, a).submission.Some?
    && db.submission.value.state == Reconciling && Step(c, db, a).submission.value.state == WaitingProvider
  }

  predicate Claims(c: Config, db: Db, a: Action)
    requires c.Valid()
  {
    a.DoClaim? && IssuedBy(c, db, a).Some?
  }

  /** The five things that can happen to the row: it stays, it is claimed, renewed, requeued or closed. */
  predicate RowMove(c: Config, db: Db, a: Action)
    requires c.Valid() && db.submission.Some?
  {
    && Step(c, db, a).submission.Some?
    && var s, s', issued := db.submission.value, Step(c, db, a).submission.value, IssuedBy(c, db, a);
    || (s' == s && issued.None? && !Requeues(c, db, a))
    || (&& Claims(c, db, a) && SamePacing(s, s') && Mirrors(issued.value, s')
        && IsLive(s) && s.nextAttemptAt.Some? && s.nextAttemptAt.value <= db.now
        && s'.generation == s.generation + 1 && s'.retryCount == s.retryCount
        && s'.nextAttemptAt.Some? && db.now < s'.nextAttemptAt.value)
    || (&& (a.DoHeartbeat? || a.DoBind?) && issued.Some? && SamePacing(s, s') && Mirrors(issued.value, s')
        && IsLive(s) && s'.generation == s.generation && s'.retryCount == s.retryCount
        && s'.nextAttemptAt.Some? && db.now < s'.nextAttemptAt.value)
    || (&& Requeues(c, db, a) && issued.None? && SamePacing(s, s')
        && s'.generation == s.generation && s'.retryCount == s.retryCount + 1
        && s'.nextAttemptAt.Some? && db.now < s'.nextAttemptAt.value)
    || (&& issued.None? && !Requeues(c, db, a) && SamePacing(s, s') && IsLive(s) && !IsLive(s')
        && s'.generation == s.generation && s'.retryCount == s.retryCount)
  }

  lemma ClaimMoves(c: Config, db: Db, worker: string)
    requires c.Valid() && db.submission.Some?
    ensures RowMove(c, db, DoClaim(worker))
  {}

  lemma RenewalMoves(c: Config, db: Db, a: Action)
    requires c.Valid() && db.submission.Some? && (a.DoHeartbeat? || a.DoBind?)
    ensures RowMove(c, db, a)
  {}

  lemma ClosesWith(db: Db, reason: ReasonCode)
    requires db.submission.Some?
    ensures var tx := CloseRecovery(db, db.submission.value, reason);
            tx.Done? ==> tx.db.submission == Some(RecoveredRow(db.submission.value, reason))
  {}

  lemma ReleaseMoves(c: Config, db: Db, claim: Claim, eligibleAt: int, status: Option<ProviderStatus>, clearMarker: bool)
    requires c.Valid() && db.submission.Some? && Current(db, claim) && db.now < eligibleAt
    ensures var tx := Release(c, db, claim, eligibleAt, status, clearMarker);
            tx.Done? ==>
              && tx.db.submission.Some?
              && var s, s' := db.submission.value, tx.db.submission.value;
              && SamePacing(s, s') && s'.generation == s.generation && s.state == Reconciling
              && (|| (s'.state == RecoveryRequired && s'.retryCount == s.retryCount)
                  || (s'.state == WaitingProvider && s'.retryCount == s.retryCount + 1
                      && s'.nextAttemptAt == Some(eligibleAt)))
  {
    ClosesWith(db, RetryExhausted);
    ClosesWith(db, DeadlineExhausted);
  }

  lemma ReleaseBeforeMoves(c: Config, db: Db, claim: Claim, delay: int)
    requires c.Valid() && db.submission.Some?
    ensures RowMove(c, db, DoReleaseBefore(claim, delay))
  {
    if 1 <= delay && Current(db, claim) { ReleaseMoves(c, db, claim, db.now + delay, None, false); }
  }

  lemma ReleaseNonterminalMoves(c: Config, db: Db, o: Observation)
    requires c.Valid() && db.submission.Some?
    ensures RowMove(c, db, DoReleaseNonterminal(o))
  {
    if Current(db, o.claim) && 0 <= o.claim.retryCount {
      ReleaseMoves(c, db, o.claim, db.now + RetryDelay(o.claim.retryCount, c.maximumRetryDelay), Some(o.status), true);
    }
  }

  lemma FailureMoves(c: Config, db: Db, claim: Claim, retryable: bool, detail: string)
    requires c.Valid() && db.submission.Some?
    ensures RowMove(c, db, DoFailure(claim, retryable, detail))
  {
    if !Current(db, claim) || db.submission.value.retrievalEgress.None? || claim.retryCount < 0 {
      assert Step(c, db, DoFailure(claim, retryable, detail)) == db;
    } else if retryable {
      ReleaseMoves(c, db, claim, db.now + RetryDelay(claim.retryCount, c.maximumRetryDelay), None, true);
    } else {
      ClosesWith(db, RetrievalFailed(detail));
    }
  }

  lemma CommitOnceMoves(c: Config, db: Db, o: Observation, actual: Settlement)
    requires c.Valid() && db.submission.Some? && o.status.IsTerminal()
    ensures var tx := CommitOnce(db, o, actual);
            tx.Done? ==>
              && tx.db.submission.Some?
              && var s, s' := db.submission.value, tx.db.submission.value;
              && SamePacing(s, s') && IsLive(s) && !IsLive(s')
              && s'.generation == s.generation && s'.retryCount == s.retryCount
  {}

  lemma CommitMoves(c: Config, db: Db, o: Observation, priced: Amounts)
    requires c.Valid() && db.submission.Some?
    ensures RowMove(c, db, DoCommit(o, priced))
  {
    if o.status.IsTerminal() && o.usage.Some? {
      CommitOnceMoves(c, db, o, Settlement(priced, o.usage.value.cachedInputTokens));
    }
  }

  lemma RowMoves(c: Config, db: Db, a: Action)
    requires c.Valid() && db.submission.Some?
    ensures RowMove(c, db, a)
  {
    match a
    case Tick(_) =>
    case Webhook(_, _) =>
    case DoClaim(worker) => ClaimMoves(c, db, worker);
    case DoHeartbeat(_) => RenewalMoves(c, db, a);
    case DoBind(_, _) => RenewalMoves(c, db, a);
    case DoCloseExpired => ClosesWith(db, DeadlineExpired);
    case DoReleaseBefore(claim, delay) => ReleaseBeforeMoves(c, db, claim, delay);
    case DoReleaseNonterminal(o) => ReleaseNonterminalMoves(c, db, o);
    case DoFailure(claim, retryable, detail) => FailureMoves(c, db, claim, retryable, detail);
    case DoCommit(o, priced) => CommitMoves(c, db, o, priced);
    case DoCommitOnce(o, actual) => if o.status.IsTerminal() { CommitOnceMoves(c, db, o, actual); }
  }

  lemma FencedStep(c: Config, w: World, a: Action)
    requires c.Valid() && Fenced(c, w)
    ensures Fenced(c, StepWorld(c, w, a))
  {
    StepKeeps(c, w.db, a);
    RowMoves(c, w.db, a);
  }

  lemma {:induction false} FencedRun(c: Config, w: World, actions: seq<Action>)
    requires c.Valid() && Fenced(c, w)
    ensures Fenced(c, ExecuteWorld(c, w, actions))
    decreases |actions|
  {
    if actions != [] {
      FencedStep(c, w, actions[0]);
      FencedRun(c, StepWorld(c, w, actions[0]), actions[1..]);
    }
  }

  /** Everything from an accepted row on: no claim has been handed out yet. */
  function FromAccepted(c: Config, db: Db, actions: seq<Action>): (w: World)
    requires c.Valid() && Inv(c, db)
    ensures Fenced(c, w)
  {
    assert Fenced(c, World(db, []));
    FencedRun(c, World(db, []), actions);
    ExecuteWorld(c, World(db, []), actions)
  }

  /** Of all claim values ever issued, over any run from an accepted row, at most one validates. */
  lemma AtMostOneClaimValidates(c: Config, db: Db, actions: seq<Action>)
    requires c.Valid() && Inv(c, db)
    ensures var after := ExecuteWorld(c, World(db, []), actions);
            forall i, j ::
              (0 <= i < |after.issued| && 0 <= j < |after.issued|
               && Current(after.db, after.issued[i]) && Current(after.db, after.issued[j])) ==> i == j
  {
    var after := FromAccepted(c, db, actions);
    forall i, j | 0 <= i < j < |after.issued|
      ensures !(Current(after.db, after.issued[i]) && Current(after.db, after.issued[j]))
    {
      assert after.issued[i].version < after.issued[j].version;
    }
  }

  /** Over any run from an accepted row, an issued claim that has stopped validating never validates again
      on any continuation of that run. */
  lemma SupersededClaimsStayDead(c: Config, db: Db, earlier: seq<Action>, later: seq<Action>, i: nat)
    requires c.Valid() && Inv(c, db)
    ensures var w := ExecuteWorld(c, World(db, []), earlier);
            var after := ExecuteWorld(c, w, later);
            i < |w.issued| && !Current(w.db, w.issued[i]) ==>
              i < |after.issued| && after.issued[i] == w.issued[i] && !Current(after.db, w.issued[i])
  {
    var w := FromAccepted(c, db, earlier);
    if i < |w.issued| && !Current(w.db, w.issued[i]) {
      DeadClaimsStayDead(c, w, later, i);
    }
  }

  lemma {:induction false} DeadClaimsStayDead(c: Config, w: World, actions: seq<Action>, i: nat)
    requires c.Valid() && Fenced(c, w) && i < |w.issued| && !Current(w.db, w.issued[i])
    ensures var after := ExecuteWorld(c, w, actions);
            i < |after.issued| && after.issued[i] == w.issued[i] && !Current(after.db, w.issued[i])
    decreases |actions|
  {
    if actions != [] {
      var a, claim := actions[0], w.issued[i];
      FencedStep(c, w, a);
      RowMoves(c, w.db, a);
      ClockMoves(c, w.db, a);
      var s := w.db.submission.value;
      if claim.version == s.version {
        assert w.db.now >= claim.leaseExpiresAt || w.db.now >= claim.deadline;
      }
      DeadClaimsStayDead(c, StepWorld(c, w, a), actions[1..], i);
    }
  }

  lemma ClockMoves(c: Config, db: Db, a: Action)
    requires c.Valid()
    ensures db.now <= Step(c, db, a).now
    ensures !a.Tick? ==> Step(c, db, a).now == db.now
  {}

  /** While some claim validates, neither another claim nor the expiry sweep takes the row. */
  lemma UnexpiredLeaseIsNeverTaken(c: Config, db: Db, claim: Claim, worker: string)
    requires c.Valid() && Inv(c, db) && Current(db, claim)
    ensures Step(c, db, DoClaim(worker)) == db && IssuedBy(c, db, DoClaim(worker)).None?
    ensures Step(c, db, DoCloseExpired) == db
  {}

  // ---------------------------------------------------------------------------------------------
  // Progress
  // ---------------------------------------------------------------------------------------------

  /** The seconds at which claims succeed along a run. */
  function ClaimTimes(c: Config, db: Db, actions: seq<Action>): seq<int>
    requires c.Valid()
    decreases |actions|
  {
    if actions == [] then []
    else
      (if Claims(c, db, actions[0]) then [db.now] else [])
      + ClaimTimes(c, Step(c, db, actions[0]), actions[1..])
  }

  function Requeued(c: Config, db: Db, actions: seq<Action>): nat
    requires c.Valid()
    decreases |actions|
  {
    if actions == [] then 0
    else (if Requeues(c, db, actions[0]) then 1 else 0) + Requeued(c, Step(c, db, actions[0]), actions[1..])
  }

  /** The bounds that the counters keep between the row at the start and the row at the end of a run. */
  predicate Paced(c: Config, s: Submission, s': Submission, claims: nat, requeues: nat) {
    && s.deadline.Some? && s.submittedAt.Some?
    && s'.generation == s.generation + claims
    && claims <= s.deadline.value - s.submittedAt.value - s.generation
    && s'.retryCount == s.retryCount + requeues
    && requeues <= (if IsLive(s) then c.maximumRetries - s.retryCount else 0)
  }

  lemma PaceAtRest(c: Config, db: Db)
    requires c.Valid() && Inv(c, db)
    ensures Paced(c, db.submission.value, db.submission.value, 0, 0)
  {}

  /** One step on the pacing of the row, with `t` the latest second at which a claim happened. */
  lemma PaceStep(c: Config, db: Db, a: Action, t: int)
    requires c.Valid() && Inv(c, db) && t <= db.now
    requires IsLive(db.submission.value) ==> t < db.submission.value.nextAttemptAt.value
    ensures var after, t' := Step(c, db, a), if Claims(c, db, a) then db.now else t;
            && Inv(c, after) && t' <= after.now && (Claims(c, db, a) ==> t < db.now)
            && (IsLive(after.submission.value) ==> t' < after.submission.value.nextAttemptAt.value)
  {
    StepKeeps(c, db, a);
    RowMoves(c, db, a);
    ClockMoves(c, db, a);
  }

  lemma PaceAdvances(c: Config, db: Db, a: Action, last: Submission, claims: nat, requeues: nat)
    requires c.Valid() && Inv(c, db) && Step(c, db, a).submission.Some?
    requires Paced(c, Step(c, db, a).submission.value, last, claims, requeues)
    ensures Paced(c, db.submission.value, last, claims + (if Claims(c, db, a) then 1 else 0),
                  requeues + (if Requeues(c, db, a) then 1 else 0))
  {
    RowMoves(c, db, a);
    PaceAtRest(c, db);
  }

  predicate Increasing(times: seq<int>, t: int) {
    && (forall i :: 0 <= i < |times| ==> t < times[i])
    && forall i, j :: 0 <= i < j < |times| ==> times[i] < times[j]
  }

  lemma IncreasingCons(times: seq<int>, t: int, t': int)
    requires Increasing(times, t') && t <= t'
    ensures Increasing(times, t) && (t < t' ==> Increasing([t'] + times, t))
  {}

  /** Claims happen at strictly later seconds, each costs one generation, and so they are finitely
      many; requeues cannot exceed the deployment's retry ceiling. `t` is any second before which the
      next claim cannot happen. */
  lemma {:induction false} ClaimsAndRetriesAreBounded(c: Config, db: Db, actions: seq<Action>, t: int)
    requires c.Valid() && Inv(c, db) && t <= db.now
    requires IsLive(db.submission.value) ==> t < db.submission.value.nextAttemptAt.value
    ensures var times := ClaimTimes(c, db, actions);
            && Increasing(times, t)
            && Execute(c, db, actions).submission.Some?
            && Paced(c, db.submission.value, Execute(c, db, actions).submission.value, |times|, Requeued(c, db, actions))
    decreases |actions|
  {
    if actions == [] {
      PaceAtRest(c, db);
    } else {
      PaceStep(c, db, actions[0], t);
      var after := Step(c, db, actions[0]);
      var t' := if Claims(c, db, actions[0]) then db.now else t;
      ClaimsAndRetriesAreBounded(c, after, actions[1..], t');
      IncreasingCons(ClaimTimes(c, after, actions[1..]), t, t');
      PaceAdvances(c, db, actions[0], Execute(c, after, actions[1..]).submission.value,
                   |ClaimTimes(c, after, actions[1..])|, Requeued(c, after, actions[1..]));
    }
  }
}
