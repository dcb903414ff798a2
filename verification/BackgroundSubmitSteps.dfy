/** Submitting a request for background execution: reserve, prepare the row, mark the budget uncertain,
    cross the transport boundary once, bind the acknowledgement. Every await may fail, before or after
    its effect, and lets time pass. */
module BackgroundSubmitSteps {
  import opened Wrappers
  import opened BackgroundRows
  import Steps = BackgroundSteps
  import Invariant = BackgroundInvariant

  /** A worker's proof of its claim on the run. */
  datatype RunLease = RunLease(attemptId: nat, leaseGeneration: int, owner: string, version: nat)

  /** The provider's answer; `exact` says that its syntax is valid and that it echoes the requested
      model and token ceiling. */
  datatype Acknowledgement = Acknowledgement(
    responseId: string, status: ProviderStatus, createdAt: int, stored: bool, exact: bool)

  datatype Stage =
    | FirstPrincipal | FirstAccess | ReserveBudget | AuthorizeBudget | AuthorizeEgress | RecordEgress
    | ProveEgress | BuildContext | SecondPrincipal | SecondAccess | HashRequest | PrepareRow | MarkUncertain
    | Transport | AcceptRow | CloseRow | ReleaseBudget

  /** How one await ends. `FailsAfter` is a failure reported although the effect took place. */
  datatype Fate = Succeeds | FailsBefore | FailsAfter

  datatype Heartbeat = Heartbeat(elapsed: nat, fate: Fate)

  /** Everything outside the service: an arbitrary placement of failures, delays and webhook deliveries. */
  datatype Script = Script(
    fate: Stage -> Fate,
    elapsed: Stage -> nat,
    arrivals: Stage -> Option<(Receipt, nat)>,
    heartbeats: seq<Heartbeat>,
    acknowledgement: Acknowledgement)

  // ---------------------------------------------------------------------------------------------
  // Transactions of the submission side
  // ---------------------------------------------------------------------------------------------

  predicate HoldsLease(db: Db, lease: RunLease) {
    && db.run.state == RunRunning
    && db.run.attemptId == lease.attemptId && db.run.leaseGeneration == lease.leaseGeneration
    && db.run.lease.Some? && db.run.lease.value.owner == lease.owner && db.now < db.run.lease.value.expiresAt
    && db.run.version == lease.version
  }

  function Renewed(run: Run, expiresAt: int): Run {
    run.(lease := if run.lease.Some? then Some(run.lease.value.(expiresAt := expiresAt)) else None,
         version := run.version + 1)
  }

  function PreparedRow(binding: Binding, now: int): Submission {
    Submission(binding, Prepared, now, None, None, None, None, None, None, 0, None, None, 0, None, None, None,
               None, None, 0)
  }

  function Prepare(db: Db, lease: RunLease, binding: Binding, ttl: int): Steps.Tx<RunLease> {
    if !HoldsLease(db, lease) || db.budget.None? || !BudgetBound(db.budget.value, binding)
       || db.budget.value.state != Reserved || db.budget.value.reconciledAt.Some? || db.submission.Some?
    then Steps.Aborted
    else
      Steps.Done(db.(submission := Some(PreparedRow(binding, db.now)), run := Renewed(db.run, db.now + ttl)),
                 lease.(version := lease.version + 1))
  }

  function Deadline(c: Config, now: int, ack: Acknowledgement): int {
    Min(ack.createdAt, now) + c.Window(ack.stored)
  }

  function AcceptedRow(c: Config, s: Submission, now: int, ack: Acknowledgement): Submission {
    s.(state := WaitingProvider, responseId := Some(ack.responseId), providerStatus := Some(ack.status),
       providerStore := Some(ack.stored), providerCreatedAt := Some(ack.createdAt), submittedAt := Some(now),
       nextAttemptAt := Some(now), deadline := Some(Deadline(c, now, ack)), version := s.version + 1)
  }

  function Accept(c: Config, db: Db, lease: RunLease, binding: Binding, ack: Acknowledgement): Steps.Tx<()> {
    if !ack.exact || ack.createdAt <= 0 || I64_MAX < ack.createdAt + c.Window(ack.stored)
       || Deadline(c, db.now, ack) <= db.now || !HoldsLease(db, lease)
       || db.submission.None? || db.submission.value.binding != binding || !PristinePrepared(db.submission.value)
    then Steps.Aborted
    else
      var accepted := AcceptedRow(c, db.submission.value, db.now, ack);
      if !ValidWaiting(accepted) then Steps.Aborted
      else
        Steps.Done(db.(submission := Some(accepted),
                       run := db.run.(state := RunWaitingProvider, lease := None, nextAttemptAt := None,
                                      reason := None, version := db.run.version + 1)), ())
  }

  function CloseAmbiguity(db: Db, lease: RunLease, binding: Binding, reason: ReasonCode): Steps.Tx<()> {
    if !HoldsLease(db, lease) || db.submission.None? || db.submission.value.binding != binding
       || !PristinePrepared(db.submission.value) || db.submission.value.reason.Some? || db.outcomes != []
    then Steps.Aborted
    else
      var s := db.submission.value;
      Steps.Done(db.(submission := Some(s.(state := RecoveryRequired, reason := Some(reason), version := s.version + 1)),
                     run := db.run.(state := RunRecoveryRequired, lease := None, nextAttemptAt := None,
                                    reason := Some(reason), version := db.run.version + 1),
                     outcomes := [Outcome(RunRecoveryRequired, reason, None, db.now)]), ())
  }

  /** The budget service answers a repeated request as before and otherwise insists on a running,
      unexpired attempt; an uncertain reservation is never released. */
  function Reconcile(db: Db, lease: RunLease, target: BudgetState): Steps.Tx<()>
    requires target == Uncertain || target == Released
  {
    if db.budget.None? then Steps.Aborted
    else
      var b := db.budget.value;
      if b.state == target && b.actual.None? then Steps.Done(db, ())
      else if b.state != Reserved || db.run.state != RunRunning
              || db.run.attemptId != lease.attemptId || b.attemptId != lease.attemptId
              || db.run.leaseGeneration != lease.leaseGeneration || b.leaseGeneration != lease.leaseGeneration
              || db.run.lease.None? || db.run.lease.value.owner == "" || db.run.lease.value.expiresAt <= db.now
      then Steps.Aborted
      else Steps.Done(db.(budget := Some(b.(state := target, reconciledAt := Some(db.now)))), ())
  }

  // ---------------------------------------------------------------------------------------------
  // Where a submission can stand
  // ---------------------------------------------------------------------------------------------

  predicate Unhandled(rs: seq<Receipt>) {
    && Invariant.CleanReceipts(rs)
    && forall i :: 0 <= i < |rs| ==> !rs[i].state.MatchedPending? && !rs[i].state.Processed?
  }

  predicate Base(db: Db) {
    0 < db.now && db.usageEntries == [] && db.run.checkpoint.None? && Unhandled(db.receipts)
  }

  predicate HasBudget(db: Db, binding: Binding, state: BudgetState) {
    && db.budget.Some? && BudgetBound(db.budget.value, binding) && db.budget.value.state == state
    && db.budget.value.actual.None? && (state == Reserved <==> db.budget.value.reconciledAt.None?)
  }

  predicate Unprepared(db: Db) { Base(db) && db.submission.None? && db.outcomes == [] }

  /** No row, no reservation and no receipt handled yet for this attempt. */
  predicate Fresh(db: Db) { Unprepared(db) && db.budget.None? }

  /** The row waits for its acknowledgement. */
  predicate Open(db: Db, binding: Binding) {
    && Base(db) && db.outcomes == []
    && db.submission.Some? && db.submission.value.binding == binding && PristinePrepared(db.submission.value)
    && db.submission.value.reason.None? && 0 < db.submission.value.createdAt <= db.now
  }

  /** The row was closed as ambiguous before any acknowledgement was bound. */
  predicate Ambiguous(db: Db, binding: Binding) {
    && Base(db)
    && db.submission.Some? && db.submission.value.binding == binding
    && db.submission.value.state == RecoveryRequired && db.submission.value.responseId.None?
    && db.run.state == RunRecoveryRequired && db.run.lease.None?
    && |db.outcomes| == 1 && db.outcomes[0].finalState == RunRecoveryRequired
  }

  predicate Accepted(c: Config, db: Db, binding: Binding) {
    && Invariant.Inv(c, db) && db.submission.value.binding == binding
    && db.submission.value.state == WaitingProvider
    && db.run.state == RunWaitingProvider && db.run.lease.None?
    && db.budget.value.state == Uncertain
  }

  /** The reservation is still held, or given back although the answer said otherwise. */
  predicate HeldOrReleased(db: Db, binding: Binding) {
    HasBudget(db, binding, Reserved) || HasBudget(db, binding, Released)
  }

  /** What a submission that failed at `stage` leaves behind. `HashRequest` is a defensive exit that no
      request reaches: the hashed fields all have serializers that cannot fail. */
  predicate LeftBehind(c: Config, db: Db, binding: Binding, stage: Stage, started: bool) {
    match stage
    case FirstPrincipal => Fresh(db) && !started
    case FirstAccess => Fresh(db) && !started
    case ReserveBudget => (Fresh(db) || (Unprepared(db) && HasBudget(db, binding, Reserved))) && !started
    case HashRequest => Unprepared(db) && HasBudget(db, binding, Reserved) && !started
    case PrepareRow => (Unprepared(db) || Open(db, binding)) && HasBudget(db, binding, Released) && !started
    case MarkUncertain => Ambiguous(db, binding) && HasBudget(db, binding, Released) && !started
    case Transport => Ambiguous(db, binding) && HasBudget(db, binding, Uncertain) && started
    case AcceptRow => Ambiguous(db, binding) && HasBudget(db, binding, Uncertain) && started
    case CloseRow =>
      if started then
        Accepted(c, db, binding) || ((Open(db, binding) || Ambiguous(db, binding)) && HasBudget(db, binding, Uncertain))
      else
        (Open(db, binding) || Ambiguous(db, binding)) && (HeldOrReleased(db, binding) || HasBudget(db, binding, Uncertain))
    case ReleaseBudget =>
      && !started
      && (((Unprepared(db) || Open(db, binding) || Ambiguous(db, binding)) && HeldOrReleased(db, binding))
          || (Ambiguous(db, binding) && HasBudget(db, binding, Uncertain)))
    case _ => Unprepared(db) && HasBudget(db, binding, Released) && !started
  }

  // ---------------------------------------------------------------------------------------------
  // The effect of one await
  // ---------------------------------------------------------------------------------------------

  /** Time passes during an await, and a webhook may be stored. */
  function Awaited(db: Db, script: Script, stage: Stage): Db {
    var later := db.(now := db.now + script.elapsed(stage));
    if script.arrivals(stage).None? then later
    else Invariant.Deliver(later, script.arrivals(stage).value.0, script.arrivals(stage).value.1)
  }

  /** A transaction whose answer may get lost before or after its commit. */
  function Attempted<T>(tx: Steps.Tx<T>, fate: Fate, before: Db): Db {
    if fate == FailsBefore then before else Steps.After(tx, before)
  }

  predicate Reported<T>(tx: Steps.Tx<T>, fate: Fate) { fate == Succeeds && tx.Done? }

  lemma DeliveredIsUnhandled(db: Db, r: Receipt, position: nat)
    requires Unhandled(db.receipts)
    ensures Unhandled(Invariant.Deliver(db, r, position).receipts)
  {}

  lemma AwaitKeeps(db: Db, script: Script, stage: Stage, binding: Binding)
    ensures var after := Awaited(db, script, stage);
            && db.now <= after.now && after == db.(now := after.now, receipts := after.receipts)
            && (Base(db) ==> Base(after))
  {
    var later := db.(now := db.now + script.elapsed(stage));
    if Base(db) && script.arrivals(stage).Some? {
      DeliveredIsUnhandled(later, script.arrivals(stage).value.0, script.arrivals(stage).value.1);
    }
  }

  lemma AwaitKeepsAccepted(c: Config, db: Db, script: Script, stage: Stage, binding: Binding)
    requires c.Valid() && Accepted(c, db, binding)
    ensures Accepted(c, Awaited(db, script, stage), binding)
  {
    var later := db.(now := db.now + script.elapsed(stage));
    Invariant.StepKeeps(c, db, Invariant.Tick(script.elapsed(stage)));
    if script.arrivals(stage).Some? {
      Invariant.DeliverKeeps(c, later, script.arrivals(stage).value.0, script.arrivals(stage).value.1);
    }
  }

  lemma UnhandledCounts(id: Option<string>, rs: seq<Receipt>)
    requires Unhandled(rs)
    ensures Count(id, IsMatched, rs) == 0 && Count(id, IsProcessed, rs) == 0
  {
    Invariant.CountFirst(id, IsMatched, rs);
    Invariant.CountFirst(id, IsProcessed, rs);
  }

  /** Binding an acknowledgement establishes the invariant of the reconciliation protocol. */
  lemma AcceptEstablishesInv(c: Config, db: Db, lease: RunLease, binding: Binding, ack: Acknowledgement)
    requires c.Valid() && Open(db, binding) && HasBudget(db, binding, Uncertain)
    requires binding.attemptId == lease.attemptId && binding.leaseGeneration == lease.leaseGeneration
    ensures var tx := Accept(c, db, lease, binding, ack);
            tx.Done? ==> Accepted(c, tx.db, binding)
  {
    UnhandledCounts(Some(ack.responseId), db.receipts);
  }

  // ---------------------------------------------------------------------------------------------
  // What the transactions of the submission side leave
  // ---------------------------------------------------------------------------------------------

  /** A lease that was renewed since, has run out, or belongs to another attempt or owner holds no longer. */
  lemma RunLeaseIsFenced(db: Db, lease: RunLease, expiresAt: int)
    requires HoldsLease(db, lease)
    ensures !HoldsLease(db.(run := Renewed(db.run, expiresAt)), lease)
    ensures db.now < expiresAt ==> HoldsLease(db.(run := Renewed(db.run, expiresAt)), lease.(version := lease.version + 1))
    ensures db.run.lease.Some? && forall now :: db.run.lease.value.expiresAt <= now ==> !HoldsLease(db.(now := now), lease)
    ensures forall other: RunLease :: HoldsLease(db, other) ==> other == lease
  {}

  /** Preparing needs the lease and an untouched reservation of this attempt; it writes an empty row and
      renews the lease, and cannot be done twice. */
  lemma PrepareOutcome(db: Db, lease: RunLease, binding: Binding, ttl: int)
    requires HasBudget(db, binding, Reserved) && Unprepared(db)
    ensures var tx := Prepare(db, lease, binding, ttl);
            && (tx.Done? <==> HoldsLease(db, lease))
            && (tx.Done? ==>
                  && tx.value == lease.(version := lease.version + 1)
                  && tx.db == db.(submission := tx.db.submission,
                                  run := db.run.(lease := Some(LeaseFields(lease.owner, db.now + ttl)),
                                                 version := db.run.version + 1))
                  && Open(tx.db, binding) && tx.db.submission.value.createdAt == db.now
                  && Prepare(tx.db, tx.value, binding, ttl).Aborted?)
  {}

  /** An acknowledgement is bound exactly when it is exact, dated, and its window, counted from the earlier
      of creation and now, is still open; the row then waits with that deadline and is due at once. */
  lemma AcceptOutcome(c: Config, db: Db, lease: RunLease, binding: Binding, ack: Acknowledgement)
    requires c.Valid() && Open(db, binding)
    ensures var window := if ack.stored then c.storedWindow else c.temporaryWindow;
            var deadline := (if ack.createdAt <= db.now then ack.createdAt else db.now) + window;
            var tx, s := Accept(c, db, lease, binding, ack), db.submission.value;
            && (tx.Done? <==>
                  && HoldsLease(db, lease) && ack.exact && 0 < ack.createdAt && ack.createdAt + window <= I64_MAX
                  && db.now < deadline)
            && (tx.Done? ==>
                  tx.db == db.(
                    submission := Some(s.(state := WaitingProvider, responseId := Some(ack.responseId),
                                          providerStatus := Some(ack.status), providerStore := Some(ack.stored),
                                          providerCreatedAt := Some(ack.createdAt), submittedAt := Some(db.now),
                                          nextAttemptAt := Some(db.now), deadline := Some(deadline),
                                          version := s.version + 1)),
                    run := db.run.(state := RunWaitingProvider, lease := None, nextAttemptAt := None, reason := None,
                                   version := db.run.version + 1)))
  {}

  /** An open row is closed under a held lease, with its run and one outcome, for the reason given. */
  lemma CloseAmbiguityOutcome(db: Db, lease: RunLease, binding: Binding, reason: ReasonCode)
    requires Open(db, binding)
    ensures var tx, s := CloseAmbiguity(db, lease, binding, reason), db.submission.value;
            && (tx.Done? <==> HoldsLease(db, lease))
            && (tx.Done? ==>
                  tx.db == db.(
                    submission := Some(s.(state := RecoveryRequired, reason := Some(reason), version := s.version + 1)),
                    run := db.run.(state := RunRecoveryRequired, lease := None, nextAttemptAt := None,
                                   reason := Some(reason), version := db.run.version + 1),
                    outcomes := [Outcome(RunRecoveryRequired, reason, None, db.now)]))
  {}

  /** A reservation moves exactly while its attempt is running under a lease that has not run out, whoever
      renewed it since. It is moved once; asking again is answered as before, and an uncertain one is never
      released. */
  lemma ReconcileOutcome(db: Db, lease: RunLease, binding: Binding, target: BudgetState)
    requires target == Uncertain || target == Released
    requires binding.attemptId == lease.attemptId && binding.leaseGeneration == lease.leaseGeneration
    ensures HasBudget(db, binding, Reserved) ==>
              var tx := Reconcile(db, lease, target);
              && (tx.Done? <==>
                    && db.run.state == RunRunning && db.run.attemptId == lease.attemptId
                    && db.run.leaseGeneration == lease.leaseGeneration
                    && db.run.lease.Some? && db.run.lease.value.owner != "" && db.now < db.run.lease.value.expiresAt)
              && (tx.Done? ==>
                    && tx.db == db.(budget := Some(db.budget.value.(state := target, reconciledAt := Some(db.now))))
                    && HasBudget(tx.db, binding, target) && Reconcile(tx.db, lease, target) == tx
                    && Reconcile(tx.db, lease, if target == Uncertain then Released else Uncertain).Aborted?)
    ensures HasBudget(db, binding, Committed) || db.budget.None? ==> Reconcile(db, lease, target).Aborted?
  {}

  // ---------------------------------------------------------------------------------------------
  // The order of the stages
  // ---------------------------------------------------------------------------------------------

  /** Place of a stage on the way to an accepted row; the last two are only reached from failures. */
  function Place(stage: Stage): nat {
    match stage
    case FirstPrincipal => 0
    case FirstAccess => 1
    case ReserveBudget => 2
    case AuthorizeBudget => 3
    case AuthorizeEgress => 4
    case RecordEgress => 5
    case ProveEgress => 6
    case BuildContext => 7
    case SecondPrincipal => 8
    case SecondAccess => 9
    case HashRequest => 10
    case PrepareRow => 11
    case MarkUncertain => 12
    case Transport => 13
    case AcceptRow => 14
    case CloseRow => 15
    case ReleaseBudget => 16
  }

  /** Every stage between the two places has succeeded. */
  ghost predicate AllSucceed(script: Script, from: nat, to: nat) {
    forall stage: Stage :: from <= Place(stage) < to ==> script.fate(stage) == Succeeds
  }

  /** The failure that is reported is the first one, unless undoing failed too. */
  ghost predicate FirstFailure(script: Script, stage: Stage) {
    stage == CloseRow || stage == ReleaseBudget || AllSucceed(script, 0, Place(stage))
  }

  /** The stages one by one: admission, transfer, confirmation, and the row. */
  predicate Admitted(f: Stage -> Fate) {
    f(FirstPrincipal) == Succeeds && f(FirstAccess) == Succeeds && f(ReserveBudget) == Succeeds
  }

  predicate Authorized(f: Stage -> Fate) {
    f(AuthorizeBudget) == Succeeds && f(AuthorizeEgress) == Succeeds && f(RecordEgress) == Succeeds && f(ProveEgress) == Succeeds
  }

  predicate Confirmed(f: Stage -> Fate) {
    f(BuildContext) == Succeeds && f(SecondPrincipal) == Succeeds && f(SecondAccess) == Succeeds
  }

  predicate Sendable(f: Stage -> Fate) { f(PrepareRow) == Succeeds && f(MarkUncertain) == Succeeds }

  /** A failure on the way, with what must have succeeded before it. */
  predicate FailsFirst(f: Stage -> Fate, stage: Stage) {
    match stage
    case FirstPrincipal => true
    case FirstAccess => f(FirstPrincipal) == Succeeds
    case ReserveBudget => f(FirstPrincipal) == Succeeds && f(FirstAccess) == Succeeds
    case AuthorizeBudget => true
    case AuthorizeEgress => f(AuthorizeBudget) == Succeeds
    case RecordEgress => f(AuthorizeBudget) == Succeeds && f(AuthorizeEgress) == Succeeds
    case ProveEgress => f(AuthorizeBudget) == Succeeds && f(AuthorizeEgress) == Succeeds && f(RecordEgress) == Succeeds
    case BuildContext => true
    case SecondPrincipal => f(BuildContext) == Succeeds
    case SecondAccess => f(BuildContext) == Succeeds && f(SecondPrincipal) == Succeeds
    case HashRequest => Admitted(f) && Authorized(f) && Confirmed(f)
    case PrepareRow => true
    case MarkUncertain => f(PrepareRow) == Succeeds
    case Transport => Sendable(f)
    case AcceptRow => Sendable(f) && f(Transport) == Succeeds
    case CloseRow => true
    case ReleaseBudget => true
  }

  lemma StagesInOrder(script: Script)
    ensures AllSucceed(script, 0, 3) <==> Admitted(script.fate)
    ensures AllSucceed(script, 3, 7) <==> Authorized(script.fate)
    ensures AllSucceed(script, 7, 10) <==> Confirmed(script.fate)
    ensures AllSucceed(script, 11, 13) <==> Sendable(script.fate)
    ensures AllSucceed(script, 0, 11) <==>
              Admitted(script.fate) && Authorized(script.fate) && Confirmed(script.fate) && script.fate(HashRequest) == Succeeds
  {}

  lemma AllStages(script: Script)
    ensures AllSucceed(script, 0, 15) <==>
              && AllSucceed(script, 0, 11) && Sendable(script.fate)
              && script.fate(Transport) == Succeeds && script.fate(AcceptRow) == Succeeds
  {
    assert AllSucceed(script, 0, 15) ==>
             forall stage :: stage == PrepareRow || stage == MarkUncertain || stage == Transport || stage == AcceptRow ==>
               Place(stage) < 15 && script.fate(stage) == Succeeds;
  }

  /** The first failure within its part, behind the parts before it, is the first of all. */
  lemma FirstOfAll(script: Script, stage: Stage)
    requires FailsFirst(script.fate, stage)
    requires 3 <= Place(stage) <= 14 ==> Admitted(script.fate)
    requires 7 <= Place(stage) <= 14 ==> Authorized(script.fate)
    requires 11 <= Place(stage) <= 14 ==> Confirmed(script.fate) && script.fate(HashRequest) == Succeeds
    ensures FirstFailure(script, stage)
  {}

  /** Time that the heartbeats took. */
  function Elapsed(beats: seq<Heartbeat>): nat {
    if beats == [] then 0 else Elapsed(beats[..|beats| - 1]) + beats[|beats| - 1].elapsed
  }

  // ---------------------------------------------------------------------------------------------
  // Success, exactly
  // ---------------------------------------------------------------------------------------------

  function AdmissionTime(e: Stage -> nat): nat { e(FirstPrincipal) + e(FirstAccess) + e(ReserveBudget) }

  function AuthorizationTime(e: Stage -> nat): nat {
    e(AuthorizeBudget) + e(AuthorizeEgress) + e(RecordEgress) + e(ProveEgress)
  }

  function ConfirmationTime(e: Stage -> nat): nat { e(BuildContext) + e(SecondPrincipal) + e(SecondAccess) }

  /** The time that passes before the row is written. */
  function ClearanceTime(e: Stage -> nat): nat {
    AdmissionTime(e) + AuthorizationTime(e) + ConfirmationTime(e) + e(HashRequest)
  }

  /** Every heartbeat succeeds, the first while the lease still runs and each one within a lease of the one before. */
  predicate BeatsInTime(beats: seq<Heartbeat>, left: int, ttl: int) {
    forall i :: 0 <= i < |beats| ==> beats[i].fate == Succeeds && beats[i].elapsed < if i == 0 then left else ttl
  }

  /** What is left of the lease after the heartbeats. */
  function LeftAfter(beats: seq<Heartbeat>, left: int, ttl: int): int { if beats == [] then left else ttl }

  lemma OneMoreBeat(beats: seq<Heartbeat>, i: nat, left: int, ttl: int)
    requires i < |beats|
    ensures BeatsInTime(beats[..i + 1], left, ttl) <==>
              && BeatsInTime(beats[..i], left, ttl)
              && beats[i].fate == Succeeds && beats[i].elapsed < LeftAfter(beats[..i], left, ttl)
    ensures !BeatsInTime(beats[..i + 1], left, ttl) ==> !BeatsInTime(beats, left, ttl)
    ensures LeftAfter(beats[..i + 1], left, ttl) == ttl
    ensures Elapsed(beats[..i + 1]) == Elapsed(beats[..i]) + beats[i].elapsed
  {
    assert beats[..i + 1][..i] == beats[..i];
    assert beats[..i + 1] == beats[..i] + [beats[i]];
  }

  /** The answer is exact and dated, and the window that it opens has not run out. */
  predicate Bindable(c: Config, ack: Acknowledgement, now: int) {
    && ack.exact && 0 < ack.createdAt && ack.createdAt + c.Window(ack.stored) <= I64_MAX
    && now < Min(ack.createdAt, now) + c.Window(ack.stored)
  }

  /** The run stays leased from the row to the answer, and the answer can be bound when it comes. */
  predicate InTime(c: Config, db: Db, lease: RunLease, script: Script, ttl: int) {
    var cleared := db.now + ClearanceTime(script.elapsed);
    && WrittenInTime(db.(now := cleared), lease, script)
    && SentInTime(c, cleared + script.elapsed(PrepareRow), ttl, lease.owner, script, ttl)
  }

  predicate WrittenInTime(db: Db, lease: RunLease, script: Script) {
    HoldsLease(db.(now := db.now + script.elapsed(PrepareRow)), lease)
  }

  /** The same from a written row on, with this much of the lease left. */
  predicate SentInTime(c: Config, now: int, left: int, owner: string, script: Script, ttl: int) {
    && owner != "" && script.elapsed(MarkUncertain) < left
    && AnsweredInTime(c, now + script.elapsed(MarkUncertain), left - script.elapsed(MarkUncertain), script, ttl)
  }

  predicate AnsweredInTime(c: Config, now: int, left: int, script: Script, ttl: int) {
    && BeatsInTime(script.heartbeats, left, ttl)
    && BoundInTime(c, now + Elapsed(script.heartbeats) + script.elapsed(Transport),
                   LeftAfter(script.heartbeats, left, ttl) - script.elapsed(Transport), script)
  }

  predicate BoundInTime(c: Config, now: int, left: int, script: Script) {
    script.elapsed(AcceptRow) < left && Bindable(c, script.acknowledgement, now + script.elapsed(AcceptRow))
  }

  // ---------------------------------------------------------------------------------------------
  // When undoing fails
  // ---------------------------------------------------------------------------------------------

  /** The attempt can no longer move the run, and has not closed it. */
  predicate Lapsed(db: Db, binding: Binding) {
    && db.outcomes == []
    && (|| db.run.state != RunRunning
        || db.run.attemptId != binding.attemptId || db.run.leaseGeneration != binding.leaseGeneration
        || db.run.lease.None? || db.run.lease.value.owner == "" || db.run.lease.value.expiresAt <= db.now)
  }

  /** The run lease was renewed and the service has not heard of it. */
  ghost predicate Unheard(script: Script) { exists i :: 0 <= i < |script.heartbeats| && script.heartbeats[i].fate == FailsAfter }

  /** A reservation that is still held could not be given back. */
  predicate HeldForAReason(script: Script, db: Db, binding: Binding, owner: string) {
    db.budget.Some? && db.budget.value.state == Reserved ==>
      script.fate(ReleaseBudget) == FailsBefore || owner == "" || Lapsed(db, binding)
  }

  /** Why the row could not be closed, by the state it is in now. */
  ghost predicate ClosingExplained(script: Script, db: Db, binding: Binding, state: SubmissionState) {
    match state
    case RecoveryRequired => script.fate(CloseRow) == FailsAfter
    case Prepared => script.fate(CloseRow) == FailsBefore || Lapsed(db, binding) || Unheard(script)
    case _ => script.fate(AcceptRow) == FailsAfter
  }

  /** A failure is reported only for a stage that failed, and a failed undoing only when it did fail: the
      answer was lost, the attempt had lapsed, or what was to be undone had taken effect unheard. */
  ghost predicate Explained(script: Script, db: Db, binding: Binding, owner: string, stage: Stage) {
    match stage
    case ReleaseBudget =>
      && HeldForAReason(script, db, binding, owner)
      && (db.budget.Some? && db.budget.value.state == Released ==> script.fate(ReleaseBudget) == FailsAfter)
      && (db.budget.Some? && db.budget.value.state == Uncertain ==> script.fate(MarkUncertain) == FailsAfter)
    case CloseRow =>
      && HeldForAReason(script, db, binding, owner)
      && db.submission.Some?
      && ClosingExplained(script, db, binding, db.submission.value.state)
    case _ => 11 <= Place(stage) || script.fate(stage) != Succeeds
  }
}
