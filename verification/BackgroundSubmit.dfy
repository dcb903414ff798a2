/** The submission service itself: its transactions in place, and the order in which `submit` awaits them. */
module BackgroundSubmit {
  import opened Wrappers
  import opened BackgroundRows
  import opened BackgroundSubmitSteps
  import Invariant = BackgroundInvariant
  import Specs = BackgroundSubmitSteps
  import Stores = BackgroundStore

  class Service {
    const store: Stores.Store
    const script: Script
    const runLeaseTtl: int
    /** The database as it was at every start of the transport. */
    var starts: seq<Db>

    constructor (store: Stores.Store, script: Script, runLeaseTtl: int)
      ensures this.store == store && this.script == script && this.runLeaseTtl == runLeaseTtl && starts == []
      ensures OneShot()
    {
      this.store, this.script, this.runLeaseTtl, starts := store, script, runLeaseTtl, [];
    }

    /** The transport was started at most once, with the row open and the budget marked uncertain, and
        a reservation behind a started transport is never given back. */
    ghost predicate OneShot()
      reads this, store
    {
      && |starts| <= 1
      && (starts != [] ==>
            && starts[0].submission.Some? && PristinePrepared(starts[0].submission.value)
            && starts[0].budget.Some? && starts[0].budget.value.state == Uncertain
            && store.submission.Some?
            && store.budget.Some? && (store.budget.value.state == Uncertain || store.budget.value.state == Committed))
    }

    method Await(stage: Stage)
      modifies store
      ensures store.View() == Awaited(old(store.View()), script, stage)
    {
      store.now := store.now + script.elapsed(stage);
      var arrival := script.arrivals(stage);
      if arrival.Some? {
        store.receipts := Invariant.Deliver(store.View(), arrival.value.0, arrival.value.1).receipts;
      }
    }

    predicate Holds(lease: RunLease)
      reads this, store
    {
      HoldsLease(store.View(), lease)
    }

    method Prepare(lease: RunLease, binding: Binding) returns (ok: bool, renewed: RunLease)
      modifies store
      ensures var tx := Specs.Prepare(old(store.View()), lease, binding, runLeaseTtl);
              && store.View() == Attempted(tx, script.fate(PrepareRow), old(store.View()))
              && ok == Reported(tx, script.fate(PrepareRow)) && (ok ==> renewed == tx.value)
    {
      if script.fate(PrepareRow) == FailsBefore || !Holds(lease) || store.budget.None? {
        return false, lease;
      }
      var reservation := store.budget.value;
      if !BudgetBound(reservation, binding) || reservation.state != Reserved || reservation.reconciledAt.Some? {
        return false, lease;
      }
      if store.submission.Some? {
        return false, lease;
      }
      store.submission := Some(PreparedRow(binding, store.now));
      store.run := Renewed(store.run, store.now + runLeaseTtl);
      return script.fate(PrepareRow) == Succeeds, lease.(version := lease.version + 1);
    }

    method Accept(lease: RunLease, binding: Binding, ack: Acknowledgement) returns (ok: bool)
      requires store.config.Valid()
      modifies store
      ensures var tx := Specs.Accept(store.config, old(store.View()), lease, binding, ack);
              && store.View() == Attempted(tx, script.fate(AcceptRow), old(store.View()))
              && ok == Reported(tx, script.fate(AcceptRow))
    {
      if script.fate(AcceptRow) == FailsBefore || !ack.exact || ack.createdAt <= 0
         || I64_MAX < ack.createdAt + store.config.Window(ack.stored) {
        return false;
      }
      var deadline := Min(ack.createdAt, store.now) + store.config.Window(ack.stored);
      if deadline <= store.now || !Holds(lease) || store.submission.None? {
        return false;
      }
      var row := store.submission.value;
      if row.binding != binding || !PristinePrepared(row) {
        return false;
      }
      var saved := store.View();
      store.submission := Some(row.(
        state := WaitingProvider, responseId := Some(ack.responseId), providerStatus := Some(ack.status),
        providerStore := Some(ack.stored), providerCreatedAt := Some(ack.createdAt), submittedAt := Some(store.now),
        nextAttemptAt := Some(store.now), deadline := Some(deadline), version := row.version + 1));
      store.run := store.run.(state := RunWaitingProvider, lease := None, nextAttemptAt := None, reason := None,
                              version := store.run.version + 1);
      if !ValidWaiting(store.submission.value) {
        store.Rollback(saved);
        return false;
      }
      return script.fate(AcceptRow) == Succeeds;
    }

    method CloseAmbiguity(lease: RunLease, binding: Binding, reason: ReasonCode) returns (ok: bool)
      modifies store
      ensures var tx := Specs.CloseAmbiguity(old(store.View()), lease, binding, reason);
              && store.View() == Attempted(tx, script.fate(CloseRow), old(store.View()))
              && ok == Reported(tx, script.fate(CloseRow))
    {
      if script.fate(CloseRow) == FailsBefore || !Holds(lease) || store.submission.None? {
        return false;
      }
      var row := store.submission.value;
      if row.binding != binding || !PristinePrepared(row) || row.reason.Some? || store.outcomes != [] {
        return false;
      }
      store.submission := Some(row.(state := RecoveryRequired, reason := Some(reason), version := row.version + 1));
      store.run := store.run.(state := RunRecoveryRequired, lease := None, nextAttemptAt := None,
                              reason := Some(reason), version := store.run.version + 1);
      store.outcomes := [Outcome(RunRecoveryRequired, reason, None, store.now)];
      return script.fate(CloseRow) == Succeeds;
    }

    method Reconcile(lease: RunLease, target: BudgetState, stage: Stage) returns (ok: bool)
      requires target == Uncertain || target == Released
      modifies store
      ensures var tx := Specs.Reconcile(old(store.View()), lease, target);
              && store.View() == Attempted(tx, script.fate(stage), old(store.View()))
              && ok == Reported(tx, script.fate(stage))
    {
      if script.fate(stage) == FailsBefore || store.budget.None? {
        return false;
      }
      var reservation := store.budget.value;
      if reservation.state == target && reservation.actual.None? {
        return script.fate(stage) == Succeeds;
      }
      if reservation.state != Reserved || store.run.state != RunRunning
         || store.run.attemptId != lease.attemptId || reservation.attemptId != lease.attemptId
         || store.run.leaseGeneration != lease.leaseGeneration || reservation.leaseGeneration != lease.leaseGeneration
         || store.run.lease.None? || store.run.lease.value.owner == "" || store.run.lease.value.expiresAt <= store.now {
        return false;
      }
      store.budget := Some(reservation.(state := target, reconciledAt := Some(store.now)));
      return script.fate(stage) == Succeeds;
    }

    /** Crosses the transport boundary and renews the run lease until the provider answers. */
    method SubmitWithHeartbeats(lease: RunLease, ghost binding: Binding, ghost left: int) returns (ok: bool, renewed: RunLease)
      requires store.config.Valid()
      modifies this, store
      ensures starts == old(starts) + [old(store.View())]
      ensures store.submission == old(store.submission) && store.budget == old(store.budget)
      ensures old(Open(store.View(), binding)) ==> Open(store.View(), binding)
      ensures renewed == lease.(version := renewed.version)
      ensures ok ==> script.fate(Transport) == Succeeds && renewed.version == lease.version + |script.heartbeats|
      ensures old(Leased(lease, left)) ==>
                && (Proves(renewed) || Unheard(script))
                && (ok <==> script.fate(Transport) == Succeeds && BeatsInTime(script.heartbeats, left, runLeaseTtl))
                && (ok ==>
                      && store.now == old(store.now) + Elapsed(script.heartbeats) + script.elapsed(Transport)
                      && Leased(renewed, LeftAfter(script.heartbeats, left, runLeaseTtl) - script.elapsed(Transport)))
    {
      hide HasBudget, Unhandled, Leased, BeatsInTime, Elapsed, LeftAfter;
      starts := starts + [store.View()];
      renewed := lease;
      var i := 0;
      NoBeatsYet(left, runLeaseTtl);
      assert script.heartbeats[..0] == [];
      while i < |script.heartbeats|
        invariant 0 <= i <= |script.heartbeats|
        invariant store.submission == old(store.submission) && store.budget == old(store.budget)
        invariant starts == old(starts) + [old(store.View())]
        invariant old(Open(store.View(), binding)) ==> Open(store.View(), binding)
        invariant renewed == lease.(version := lease.version + i)
        invariant store.now == old(store.now) + Elapsed(script.heartbeats[..i])
        invariant old(Leased(lease, left)) ==>
                    && BeatsInTime(script.heartbeats[..i], left, runLeaseTtl)
                    && Leased(renewed, LeftAfter(script.heartbeats[..i], left, runLeaseTtl))
      {
        OneMoreBeat(script.heartbeats, i, left, runLeaseTtl);
        ok, renewed := Beat(script.heartbeats[i], renewed, binding, LeftAfter(script.heartbeats[..i], left, runLeaseTtl));
        if !ok { return; }
        i := i + 1;
      }
      assert script.heartbeats[..i] == script.heartbeats;
      ok := Listen(renewed, binding, LeftAfter(script.heartbeats, left, runLeaseTtl));
    }

    /** Waits for the answer while the lease runs on. */
    method Listen(ghost lease: RunLease, ghost binding: Binding, ghost left: int) returns (ok: bool)
      requires store.config.Valid()
      modifies store
      ensures store.submission == old(store.submission) && store.budget == old(store.budget)
      ensures old(Open(store.View(), binding)) ==> Open(store.View(), binding)
      ensures store.now == old(store.now) + script.elapsed(Transport)
      ensures ok == (script.fate(Transport) == Succeeds)
      ensures old(Leased(lease, left)) ==> Leased(lease, left - script.elapsed(Transport)) && Proves(lease)
    {
      ok := Pass(Transport, binding);
    }

    lemma NoBeatsYet(left: int, ttl: int)
      ensures BeatsInTime([], left, ttl) && LeftAfter([], left, ttl) == left && Elapsed([]) == 0
    {}

    /** One heartbeat renews the run lease for its full length. */
    method Beat(beat: Heartbeat, lease: RunLease, ghost binding: Binding, ghost left: int)
      returns (ok: bool, renewed: RunLease)
      modifies store
      ensures store.submission == old(store.submission) && store.budget == old(store.budget)
      ensures old(Open(store.View(), binding)) ==> Open(store.View(), binding)
      ensures store.now == old(store.now) + beat.elapsed
      ensures renewed == if ok then lease.(version := lease.version + 1) else lease
      ensures old(Leased(lease, left)) ==>
                && (Proves(renewed) || beat.fate == FailsAfter)
                && (ok <==> beat.fate == Succeeds && beat.elapsed < left)
                && (ok ==> Leased(renewed, runLeaseTtl))
    {
      store.now := store.now + beat.elapsed;
      if beat.fate == FailsBefore || !Holds(lease) {
        return false, lease;
      }
      store.run := Renewed(store.run, store.now + runLeaseTtl);
      ok := beat.fate == Succeeds;
      renewed := if ok then lease.(version := lease.version + 1) else lease;
    }

    /** Gives the reservation back and reports the failure that led here. */
    method ReleaseUnstarted(lease: RunLease, cause: Stage, ghost binding: Binding) returns (r: Result<(), Stage>)
      requires store.config.Valid()
      modifies store
      ensures var before := Awaited(old(store.View()), script, ReleaseBudget);
              var tx := Specs.Reconcile(before, lease, Released);
              && store.View() == Attempted(tx, script.fate(ReleaseBudget), before)
              && r == if Reported(tx, script.fate(ReleaseBudget)) then Err(cause) else Err(ReleaseBudget)
    {
      Await(ReleaseBudget);
      var ok := Reconcile(lease, Released, ReleaseBudget);
      r := if ok then Err(cause) else Err(ReleaseBudget);
    }

    /** A step that changes nothing the model holds: principal, access, egress, audit, hashing. */
    method Pass(stage: Stage, ghost binding: Binding) returns (ok: bool)
      requires store.config.Valid()
      modifies store
      ensures Idle(old(store.View()), binding) && Waited(old(store.View()), script.elapsed(stage))
      ensures ok == (script.fate(stage) == Succeeds)
    {
      AwaitKeeps(store.View(), script, stage, binding);
      Await(stage);
      ok := script.fate(stage) == Succeeds;
    }

    /** Only time passed and webhooks arrived. */
    ghost predicate Idle(before: Db, binding: Binding)
      reads this, store
    {
      && store.View() == before.(now := store.now, receipts := store.receipts)
      && (Fresh(before) ==> Fresh(store.View()))
      && (Unprepared(before) ==> Unprepared(store.View()))
      && (Open(before, binding) ==> Open(store.View(), binding))
    }

    /** So much time has passed, and nobody has touched the run. */
    ghost predicate Waited(before: Db, time: nat)
      reads this, store
    {
      store.now == before.now + time && store.run == before.run
    }

    /** The run is leased with exactly this proof, for so much longer. */
    ghost predicate Leased(lease: RunLease, left: int)
      reads store
    {
      && store.run.state == RunRunning && store.run.version == lease.version
      && store.run.attemptId == lease.attemptId && store.run.leaseGeneration == lease.leaseGeneration
      && store.run.lease == Some(LeaseFields(lease.owner, store.now + left))
    }

    /** The lease is still the one the run carries, whether or not it has run out. */
    ghost predicate Proves(lease: RunLease)
      reads store
    {
      && store.run.state == RunRunning && store.run.version == lease.version
      && store.run.attemptId == lease.attemptId && store.run.leaseGeneration == lease.leaseGeneration
      && store.run.lease.Some? && store.run.lease.value.owner == lease.owner
    }

    ghost predicate Accounts(r: Result<(), Stage>, binding: Binding, owner: string)
      reads store
    {
      r.Err? ==> Explained(script, store.View(), binding, owner, r.error)
    }

    /** The budget service reserves at most once for an attempt. */
    method Reserve(binding: Binding) returns (ok: bool)
      requires store.config.Valid()
      modifies store
      ensures store.submission == old(store.submission)
      ensures ok == (script.fate(ReserveBudget) == Succeeds)
      ensures old(store.budget).Some? ==> store.budget == old(store.budget)
      ensures Waited(old(store.View()), script.elapsed(ReserveBudget))
      ensures old(Fresh(store.View())) ==>
                || (Unprepared(store.View()) && HasBudget(store.View(), binding, Reserved))
                || (!ok && Fresh(store.View()))
    {
      ok := Pass(ReserveBudget, binding);
      if script.fate(ReserveBudget) != FailsBefore && store.budget.None? {
        store.budget := Some(Budget(binding.attemptId, binding.leaseGeneration, Reserved, None, None));
      }
    }

    ghost predicate Reserving(binding: Binding)
      reads this, store
    {
      Unprepared(store.View()) && HasBudget(store.View(), binding, Reserved)
    }

    /** How a step before the row exists ends when it started with a held reservation. */
    ghost predicate Gated(r: Result<(), Stage>, binding: Binding)
      reads this, store
    {
      match r
      case Ok(_) => Reserving(binding)
      case Err(stage) => LeftBehind(store.config, store.View(), binding, stage, false)
    }

    predicate IsGate(stage: Stage) {
      || stage == AuthorizeBudget || stage == AuthorizeEgress || stage == RecordEgress || stage == ProveEgress
      || stage == BuildContext || stage == SecondPrincipal || stage == SecondAccess
    }

    /** A step before the row exists, whose failure gives the reservation back. */
    method Gate(lease: RunLease, stage: Stage, ghost binding: Binding) returns (r: Result<(), Stage>)
      requires IsGate(stage)
      requires store.config.Valid() && OneShot()
      requires binding.attemptId == lease.attemptId && binding.leaseGeneration == lease.leaseGeneration
      requires store.submission.None? ==> starts == []
      modifies store
      ensures OneShot() && store.submission == old(store.submission)
      ensures r.Ok? ==> store.budget == old(store.budget) && Waited(old(store.View()), script.elapsed(stage))
      ensures r.Ok? <==> script.fate(stage) == Succeeds
      ensures r.Err? ==> r.error == stage || r.error == ReleaseBudget
      ensures old(Reserving(binding)) ==> Gated(r, binding) && Accounts(r, binding, lease.owner)
    {
      var ok := Pass(stage, binding);
      if ok { return Ok(()); }
      r := GiveBack(lease, stage, binding);
    }

    /** A failed release leaves the reservation as it was; a successful one frees it. */
    method GiveBack(lease: RunLease, stage: Stage, ghost binding: Binding) returns (r: Result<(), Stage>)
      requires store.config.Valid() && OneShot()
      requires binding.attemptId == lease.attemptId && binding.leaseGeneration == lease.leaseGeneration
      requires store.submission.None? ==> starts == []
      modifies store
      ensures OneShot() && store.submission == old(store.submission)
      ensures r == Err(stage) || r == Err(ReleaseBudget)
      ensures old(Reserving(binding)) ==>
                && Unprepared(store.View()) && HeldOrReleased(store.View(), binding)
                && (r == Err(stage) && stage != ReleaseBudget ==> HasBudget(store.View(), binding, Released))
                && (r == Err(ReleaseBudget) && stage != ReleaseBudget ==> Accounts(r, binding, lease.owner))
    {
      AwaitKeeps(store.View(), script, ReleaseBudget, binding);
      r := ReleaseUnstarted(lease, stage, binding);
    }

    /** Principal, access and reservation. */
    method Admit(binding: Binding) returns (r: Result<(), Stage>)
      requires store.config.Valid() && OneShot()
      requires store.submission.None? ==> starts == []
      modifies store
      ensures r.Ok? <==> Admitted(script.fate)
      ensures r.Ok? ==> Waited(old(store.View()), AdmissionTime(script.elapsed))
      ensures r.Err? ==> FailsFirst(script.fate, r.error) && Place(r.error) < 3
      ensures OneShot() && store.submission == old(store.submission)
      ensures old(Fresh(store.View())) ==>
                && Accounts(r, binding, "")
                && match r {
                     case Ok(_) => Reserving(binding)
                     case Err(stage) => LeftBehind(store.config, store.View(), binding, stage, false)
                   }
    {
      var ok := Pass(FirstPrincipal, binding);
      if !ok { return Err(FirstPrincipal); }
      ok := Pass(FirstAccess, binding);
      if !ok { return Err(FirstAccess); }
      ok := Reserve(binding);
      r := if ok then Ok(()) else Err(ReserveBudget);
    }

    /** Budget and egress authorization. */
    method AuthorizeTransfer(lease: RunLease, ghost binding: Binding) returns (r: Result<(), Stage>)
      requires store.config.Valid() && OneShot()
      requires binding.attemptId == lease.attemptId && binding.leaseGeneration == lease.leaseGeneration
      requires store.submission.None? ==> starts == []
      modifies store
      ensures OneShot() && store.submission == old(store.submission)
      ensures r.Ok? ==> store.budget == old(store.budget) && Waited(old(store.View()), AuthorizationTime(script.elapsed))
      ensures r.Ok? <==> Authorized(script.fate)
      ensures r.Err? ==> FailsFirst(script.fate, r.error) && (3 <= Place(r.error) < 7 || r.error == ReleaseBudget)
      ensures old(Reserving(binding)) ==> Gated(r, binding) && Accounts(r, binding, lease.owner)
    {
      r := Gate(lease, AuthorizeBudget, binding);
      if r.Err? { return; }
      r := Gate(lease, AuthorizeEgress, binding);
      if r.Err? { return; }
      r := Gate(lease, RecordEgress, binding);
      if r.Err? { return; }
      r := Gate(lease, ProveEgress, binding);
    }

    /** The context of the call, and the second look at principal and access. */
    method Confirm(lease: RunLease, ghost binding: Binding) returns (r: Result<(), Stage>)
      requires store.config.Valid() && OneShot()
      requires binding.attemptId == lease.attemptId && binding.leaseGeneration == lease.leaseGeneration
      requires store.submission.None? ==> starts == []
      modifies store
      ensures OneShot() && store.submission == old(store.submission)
      ensures r.Ok? ==> store.budget == old(store.budget) && Waited(old(store.View()), ConfirmationTime(script.elapsed))
      ensures r.Ok? <==> Confirmed(script.fate)
      ensures r.Err? ==> FailsFirst(script.fate, r.error) && (7 <= Place(r.error) < 10 || r.error == ReleaseBudget)
      ensures old(Reserving(binding)) ==> Gated(r, binding) && Accounts(r, binding, lease.owner)
    {
      r := Gate(lease, BuildContext, binding);
      if r.Err? { return; }
      r := Gate(lease, SecondPrincipal, binding);
      if r.Err? { return; }
      r := Gate(lease, SecondAccess, binding);
    }

    ghost predicate Opened(binding: Binding, state: BudgetState)
      reads this, store
    {
      Open(store.View(), binding) && HasBudget(store.View(), binding, state)
    }

    ghost predicate Failed(stage: Stage, binding: Binding)
      reads this, store
    {
      LeftBehind(store.config, store.View(), binding, stage, starts != [])
    }

    /** Writes the row, or gives the reservation back. */
    method WriteRow(lease: RunLease, binding: Binding) returns (r: Result<RunLease, Stage>)
      requires store.config.Valid() && OneShot()
      requires binding.attemptId == lease.attemptId && binding.leaseGeneration == lease.leaseGeneration
      requires store.submission.None? ==> starts == []
      modifies store
      ensures OneShot()
      ensures r.Ok? ==>
                && old(store.submission).None? && store.submission == Some(PreparedRow(binding, store.now))
                && PristinePrepared(store.submission.value)
                && r.value == lease.(version := r.value.version)
                && script.fate(PrepareRow) == Succeeds
      ensures r.Err? ==> (r.error == PrepareRow || r.error == ReleaseBudget) && FailsFirst(script.fate, r.error)
      ensures r.Ok? ==> store.now == old(store.now) + script.elapsed(PrepareRow) && Leased(r.value, runLeaseTtl)
      ensures old(Reserving(binding)) ==>
                (r.Ok? <==> script.fate(PrepareRow) == Succeeds && WrittenInTime(old(store.View()), lease, script))
      ensures old(Reserving(binding)) ==>
                if r.Ok? then Opened(binding, Reserved)
                else Failed(r.error, binding) && Accounts(Err(r.error), binding, lease.owner)
    {
      AwaitKeeps(store.View(), script, PrepareRow, binding);
      Await(PrepareRow);
      var ok, renewed := Prepare(lease, binding);
      if ok { return Ok(renewed); }
      var stage := Withdraw(lease, binding);
      r := Err(stage);
    }

    /** Gives the reservation back after the row could not be written, or was without the service hearing of it. */
    method Withdraw(lease: RunLease, ghost binding: Binding) returns (stage: Stage)
      requires store.config.Valid() && OneShot()
      modifies store
      ensures OneShot() && (stage == PrepareRow || stage == ReleaseBudget)
      ensures starts == [] && old((Unprepared(store.View()) || Open(store.View(), binding)) && HasBudget(store.View(), binding, Reserved))
              ==> Failed(stage, binding)
      ensures binding.attemptId == lease.attemptId && binding.leaseGeneration == lease.leaseGeneration
              && old((Unprepared(store.View()) || Open(store.View(), binding)) && HasBudget(store.View(), binding, Reserved))
              ==> Accounts(Err(stage), binding, lease.owner)
    {
      AwaitKeeps(store.View(), script, ReleaseBudget, binding);
      var released := ReleaseUnstarted(lease, PrepareRow, binding);
      stage := released.error;
    }

    /** Closes an open row; a row that was accepted after all is left alone. */
    method Close(lease: RunLease, binding: Binding, reason: ReasonCode) returns (ok: bool)
      requires store.config.Valid()
      modifies store
      ensures store.submission.Some? == old(store.submission).Some? && store.budget == old(store.budget)
      ensures old(Open(store.View(), binding)) ==>
                Ambiguous(store.View(), binding) || (!ok && Open(store.View(), binding))
      ensures old(Accepted(store.config, store.View(), binding)) ==>
                !ok && Accepted(store.config, store.View(), binding)
      ensures binding.attemptId == lease.attemptId && binding.leaseGeneration == lease.leaseGeneration
              && old(Open(store.View(), binding) && (Proves(lease) || Unheard(script))) && !ok
              ==> ClosingExplained(script, store.View(), binding, store.submission.value.state)
      ensures binding.attemptId == lease.attemptId && binding.leaseGeneration == lease.leaseGeneration
              && old(Open(store.View(), binding)) && old(HeldForAReason(script, store.View(), binding, lease.owner))
              ==> HeldForAReason(script, store.View(), binding, lease.owner)
    {
      AwaitKeeps(store.View(), script, CloseRow, binding);
      if Accepted(store.config, store.View(), binding) {
        AwaitKeepsAccepted(store.config, store.View(), script, CloseRow, binding);
      }
      Await(CloseRow);
      ok := CloseAmbiguity(lease, binding, reason);
    }

    /** Marks the reservation uncertain; otherwise gives it back and closes the row. */
    method Mark(lease: RunLease, binding: Binding, ghost left: int) returns (r: Result<(), Stage>)
      requires store.config.Valid() && starts == [] && store.submission.Some?
      modifies store
      ensures store.submission.Some?
      ensures r.Ok? ==> store.submission == old(store.submission) && store.budget.Some? && store.budget.value.state == Uncertain
      ensures r.Ok? ==> script.fate(MarkUncertain) == Succeeds
      ensures r.Err? ==> r.error == MarkUncertain || r.error == CloseRow || r.error == ReleaseBudget
      ensures r.Ok? ==> Waited(old(store.View()), script.elapsed(MarkUncertain))
      ensures old(Opened(binding, Reserved)) ==> if r.Ok? then Opened(binding, Uncertain) else Failed(r.error, binding)
      ensures binding.attemptId == lease.attemptId && binding.leaseGeneration == lease.leaseGeneration
              && old(Opened(binding, Reserved) && Leased(lease, left))
              ==> && Accounts(r, binding, lease.owner)
                  && (r.Ok? <==> && script.fate(MarkUncertain) == Succeeds
                                 && lease.owner != "" && script.elapsed(MarkUncertain) < left)
                  && (r.Ok? ==> Leased(lease, left - script.elapsed(MarkUncertain)))
    {
      AwaitKeeps(store.View(), script, MarkUncertain, binding);
      Await(MarkUncertain);
      var ok := Reconcile(lease, Uncertain, MarkUncertain);
      if ok { return Ok(()); }
      r := Unmark(lease, binding);
    }

    method Unmark(lease: RunLease, binding: Binding) returns (r: Result<(), Stage>)
      requires store.config.Valid() && starts == [] && store.submission.Some?
      modifies store
      ensures store.submission.Some? && r.Err?
      ensures r.error == MarkUncertain || r.error == CloseRow || r.error == ReleaseBudget
      ensures old(Opened(binding, Reserved) || Opened(binding, Uncertain)) ==> Failed(r.error, binding)
      ensures && binding.attemptId == lease.attemptId && binding.leaseGeneration == lease.leaseGeneration
              && old(&& (Opened(binding, Reserved) || (Opened(binding, Uncertain) && script.fate(MarkUncertain) == FailsAfter))
                     && Proves(lease))
              ==> Accounts(r, binding, lease.owner)
    {
      hide LeftBehind, Unheard, Unhandled, Invariant.Inv;
      AwaitKeeps(store.View(), script, ReleaseBudget, binding);
      var released := ReleaseUnstarted(lease, MarkUncertain, binding);
      r := CloseUnmarked(lease, binding, released.error);
    }

    /** How giving the reservation back went, and why it may have failed. */
    ghost predicate WentBack(cause: Stage, binding: Binding, owner: string)
      reads store
    {
      if cause == MarkUncertain then HasBudget(store.View(), binding, Released)
      else Explained(script, store.View(), binding, owner, ReleaseBudget)
    }

    /** Closes the row whose reservation could not be marked, and reports how giving it back went. */
    method CloseUnmarked(lease: RunLease, binding: Binding, cause: Stage) returns (r: Result<(), Stage>)
      requires store.config.Valid() && starts == [] && store.submission.Some?
      requires cause == MarkUncertain || cause == ReleaseBudget
      modifies store
      ensures store.submission.Some? && r.Err? && (r.error == cause || r.error == CloseRow)
      ensures old(&& Open(store.View(), binding)
                  && (if cause == MarkUncertain then HasBudget(store.View(), binding, Released)
                      else HeldOrReleased(store.View(), binding) || HasBudget(store.View(), binding, Uncertain)))
              ==> Failed(r.error, binding)
      ensures && binding.attemptId == lease.attemptId && binding.leaseGeneration == lease.leaseGeneration
              && old(Open(store.View(), binding) && Proves(lease) && WentBack(cause, binding, lease.owner))
              ==> Accounts(r, binding, lease.owner)
    {
      hide Lapsed, Proves, Unheard, Unhandled, Base, Invariant.Inv;
      var ok := Close(lease, binding, BudgetUncertaintyNotPersisted);
      r := if ok then Err(cause) else Err(CloseRow);
    }

    /** Closes the row after the transport was started and reports the failure that led here. */
    method CloseStarted(lease: RunLease, binding: Binding, reason: ReasonCode, cause: Stage) returns (r: Result<(), Stage>)
      requires store.config.Valid() && OneShot() && starts != []
      requires cause == Transport || cause == AcceptRow
      modifies store
      ensures r.Err? && OneShot() && (r.error == cause || r.error == CloseRow)
      ensures old(Opened(binding, Uncertain) || Accepted(store.config, store.View(), binding)) ==> Failed(r.error, binding)
      ensures && binding.attemptId == lease.attemptId && binding.leaseGeneration == lease.leaseGeneration
              && old(|| (Opened(binding, Uncertain) && (Proves(lease) || Unheard(script)))
                     || (Accepted(store.config, store.View(), binding) && script.fate(AcceptRow) == FailsAfter))
              ==> Accounts(r, binding, lease.owner)
    {
      hide Lapsed, Proves, Unheard, Unhandled, Base, Invariant.Inv;
      var ok := Close(lease, binding, reason);
      r := if ok then Err(cause) else Err(CloseRow);
    }

    /** Binds the provider's answer; otherwise the row is still open, or was accepted without the service
        hearing of it. */
    method Acknowledge(lease: RunLease, binding: Binding, ghost left: int) returns (ok: bool)
      requires store.config.Valid() && OneShot() && starts != []
      requires binding.attemptId == lease.attemptId && binding.leaseGeneration == lease.leaseGeneration
      modifies store
      ensures OneShot() && (ok ==> script.fate(AcceptRow) == Succeeds)
      ensures old(Opened(binding, Uncertain)) ==>
                || Accepted(store.config, store.View(), binding)
                || (!ok && Opened(binding, Uncertain))
      ensures old(Opened(binding, Uncertain) && Leased(lease, left)) ==>
                && (ok <==> script.fate(AcceptRow) == Succeeds && BoundInTime(store.config, old(store.now), left, script))
                && (|| ok || (Accepted(store.config, store.View(), binding) && script.fate(AcceptRow) == FailsAfter)
                    || (Opened(binding, Uncertain) && Proves(lease)))
    {
      AwaitKeeps(store.View(), script, AcceptRow, binding);
      Await(AcceptRow);
      if Opened(binding, Uncertain) {
        AcceptEstablishesInv(store.config, store.View(), lease, binding, script.acknowledgement);
      }
      ok := Accept(lease, binding, script.acknowledgement);
    }

    /** Binds the provider's answer to the open row, or closes it. */
    method Bind(lease: RunLease, binding: Binding, ghost left: int) returns (r: Result<(), Stage>)
      requires store.config.Valid() && OneShot() && starts != []
      requires binding.attemptId == lease.attemptId && binding.leaseGeneration == lease.leaseGeneration
      modifies store
      ensures OneShot()
      ensures r.Ok? ==> script.fate(AcceptRow) == Succeeds
      ensures r.Err? ==> r.error == AcceptRow || r.error == CloseRow
      ensures old(Opened(binding, Uncertain) && Leased(lease, left)) ==>
                && Accounts(r, binding, lease.owner)
                && (r.Ok? <==> script.fate(AcceptRow) == Succeeds && BoundInTime(store.config, old(store.now), left, script))
      ensures old(Opened(binding, Uncertain)) ==>
                if r.Ok? then Accepted(store.config, store.View(), binding) else Failed(r.error, binding)
    {
      hide Accepted, Explained, LeftBehind, HasBudget, Open, BoundInTime, Leased, Proves;
      var ok := Acknowledge(lease, binding, left);
      if ok { return Ok(()); }
      r := CloseStarted(lease, binding, AcknowledgementNotPersisted, AcceptRow);
    }

    /** Starts the transport, once, and binds the provider's answer. */
    method Send(lease: RunLease, binding: Binding, ghost left: int) returns (r: Result<(), Stage>)
      requires store.config.Valid() && starts == []
      requires store.submission.Some? && PristinePrepared(store.submission.value)
      requires store.budget.Some? && store.budget.value.state == Uncertain
      requires binding.attemptId == lease.attemptId && binding.leaseGeneration == lease.leaseGeneration
      modifies this, store
      ensures OneShot() && starts == [old(store.View())]
      ensures r.Ok? ==> script.fate(Transport) == Succeeds && script.fate(AcceptRow) == Succeeds
      ensures r.Err? ==> r.error == Transport || r.error == CloseRow
                         || (r.error == AcceptRow && script.fate(Transport) == Succeeds)
      ensures old(Opened(binding, Uncertain) && Leased(lease, left)) ==>
                && Accounts(r, binding, lease.owner)
                && (r.Ok? <==> && script.fate(Transport) == Succeeds && script.fate(AcceptRow) == Succeeds
                               && AnsweredInTime(store.config, old(store.now), left, script, runLeaseTtl))
      ensures old(Opened(binding, Uncertain)) ==> Ended(r, binding)
    {
      var ok, renewed := SubmitWithHeartbeats(lease, binding, left);
      if !ok {
        r := CloseStarted(renewed, binding, SubmissionOutcomeUncertain, Transport);
        return;
      }
      r := Bind(renewed, binding, LeftAfter(script.heartbeats, left, runLeaseTtl) - script.elapsed(Transport));
    }

    /** Everything before the row exists. */
    method Clear(lease: RunLease, binding: Binding) returns (r: Result<(), Stage>)
      requires store.config.Valid() && OneShot()
      requires binding.attemptId == lease.attemptId && binding.leaseGeneration == lease.leaseGeneration
      requires store.submission.None? ==> starts == []
      modifies store
      ensures OneShot() && store.submission == old(store.submission)
      ensures r.Ok? <==> Admitted(script.fate) && Authorized(script.fate) && Confirmed(script.fate)
                         && script.fate(HashRequest) == Succeeds
      ensures r.Ok? ==> Waited(old(store.View()), ClearanceTime(script.elapsed))
      ensures r.Err? ==> FailsFirst(script.fate, r.error) && (Place(r.error) < 11 || r.error == ReleaseBudget)
                         && (3 <= Place(r.error) < 11 ==> Admitted(script.fate))
                         && (7 <= Place(r.error) < 11 ==> Authorized(script.fate))
      ensures old(Fresh(store.View())) ==> Gated(r, binding) && Accounts(r, binding, lease.owner)
    {
      r := Admit(binding);
      if r.Err? { return; }
      r := AuthorizeTransfer(lease, binding);
      if r.Err? { return; }
      r := Confirm(lease, binding);
      if r.Err? { return; }
      var ok := Pass(HashRequest, binding);
      r := if ok then Ok(()) else Err(HashRequest);
    }

    /** The transport saw an open row with an uncertain reservation, and the end is an accepted row or what
        a failure at this stage leaves behind. */
    ghost predicate Ended(r: Result<(), Stage>, binding: Binding)
      reads this, store
    {
      && (starts != [] ==> Open(starts[0], binding) && HasBudget(starts[0], binding, Uncertain))
      && match r
         case Ok(_) => starts != [] && Accepted(store.config, store.View(), binding)
         case Err(stage) => LeftBehind(store.config, store.View(), binding, stage, starts != [])
    }

    lemma EndedUnstarted(stage: Stage, binding: Binding)
      requires starts == [] && Failed(stage, binding)
      ensures Ended(Err(stage), binding)
    {}

    /** Writes the row, marks the reservation and sends. */
    method Dispatch(lease: RunLease, binding: Binding) returns (r: Result<(), Stage>)
      requires store.config.Valid() && OneShot()
      requires binding.attemptId == lease.attemptId && binding.leaseGeneration == lease.leaseGeneration
      requires store.submission.None? ==> starts == []
      modifies this, store
      ensures OneShot()
      ensures r.Ok? ==> Sendable(script.fate) && script.fate(Transport) == Succeeds && script.fate(AcceptRow) == Succeeds
      ensures r.Err? ==> FailsFirst(script.fate, r.error) && 11 <= Place(r.error)
      ensures starts != old(starts) ==> Sendable(script.fate)
      ensures old(store.submission).Some? ==> starts == old(starts)
      ensures old(Reserving(binding)) ==>
                (r.Ok? <==>
                   && Sendable(script.fate) && script.fate(Transport) == Succeeds && script.fate(AcceptRow) == Succeeds
                   && WrittenInTime(old(store.View()), lease, script)
                   && SentInTime(store.config, old(store.now) + script.elapsed(PrepareRow), runLeaseTtl, lease.owner, script, runLeaseTtl))
      ensures old(Reserving(binding)) ==> Ended(r, binding) && Accounts(r, binding, lease.owner)
    {
      assert Reserving(binding) ==> starts == [];
      hide Ended, Failed, Explained, HasBudget, Open, SentInTime, WrittenInTime, Unprepared, FailsFirst, PreparedRow,
        PristinePrepared, OneShot;
      var prepared := WriteRow(lease, binding);
      if prepared.Err? {
        if starts == [] && Failed(prepared.error, binding) { EndedUnstarted(prepared.error, binding); }
        return Err(prepared.error);
      }
      r := Launch(prepared.value, binding, runLeaseTtl);
    }

    lemma SendingComesNext(now: int, left: int, owner: string)
      ensures SentInTime(store.config, now, left, owner, script, runLeaseTtl) <==>
                && owner != "" && script.elapsed(MarkUncertain) < left
                && AnsweredInTime(store.config, now + script.elapsed(MarkUncertain), left - script.elapsed(MarkUncertain),
                                  script, runLeaseTtl)
    {}

    /** Marks the reservation of a row that was just written, and sends. */
    method Launch(lease: RunLease, binding: Binding, ghost left: int) returns (r: Result<(), Stage>)
      requires store.config.Valid() && starts == []
      requires store.submission.Some? && PristinePrepared(store.submission.value)
      requires binding.attemptId == lease.attemptId && binding.leaseGeneration == lease.leaseGeneration
      modifies this, store
      ensures OneShot()
      ensures starts != [] ==> script.fate(MarkUncertain) == Succeeds
      ensures r.Ok? ==> script.fate(MarkUncertain) == Succeeds && script.fate(Transport) == Succeeds
                        && script.fate(AcceptRow) == Succeeds
      ensures r.Err? ==> 12 <= Place(r.error)
                         && (script.fate(PrepareRow) == Succeeds ==> FailsFirst(script.fate, r.error))
      ensures old(Opened(binding, Reserved) && Leased(lease, left)) ==>
                && Accounts(r, binding, lease.owner)
                && (r.Ok? <==> && script.fate(MarkUncertain) == Succeeds && script.fate(Transport) == Succeeds
                               && script.fate(AcceptRow) == Succeeds
                               && SentInTime(store.config, old(store.now), left, lease.owner, script, runLeaseTtl))
      ensures old(Opened(binding, Reserved)) ==> Ended(r, binding)
    {
      hide Ended, Failed, Explained, HasBudget, Open, Accepted, Leased, SentInTime, AnsweredInTime;
      SendingComesNext(store.now, left, lease.owner);
      r := Mark(lease, binding, left);
      if r.Err? {
        if Failed(r.error, binding) { EndedUnstarted(r.error, binding); }
        return;
      }
      r := Send(lease, binding, left - script.elapsed(MarkUncertain));
    }

    /** `submit`: reserve, authorize, prepare, mark uncertain, send once, bind the answer. */
    method Submit(lease: RunLease, identity: string) returns (r: Result<(), Stage>)
      requires store.config.Valid() && OneShot()
      modifies this, store
      ensures OneShot()
      ensures r.Ok? ==> AllSucceed(script, 0, 15)
      ensures r.Err? ==> FirstFailure(script, r.error)
      ensures starts != old(starts) ==> AllSucceed(script, 0, 13)
      ensures old(store.submission).Some? ==> starts == old(starts)
      ensures old(Fresh(store.View())) ==>
                (r.Ok? <==> AllSucceed(script, 0, 15) && old(InTime(store.config, store.View(), lease, script, runLeaseTtl)))
      ensures var binding := Binding(identity, lease.attemptId, lease.leaseGeneration);
              old(Fresh(store.View())) ==> Ended(r, binding) && Accounts(r, binding, lease.owner)
    {
      var binding := Binding(identity, lease.attemptId, lease.leaseGeneration);
      StagesInOrder(script);
      AllStages(script);
      r := Clear(lease, binding);
      if r.Err? {
        FirstOfAll(script, r.error);
        return;
      }
      r := Dispatch(lease, binding);
      if r.Err? { FirstOfAll(script, r.error); }
    }
  }
}
