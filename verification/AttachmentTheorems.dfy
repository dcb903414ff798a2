/** What the attachment protocol promises over whole runs, and where the code stops short of it. */
module AttachmentTheorems {
  import opened Wrappers
  import opened AttachmentSteps
  import opened AttachmentProtocol
  import opened AttachmentInvariant

  /** A world in which the ticket has just been issued; the store may already hold anything. */
  predicate Issued(w: World) {
    && w.record.quarantine == PendingUpload && w.record.tokenHash.Some? && w.record.blob.None?
    && w.record.quarantineBlob == Some(w.quarantineKey)
    && w.upload == NotStarted && w.cleanups == [] && w.removals == [] && w.finalizations == []
    && w.quarantineKey in w.issued && w.named.None? && w.attested.None? && w.claims == 0
    && w.orphans == w.objects.Keys
  }

  /** The promise about a served record holds now and after every step of the run. */
  predicate AlwaysServed(w: World, actions: seq<Action>)
    decreases |actions|
  {
    Served(w) && (actions == [] || AlwaysServed(Step(w, actions[0]), actions[1..]))
  }

  /** No step of the run deletes, as unpublished, the object that the record serves. */
  predicate NeverDeletes(w: World, actions: seq<Action>)
    decreases |actions|
  {
    actions == [] || (!Deletes(w, actions[0]) && NeverDeletes(Step(w, actions[0]), actions[1..]))
  }

  lemma {:induction false} ServedRun(w: World, actions: seq<Action>)
    requires Inv(w)
    ensures AlwaysServed(w, actions) <==> NeverDeletes(w, actions)
    decreases |actions|
  {
    if actions != [] {
      ServedStep(w, actions[0]);
      if !Deletes(w, actions[0]) {
        ServedRun(Step(w, actions[0]), actions[1..]);
      }
    }
  }

  /** Over every interleaving with store failures and lost answers, a record that is ready or released
      names an existing object with exactly the size and checksum the scanner attested, as long as and
      only as long as the upload does not take that object for unpublished and delete it. */
  lemma ServedRecordsNameAttestedObjects(w: World, actions: seq<Action>)
    requires Issued(w)
    ensures AlwaysServed(w, actions) <==> NeverDeletes(w, actions)
  {
    ServedRun(w, actions);
  }

  lemma {:induction false} RunKeeps(w: World, actions: seq<Action>)
    requires Base(w)
    ensures Base(Execute(w, actions))
    decreases |actions|
  {
    if actions != [] {
      StepKeeps(w, actions[0]);
      RunKeeps(Step(w, actions[0]), actions[1..]);
    }
  }

  /** Over every interleaving, without any exception: a final key that the record no longer names is gone
      from the store. */
  lemma DroppedKeysAreGone(w: World, actions: seq<Action>)
    requires Issued(w)
    ensures var after := Execute(w, actions);
            after.named.Some? && after.record.blob.None? ==> after.named.value !in after.objects
  {
    RunKeeps(w, actions);
  }

  /** The upload's accepting commit took effect and its answer was lost. */
  predicate AcceptanceLost(w: World, a: Action) {
    && a.DoUpload? && w.upload.Finishing? && w.upload.verdict.Accept?
    && a.answers.commit == LostReply && w.upload.claimed.version == w.record.version
  }

  /** Nothing but a lost answer of the accepting commit puts the served object in that danger. */
  lemma EndangeredExactlyByALostAnswer(w: World, a: Action)
    requires Inv(w) && !Endangered(w)
    ensures Endangered(Step(w, a)) <==> AcceptanceLost(w, a)
  {
    if a.DoUpload? {
      EndangeredByTheUpload(w, a.answers);
    } else {
      NotEndangeredByOthers(w, a);
    }
  }

  lemma NotEndangeredByOthers(w: World, a: Action)
    requires !Endangered(w) && !a.DoUpload?
    requires a.DoFinalize? && a.i < |w.finalizations| ==> Snapshot(w, w.finalizations[a.i])
    ensures !Endangered(Step(w, a))
  {}

  lemma EndangeredByTheUpload(w: World, a: Answers)
    requires Inv(w) && !Endangered(w)
    ensures Endangered(UploadStep(w, a)) <==> AcceptanceLost(w, DoUpload(a))
  {
    if w.upload.Finishing? {
      assert UploadClaim(w, w.upload.claimed);
    }
  }

  /** No accepting commit along the run loses its answer. */
  predicate Acknowledged(w: World, actions: seq<Action>)
    decreases |actions|
  {
    actions == [] || (!AcceptanceLost(w, actions[0]) && Acknowledged(Step(w, actions[0]), actions[1..]))
  }

  lemma {:induction false} SafeRun(w: World, actions: seq<Action>)
    requires Inv(w) && !Endangered(w) && Acknowledged(w, actions)
    ensures AlwaysServed(w, actions)
    decreases |actions|
  {
    if actions != [] {
      ServedStep(w, actions[0]);
      EndangeredExactlyByALostAnswer(w, actions[0]);
      SafeRun(Step(w, actions[0]), actions[1..]);
    }
  }

  /** What a caller can rely on: whatever else fails, while every accepting commit is answered the promise
      about a served record holds after every step. */
  lemma AcknowledgedRunsAreServed(w: World, actions: seq<Action>)
    requires Issued(w) && Acknowledged(w, actions)
    ensures AlwaysServed(w, actions)
  {
    SafeRun(w, actions);
  }

  // ---------------------------------------------------------------------------------------------
  // One upload, fenced workers
  // ---------------------------------------------------------------------------------------------

  predicate OneShot(w: World) { w.claims <= 1 && (w.record.tokenHash.Some? ==> w.claims == 0) }

  lemma StepIsOneShot(w: World, a: Action)
    requires OneShot(w)
    ensures OneShot(Step(w, a)) && w.record.version <= Step(w, a).record.version
    ensures w.claims < Step(w, a).claims ==>
              && a.DoClaimUpload? && a.isOwner && Some(a.tokenHash) == w.record.tokenHash
              && w.record.quarantine == PendingUpload && w.record.uploadExpiresAt.Some?
              && w.now < w.record.uploadExpiresAt.value
  {
    match a
    case DoUpload(answers) => UploadStepIsOneShot(w, answers);
    case _ =>
  }

  lemma UploadStepIsOneShot(w: World, a: Answers)
    requires OneShot(w)
    ensures var after := UploadStep(w, a);
            OneShot(after) && after.claims == w.claims && w.record.version <= after.record.version
  {}

  /** However often and by whomever it is tried, at most one claim of the upload ever succeeds. */
  lemma {:induction false} AtMostOneUploadClaim(w: World, actions: seq<Action>)
    requires OneShot(w)
    ensures OneShot(Execute(w, actions)) && w.record.version <= Execute(w, actions).record.version
    decreases |actions|
  {
    if actions != [] {
      StepIsOneShot(w, actions[0]);
      AtMostOneUploadClaim(Step(w, actions[0]), actions[1..]);
    }
  }

  /** Whoever holds a copy that the row has moved past changes nothing any more, whatever happens in between. */
  lemma StaleHoldersStayFenced(w: World, actions: seq<Action>, stale: Record, verdict: Verdict, storageDeleted: bool, at: int)
    requires OneShot(w) && stale.version < w.record.version
    ensures var r := Execute(w, actions).record;
            && FinishUpload(r, stale, verdict).None?
            && FinishCleanup(r, stale, storageDeleted, at).None?
            && MarkDeleting(w.limits, r, stale, at).None?
            && FinishRemoval(r, stale, at).None?
            && Finalize(r, stale, at).None?
  {
    AtMostOneUploadClaim(w, actions);
  }

  /** A cleanup claim is exclusive for its whole lease, and then open to another worker. */
  lemma CleanupLeaseIsExclusive(limits: Limits, r: Record, at: int, due: bool, later: int, laterDue: bool)
    requires ClaimCleanup(limits, r, at, due).Some?
    ensures var claimed := ClaimCleanup(limits, r, at, due).value;
            && claimed.version == r.version + 1
            && (ClaimCleanup(limits, claimed, later, laterDue).Some? <==>
                  at + limits.cleanupLeaseTtl <= later && (RetentionPending(claimed) ==> laterDue))
  {}

  // ---------------------------------------------------------------------------------------------
  // Retrying a removal
  // ---------------------------------------------------------------------------------------------

  /** A failed cleanup is retried as soon as its backoff is over, unless the row is being deleted: then
      it waits for session retention, which an active session never grants. */
  lemma FailedCleanupIsRetriedExactlyWhen(limits: Limits, r: Record, at: int, due: bool, now: int, nowDue: bool)
    requires ClaimCleanup(limits, r, at, due).Some?
    ensures var claimed := ClaimCleanup(limits, r, at, due).value;
            && FinishCleanup(claimed, claimed, false, at).Some?
            && var failed := FinishCleanup(claimed, claimed, false, at).value;
               && failed.blob == r.blob && failed.quarantineBlob == r.quarantineBlob
               && failed.cleanupNextAttemptAt.Some? && at + 60 <= failed.cleanupNextAttemptAt.value <= at + 3600
               && (ClaimCleanup(limits, failed, now, nowDue).Some? <==>
                     failed.cleanupNextAttemptAt.value <= now && (r.quarantine == Deleting ==> nowDue))
  {}

  /** An owner's removal whose store call failed is first picked up by cleanup like any other row. If
      that attempt fails too, or its worker dies, no later pass of an active session takes the row
      again; only the owner's repeating the removal does. */
  lemma RemovalIsStrandedAfterOneFailedCleanup(limits: Limits, r: Record, removedAt: int, at: int, now: int)
    requires Removable(r) && removedAt + limits.uploadProcessingTtl <= at
    ensures MarkDeleting(limits, r, r, removedAt).Some?
    ensures var marked := MarkDeleting(limits, r, r, removedAt).value;
            && ClaimCleanup(limits, marked, at, false).Some?
            && var claimed := ClaimCleanup(limits, marked, at, false).value;
               && ClaimCleanup(limits, claimed, now, false).None?
               && FinishCleanup(claimed, claimed, false, at).Some?
               && var failed := FinishCleanup(claimed, claimed, false, at).value;
                  && ClaimCleanup(limits, failed, now, false).None?
                  && (failed.cleanupNextAttemptAt.value <= now ==> IsCleanupEligible(failed, now))
                  && MarkDeleting(limits, failed, failed, now).Some?
                  && !RetentionPending(MarkDeleting(limits, failed, failed, now).value)
  {}

  /** A row in that state, with nobody left who holds a current copy of it. */
  predicate Stranded(w: World) {
    && RetentionPending(w.record)
    && (forall i :: 0 <= i < |w.cleanups| ==> w.cleanups[i].over || w.cleanups[i].claimed.version < w.record.version)
    && (forall i :: 0 <= i < |w.removals| && w.removals[i].Marked? ==> w.removals[i].marked.version < w.record.version)
    && (forall i :: 0 <= i < |w.finalizations| ==> w.finalizations[i].version < w.record.version)
    && StaleUpload(w.upload, w.record)
  }

  predicate StaleUpload(u: Upload, r: Record) {
    match u
    case NotStarted => r.tokenHash.None?
    case Over => true
    case Abandoning(_) => true
    case _ => u.claimed.version < r.version
  }

  /** What could still help: the owner's own retry, or session retention. */
  predicate Helps(a: Action) { a.DoMark? || (a.DoClaimCleanup? && a.retentionDue) }

  lemma StrandedStep(w: World, a: Action)
    requires Stranded(w) && !Helps(a)
    ensures Stranded(Step(w, a)) && Step(w, a).record == w.record
  {
    var after := Step(w, a);
    match a
    case DoUpload(answers) => StaleUploadStep(w, answers);
    case DoCleanup(i, fate) => StrandedCleanup(w, i, fate);
    case DoRemove(i, fate) => StrandedRemove(w, i, fate);
    case _ =>
  }

  lemma StrandedCleanup(w: World, i: nat, fate: Fate)
    requires Stranded(w)
    ensures Stranded(CleanupStep(w, i, fate)) && CleanupStep(w, i, fate).record == w.record
  {
    var after := CleanupStep(w, i, fate);
    if i < |w.cleanups| && !w.cleanups[i].over {
      assert after.cleanups[i].claimed == w.cleanups[i].claimed;
      assert forall k :: 0 <= k < |w.cleanups| && k != i ==> after.cleanups[k] == w.cleanups[k];
    }
  }

  lemma StrandedRemove(w: World, i: nat, fate: Fate)
    requires Stranded(w)
    ensures Stranded(RemoveStep(w, i, fate)) && RemoveStep(w, i, fate).record == w.record
  {
    var after := RemoveStep(w, i, fate);
    if i < |w.removals| && w.removals[i].Marked? {
      assert after.removals[i].Marked? ==> after.removals[i].marked == w.removals[i].marked;
      assert forall k :: 0 <= k < |w.removals| && k != i ==> after.removals[k] == w.removals[k];
    }
  }

  /** The row and the other actors stay as they are, and the upload stays behind. */
  predicate StaysStale(w: World, after: World) {
    after.record == w.record && SameActors(w, after) && StaleUpload(after.upload, w.record)
  }

  lemma StaleBeforeTheCopy(w: World, a: Answers)
    requires StaleUpload(w.upload, w.record) && (w.upload.Claimed? || w.upload.Stored? || w.upload.BeingScanned?)
    ensures StaysStale(w, UploadStep(w, a))
  {}

  lemma StaleVerdict(w: World, a: Answers)
    requires StaleUpload(w.upload, w.record) && w.upload.Finishing?
    ensures StaysStale(w, UploadStep(w, a))
  {}

  lemma StaleUploadStep(w: World, a: Answers)
    requires StaleUpload(w.upload, w.record)
    ensures StaysStale(w, UploadStep(w, a))
  {
    if w.upload.Claimed? || w.upload.Stored? || w.upload.BeingScanned? {
      StaleBeforeTheCopy(w, a);
    } else if w.upload.Finishing? {
      StaleVerdict(w, a);
    }
  }

  /** Without such help the row stays as it is through any run: neither deleted nor ever claimed again. */
  lemma {:induction false} StrandedForever(w: World, actions: seq<Action>)
    requires Stranded(w) && forall a :: a in actions ==> !Helps(a)
    ensures Stranded(Execute(w, actions)) && Execute(w, actions).record == w.record
    decreases |actions|
  {
    if actions != [] {
      StrandedStep(w, actions[0]);
      StrandedForever(Step(w, actions[0]), actions[1..]);
    }
  }
}
