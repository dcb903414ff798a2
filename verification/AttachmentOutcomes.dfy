/** What each transaction over an attachment leaves, said outright, and what stays for good. */
module AttachmentOutcomes {
  import opened Arithmetic
  import opened Wrappers
  import opened AttachmentSteps
  import opened AttachmentProtocol
  import opened AttachmentInvariant
  import opened AttachmentTheorems
  import Steps = AttachmentSteps

  // ---------------------------------------------------------------------------------------------
  // Transactions
  // ---------------------------------------------------------------------------------------------

  /** An upload is claimed exactly by the owner with the ticket's token before the ticket runs out. The
      token is gone then, and the row is safe from cleanup for as long as processing may take. */
  lemma ClaimUploadOutcome(limits: Limits, r: Record, now: int, isOwner: bool, tokenHash: string, later: int)
    ensures var u := ClaimUpload(limits, r, now, isOwner, tokenHash);
            && (u.Some? <==> isOwner && r.tokenHash == Some(tokenHash) && r.quarantine == PendingUpload
                             && r.deletedAt.None? && r.uploadExpiresAt.Some? && now < r.uploadExpiresAt.value)
            && (u.Some? ==>
                  && u.value == r.(tokenHash := None, quarantine := Uploading, processing := Scanning,
                                   processingExpiresAt := Some(now + limits.uploadProcessingTtl), version := r.version + 1)
                  && (IsCleanupEligible(u.value, later) <==> !r.linked && now + limits.uploadProcessingTtl <= later))
  {}

  /** The row that an accepted upload leaves. */
  predicate PublishedAs(before: Record, after: Record, finalKey: Key, o: Object) {
    after == before.(blob := Some(finalKey), quarantineBlob := None, byteCount := Some(o.size), sha := Some(o.sha),
                     quarantine := Ready, scan := Clean, processing := ProcessingReady, processingExpiresAt := None,
                     rejection := None, version := before.version + 1)
  }

  /** The row that a discarded upload leaves: rejected or failed for this reason, and to be cleaned up
      unless the deletion was confirmed. */
  predicate DiscardedAs(before: Record, after: Record, cause: Cause, deleted: bool) {
    && after == before.(quarantine := after.quarantine, scan := after.scan, byteCount := after.byteCount, sha := after.sha,
                        quarantineBlob := if deleted then None else before.quarantineBlob,
                        processing := if deleted then Complete else CleanupRequired, processingExpiresAt := None,
                        rejection := Some(cause.reason), version := before.version + 1)
    && match cause
       case Rejecting(byteCount, sha, _) =>
         after.quarantine == QuarantineState.Rejected && after.scan == ScanRejected
         && after.byteCount == byteCount && after.sha == sha
       case Failing(_) =>
         after.quarantine == QuarantineState.Failed && after.scan == ScanFailed
         && after.byteCount == before.byteCount && after.sha == before.sha
  }

  /** The row that an upload leaves which may have left its quarantine copy behind: failed, to be cleaned
      up, and naming that copy and the final one if its deletion was not confirmed. */
  predicate KeptAs(before: Record, after: Record, kept: Option<Key>, key: Key) {
    after == before.(blob := if kept.Some? then kept else before.blob, quarantineBlob := Some(key),
                     quarantine := QuarantineState.Failed, scan := ScanFailed, processing := CleanupRequired,
                     processingExpiresAt := None, rejection := Some("quarantine_cleanup_failed"),
                     version := before.version + 1)
  }

  /** A verdict is written exactly over the claimed version. */
  lemma VerdictOutcome(r: Record, claimed: Record, verdict: Verdict)
    ensures var u := FinishUpload(r, claimed, verdict);
            && (u.Some? <==> r.version == claimed.version)
            && (u.Some? ==>
                  match verdict
                  case Accept(finalKey, o) => PublishedAs(r, u.value, finalKey, o)
                  case Reject(deleted, byteCount, sha, reason) =>
                    DiscardedAs(r, u.value, Rejecting(byteCount, sha, reason), deleted)
                  case Fail(deleted, reason) => DiscardedAs(r, u.value, Failing(reason), deleted)
                  case FailKeeping(kept, key) => KeptAs(r, u.value, kept, key))
  {}

  /** The row is being deleted and its objects are somebody's to clean up. */
  predicate AwaitsRetention(r: Record) {
    r.quarantine == Deleting
    && (r.processing == RetentionCleanupRequired || r.processing == CleanupInProgress || r.processing == CleanupBackoff)
  }

  predicate Reached(time: Option<int>, now: int) { time.Some? && time.value <= now }

  /** When a cleanup worker may take a row, by the state the row is in. */
  lemma WhenCleanupMayTake(r: Record, now: int)
    requires (!r.linked && r.deletedAt.None?) || AwaitsRetention(r)
    ensures r.processing == CleanupRequired || r.processing == RetentionCleanupRequired ==> IsCleanupEligible(r, now)
    ensures r.processing == CleanupBackoff ==> (IsCleanupEligible(r, now) <==> Reached(r.cleanupNextAttemptAt, now))
    ensures r.processing == CleanupInProgress ==> (IsCleanupEligible(r, now) <==> Reached(r.cleanupLeaseExpiresAt, now))
    ensures r.processing == Pending && r.quarantine == PendingUpload ==>
              (IsCleanupEligible(r, now) <==> Reached(r.uploadExpiresAt, now))
    ensures r.processing == Scanning && r.quarantine == Uploading ==>
              (IsCleanupEligible(r, now) <==>
               Reached(if r.processingExpiresAt.Some? then r.processingExpiresAt else r.uploadExpiresAt, now))
    ensures r.processing == ProcessingDeleting && r.quarantine == Deleting ==>
              (IsCleanupEligible(r, now) <==> r.processingExpiresAt.None? || r.processingExpiresAt.value <= now)
    ensures && (r.processing == ProcessingReady || r.processing == Complete)
            && (r.quarantine == Ready || r.quarantine == Released || r.quarantine == QuarantineState.Rejected
                || r.quarantine == QuarantineState.Failed)
            ==> !IsCleanupEligible(r, now)
  {}

  /** A linked or deleted row is not taken at all, except for retention. */
  lemma LinkedOrDeletedIsNotTaken(r: Record, now: int)
    requires r.linked || r.deletedAt.Some?
    requires !AwaitsRetention(r)
    ensures !IsCleanupEligible(r, now)
  {}

  /** A cleanup claim counts generations, takes the token away and leases the row. */
  lemma ClaimCleanupOutcome(limits: Limits, r: Record, now: int, due: bool)
    ensures var u := ClaimCleanup(limits, r, now, due);
            && (u.Some? <==> IsCleanupEligible(r, now) && (AwaitsRetention(r) ==> due))
            && (u.Some? ==>
                  && u.value == r.(tokenHash := None, processing := CleanupInProgress, processingExpiresAt := None,
                                   cleanupGeneration := u.value.cleanupGeneration,
                                   cleanupLeaseExpiresAt := Some(now + limits.cleanupLeaseTtl), version := r.version + 1)
                  && u.value.cleanupGeneration
                     == Some(if r.cleanupGeneration.Some? then r.cleanupGeneration.value + 1 else 1))
  {}

  /** A cleanup that confirmed every deletion drops all references and settles the row by what it was:
      an unused ticket expires, an abandoned upload has failed, a removal is done, anything else stays. */
  lemma CleanedOutcome(r: Record, now: int)
    requires r.cleanupGeneration.Some?
    ensures FinishCleanup(r, r, true, now).Some?
    ensures var u := FinishCleanup(r, r, true, now).value;
            && u == r.(blob := None, quarantineBlob := None, tokenHash := None, processing := Complete,
                       processingExpiresAt := None, cleanupLeaseExpiresAt := None, cleanupNextAttemptAt := None,
                       quarantine := u.quarantine, scan := u.scan, rejection := u.rejection, deletedAt := u.deletedAt,
                       version := r.version + 1)
            && (match r.quarantine
                case PendingUpload =>
                  u.quarantine == Expired && u.scan == ScanFailed && u.rejection == Some("upload_ticket_expired")
                  && u.deletedAt == Some(now)
                case Uploading =>
                  u.quarantine == QuarantineState.Failed && u.scan == ScanFailed
                  && u.rejection == Some("upload_processing_expired") && u.deletedAt == r.deletedAt
                case Deleting =>
                  u.quarantine == Deleted && u.scan == r.scan && u.rejection == r.rejection && u.deletedAt == Some(now)
                case other =>
                  u.quarantine == other && u.scan == r.scan && u.rejection == r.rejection && u.deletedAt == r.deletedAt)
            && !IsCleanupEligible(u, now)
  {}

  /** One that did not keeps the references and waits; it counts one retry more, and each wait is twice as
      long as the one before, from two minutes up to an hour. */
  lemma BackoffOutcome(r: Record, now: int)
    requires r.cleanupGeneration.Some?
    ensures FinishCleanup(r, r, false, now).Some?
    ensures var u := FinishCleanup(r, r, false, now).value;
            var n := if r.cleanupRetryCount.Some? then r.cleanupRetryCount.value else 0;
            u == r.(processing := CleanupBackoff, cleanupLeaseExpiresAt := None, cleanupRetryCount := Some(n + 1),
                    cleanupNextAttemptAt := Some(now + RetryDelay(n + 1)),
                    rejection := if r.rejection.Some? then r.rejection else Some("storage_cleanup_failed"),
                    version := r.version + 1)
    ensures RetryDelay(1) == 120
  {
    assert Pow2(1) == 2 * Pow2(0);
  }

  lemma DelayDoubles(n: nat)
    ensures RetryDelay(n + 1) == if 2 * RetryDelay(n) < 3600 then 2 * RetryDelay(n) else 3600
  {
    if n < 6 {
      assert Pow2(n + 1) == 2 * Pow2(n);
    } else {
      assert Pow2(6) == 2 * Pow2(5) == 4 * Pow2(4) == 8 * Pow2(3) == 16 * Pow2(2) == 32 * Pow2(1) == 64 * Pow2(0);
    }
  }

  /** A refused store call of the upload has no effect; any other has, whether it was heard of or not. */
  lemma RefusedOutcome(w: World, a: Answers)
    requires a.store == Refused
    ensures UploadStep(w, a).objects == w.objects
  {}

  lemma WriteOutcome(w: World, a: Answers)
    requires a.store != Refused
    ensures && w.upload.Claimed? && w.upload.claimed.quarantineBlob.Some?
            && (a.sizeHint.Some? ==> a.sizeHint.value == w.upload.claimed.expectedBytes)
            ==> var key := w.upload.claimed.quarantineBlob.value;
                UploadStep(w, a).objects == if key in w.objects then w.objects else w.objects[key := a.body]
    ensures && w.upload.Cleared? && w.upload.claimed.quarantineBlob.Some? && a.finalKey !in w.issued
            && w.upload.claimed.quarantineBlob.value in w.objects
            ==> UploadStep(w, a).objects == w.objects[a.finalKey := w.objects[w.upload.claimed.quarantineBlob.value]]
  {}

  lemma DeleteOutcome(w: World, a: Answers)
    requires a.store != Refused
    ensures && (w.upload.Promoted? || w.upload.Discarding?) && w.upload.claimed.quarantineBlob.Some?
            ==> UploadStep(w, a).objects == w.objects - {w.upload.claimed.quarantineBlob.value}
    ensures w.upload.Abandoning? || (w.upload.Undoing? && w.upload.claimed.quarantineBlob.Some?) ==>
              UploadStep(w, a).objects == w.objects - {w.upload.finalKey}
  {}

  /** Finalizing releases a clean, ready, fully described row and changes nothing else about it. */
  lemma FinalizeOutcome(r: Record, now: int)
    ensures var u := Finalize(r, r, now);
            && (u.Some? <==> r.quarantine == Ready && r.scan == Clean && r.blob.Some? && r.quarantineBlob.None?
                             && r.byteCount.Some? && r.sha.Some? && r.deletedAt.None?)
            && (u.Some? ==>
                  u.value == r.(quarantine := Released, processing := Complete, processingExpiresAt := None,
                                finalizedAt := Some(now), version := r.version + 1))
  {}

  lemma LinkOutcome(r: Record)
    ensures var u := Link(r);
            && (u.Some? <==> r.quarantine == Released && r.scan == Clean && r.deletedAt.None?)
            && (u.Some? ==> u.value == r.(linked := true, version := r.version + 1))
  {}

  /** A removal marks a row that is not linked, not being uploaded and not deleted, and once its objects
      are gone the row names none and is deleted. */
  lemma RemovalOutcome(limits: Limits, r: Record, now: int, closedAt: int)
    ensures var m := MarkDeleting(limits, r, r, now);
            && (m.Some? <==> !r.linked && r.quarantine != Uploading && r.deletedAt.None?)
            && (m.Some? ==>
                  && m.value == r.(tokenHash := None, quarantine := Deleting, processing := ProcessingDeleting,
                                   processingExpiresAt := Some(now + limits.uploadProcessingTtl), version := r.version + 1)
                  && FinishRemoval(m.value, m.value, closedAt)
                     == Some(m.value.(blob := None, quarantineBlob := None, quarantine := Deleted, processing := Complete,
                                      processingExpiresAt := None, deletedAt := Some(closedAt), version := r.version + 2)))
  {}

  // ---------------------------------------------------------------------------------------------
  // A linked attachment stays
  // ---------------------------------------------------------------------------------------------

  /** A released attachment that a message refers to. */
  predicate Linked(w: World) { w.record.quarantine == Released && w.record.linked }

  lemma LinkedUploadStep(w: World, a: Answers)
    requires Inv(w) && Linked(w)
    ensures UploadStep(w, a).record == w.record
  {}

  lemma LinkedCleanupStep(w: World, i: nat, fate: Fate)
    requires Inv(w) && Linked(w)
    ensures CleanupStep(w, i, fate).record == w.record
  {
    if i < |w.cleanups| && !w.cleanups[i].over { assert CleanupOk(w, w.cleanups[i]); }
  }

  lemma LinkedRemovalSteps(w: World, i: nat, fate: Fate)
    requires Inv(w) && Linked(w)
    ensures MarkStep(w, i, fate).record == w.record && RemoveStep(w, i, fate).record == w.record
  {
    if i < |w.removals| && !w.removals[i].RemovalOver? { assert RemovalOk(w, w.removals[i]); }
  }

  lemma LinkedStep(w: World, a: Action)
    requires Inv(w) && Linked(w)
    ensures var r := Step(w, a).record; r == w.record.(version := r.version)
  {
    hide Inv, UploadStep, CleanupStep, MarkStep, RemoveStep;
    match a
    case DoUpload(answers) => LinkedUploadStep(w, answers);
    case DoCleanup(i, fate) => LinkedCleanupStep(w, i, fate);
    case DoRemove(i, fate) => LinkedRemovalSteps(w, i, fate);
    case DoMark(i, commit) => LinkedRemovalSteps(w, i, commit);
    case DoFinalize(i, commit) => LinkedFinalization(w, i, commit);
    case _ => LinkedRowIsNotTaken(w);
  }

  lemma LinkedFinalization(w: World, i: nat, commit: Fate)
    requires Inv(w) && Linked(w)
    ensures Step(w, DoFinalize(i, commit)).record == w.record
  {
    if i < |w.finalizations| { assert Snapshot(w, w.finalizations[i]); }
  }

  lemma LinkedRowIsNotTaken(w: World)
    requires Inv(w) && Linked(w)
    ensures w.record.tokenHash.None? && forall now :: !IsCleanupEligible(w.record, now)
  {}

  /** A released attachment that is linked stays exactly as it is over every run, and so does its object,
      unless its own upload still takes it for unpublished. */
  lemma {:induction false} LinkedStaysForever(w: World, actions: seq<Action>)
    requires Inv(w) && Linked(w) && NeverDeletes(w, actions)
    ensures var after := Execute(w, actions);
            && after.record == w.record.(version := after.record.version)
            && after.record.blob.Some? && after.record.blob.value in w.objects
            && after.record.blob.value in after.objects
            && after.objects[after.record.blob.value] == w.objects[after.record.blob.value]
    decreases |actions|
  {
    if actions != [] {
      LinkedStep(w, actions[0]);
      ServedStep(w, actions[0]);
      LinkedStaysForever(Step(w, actions[0]), actions[1..]);
    }
  }
}
