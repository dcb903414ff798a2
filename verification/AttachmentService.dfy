/** The attachment service as it runs: rows and blobs updated in place, one external call after another. */
module AttachmentService {
  import opened Wrappers
  import opened AttachmentSteps
  import opened AttachmentCleaning
  import opened AttachmentOutcomes
  import opened AttachmentProtocol
  import Invariant = AttachmentInvariant
  import Steps = AttachmentSteps

  function Rank(u: Upload): nat {
    match u
    case NotStarted => 0
    case Claimed(_) => 8
    case Stored(_, _) => 7
    case BeingScanned(_, _) => 6
    case Cleared(_, _) => 5
    case Promoted(_, _, _) => 4
    case Undoing(_, _) => 3
    case Discarding(_, _) => 3
    case Finishing(_, _) => 2
    case Abandoning(_) => 1
    case Over => 0
  }

  /** The protocol's upload steps, one after the other until nothing is left to do. */
  function Drained(w: World, script: nat -> Answers, k: nat): World
    decreases Rank(w.upload)
  {
    var next := UploadStep(w, script(k));
    if Rank(next.upload) >= Rank(w.upload) then w else Drained(next, script, k + 1)
  }

  /** After the verdict at most the unpublished final object is left to delete. */
  lemma DrainedVerdict(w: World, script: nat -> Answers, k: nat)
    requires w.upload.Finishing?
    ensures var finished := UploadStep(w, script(k));
            Drained(w, script, k) == if finished.upload.Abandoning? then UploadStep(finished, script(k + 1)) else finished
  {
    var finished := UploadStep(w, script(k));
    assert Drained(w, script, k) == Drained(finished, script, k + 1);
    if finished.upload.Abandoning? {
      assert Drained(finished, script, k + 1) == Drained(UploadStep(finished, script(k + 1)), script, k + 2);
    }
  }

  /** What discarding comes to, given the answers of store and database. */
  predicate DiscardOutcome(before: Record, after: Record, claimed: Record, cause: Cause, store: Fate, commit: Fate) {
    if before.version == claimed.version && commit != Refused then DiscardedAs(before, after, cause, store == Done)
    else after == before
  }

  /** Scanner and host let the object pass. */
  predicate Passes(answers: Answers, outcome: Object) {
    answers.scan == Some(ScanReport(outcome, None)) && answers.decision == Allowed
  }

  /** Why an object that does not pass is discarded. */
  predicate RefusedFor(answers: Answers, outcome: Object, cause: Cause) {
    if answers.scan.None? then cause == Failing("scan_unavailable")
    else if answers.scan.value.observed != outcome then
      cause == Rejecting(Some(outcome.size), Some(outcome.sha), "scan_attestation_mismatch")
    else if answers.scan.value.rejection.Some? then
      cause == Rejecting(Some(outcome.size), Some(outcome.sha), answers.scan.value.rejection.value)
    else if answers.decision.Denied? then
      cause == Rejecting(Some(outcome.size), Some(outcome.sha), answers.decision.reason)
    else cause == Failing("acceptance_policy_invalid") && answers.decision.InvalidDecision?
  }

  /** One attachment: its row and the blob store. */
  class Service {
    const limits: Limits
    const now: int
    var record: Record
    var objects: map<Key, Object>

    constructor (limits: Limits, now: int, record: Record, objects: map<Key, Object>)
      ensures this.limits == limits && this.now == now && this.record == record && this.objects == objects
    {
      this.limits, this.now, this.record, this.objects := limits, now, record, objects;
    }

    /** This object is what the outside sees of the protocol state. */
    predicate Shows(w: World)
      reads this
    {
      limits == w.limits && now == w.now && record == w.record && objects == w.objects
    }

    /** The accepted object is under its final key and nowhere else, and the row describes it. */
    predicate PublishedFrom(before: Record, had: map<Key, Object>, key: Key, finalKey: Key, o: Object)
      reads this
    {
      && key in had && PublishedAs(before, record, finalKey, o)
      && objects == had[finalKey := had[key]] - {key}
    }

    method ClaimUpload(isOwner: bool, tokenHash: string, commit: Fate) returns (claimed: Option<Record>)
      modifies this`record
      ensures var update := Steps.ClaimUpload(limits, old(record), now, isOwner, tokenHash);
              && record == (if update.Some? && commit != Refused then update.value else old(record))
              && claimed == if commit == Done then update else None
    {
      if record.tokenHash.None? || !isOwner || record.quarantine != PendingUpload || record.deletedAt.Some?
         || record.uploadExpiresAt.None? || record.uploadExpiresAt.value <= now
         || record.tokenHash.value != tokenHash || commit == Refused {
        return None;
      }
      record := record.(tokenHash := None, quarantine := Uploading, processing := Scanning,
                        processingExpiresAt := Some(now + limits.uploadProcessingTtl), version := record.version + 1);
      claimed := if commit == Done then Some(record) else None;
    }

    /** `finish_external_phase`: writes the verdict unless somebody moved the row in the meantime. */
    method Finish(claimed: Record, verdict: Verdict, commit: Fate) returns (ok: bool)
      modifies this`record
      ensures var update := Steps.FinishUpload(old(record), claimed, verdict);
              && record == (if update.Some? && commit != Refused then update.value else old(record))
              && ok == Committed(update, commit)
    {
      if record.version != claimed.version || commit == Refused {
        return false;
      }
      record := ApplyVerdict(record, verdict).(version := record.version + 1);
      ok := commit == Done;
    }

    method Delete(key: Key, fate: Fate) returns (ok: bool)
      modifies this`objects
      ensures objects == Without(old(objects), key, fate) && ok == (fate == Done)
    {
      if fate != Refused {
        objects := objects - {key};
      }
      ok := fate == Done;
    }

    /** `reject_upload` and `fail_upload`: delete the quarantine object, then say why. */
    method Discard(claimed: Record, cause: Cause, script: nat -> Answers, k: nat, ghost w: World)
      requires Shows(w) && w.upload == Discarding(claimed, cause)
      modifies this
      ensures Shows(Drained(w, script, k))
      ensures claimed.quarantineBlob.Some? ==>
                && objects == Without(old(objects), claimed.quarantineBlob.value, script(k).store)
                && DiscardOutcome(old(record), record, claimed, cause, script(k).store, script(k + 1).commit)
    {
      hide ReceiveStep, InspectStep, ScanStep, CopyStep, ClearStep, UndoStep;
      if claimed.quarantineBlob.None? {
        assert Drained(w, script, k) == Drained(UploadStep(w, script(k)), script, k + 1);
        return;
      }
      var deleted := Delete(claimed.quarantineBlob.value, script(k).store);
      var verdict := match cause
        case Rejecting(byteCount, sha, reason) => Reject(deleted, byteCount, sha, reason)
        case Failing(reason) => Fail(deleted, reason);
      ghost var discarded := UploadStep(w, script(k));
      assert discarded.upload == Finishing(claimed, verdict);
      DrainedVerdict(discarded, script, k + 1);
      var _ := Finish(claimed, verdict, script(k + 1).commit);
    }

    /** Publishes the accepted object; an object nobody will serve is deleted again. */
    method Publish(claimed: Record, outcome: Object, finalKey: Key, script: nat -> Answers, k: nat, ghost w: World)
      returns (ok: bool)
      requires Shows(w) && w.upload == Finishing(claimed, Accept(finalKey, outcome))
      modifies this
      ensures Shows(Drained(w, script, k))
      ensures ok <==> old(record).version == claimed.version && script(k).commit == Done
      ensures ok ==> PublishedAs(old(record), record, finalKey, outcome) && objects == old(objects)
      ensures !ok ==> objects == Without(old(objects), finalKey, script(k + 1).store)
    {
      DrainedVerdict(w, script, k);
      ok := Finish(claimed, Accept(finalKey, outcome), script(k).commit);
      if !ok {
        var _ := Delete(finalKey, script(k + 1).store);
      }
    }

    /** Copies the scanned object to its final key and takes the quarantine copy away. */
    method Promote(claimed: Record, outcome: Object, script: nat -> Answers, k: nat, ghost w: World) returns (ok: bool)
      requires Shows(w) && w.upload == Cleared(claimed, outcome) && claimed.quarantineBlob.Some?
      requires script(k).finalKey !in w.issued
      modifies this
      ensures Shows(Drained(w, script, k))
      ensures ok <==> && claimed.quarantineBlob.value in old(objects) && old(record).version == claimed.version
                      && script(k).store == Done && script(k + 1).store == Done && script(k + 2).commit == Done
      ensures ok ==> PublishedFrom(old(record), old(objects), claimed.quarantineBlob.value, script(k).finalKey, outcome)
    {
      var key, finalKey := claimed.quarantineBlob.value, script(k).finalKey;
      ghost var copied := UploadStep(w, script(k));
      var present := key in objects;
      if present && script(k).store != Refused {
        objects := objects[finalKey := objects[key]];
      }
      if !present || script(k).store != Done {
        Discard(claimed, Failing("quarantine_promotion_failed"), script, k + 1, copied);
        return false;
      }
      ghost var cleared := UploadStep(copied, script(k + 1));
      var deleted := Delete(key, script(k + 1).store);
      if deleted {
        ok := Publish(claimed, outcome, finalKey, script, k + 2, cleared);
      } else {
        Undo(claimed, finalKey, key, script, k + 2, cleared);
        ok := false;
      }
    }

    /** The quarantine copy may still be there: give up the final one too and leave both to cleanup. */
    method Undo(claimed: Record, finalKey: Key, key: Key, script: nat -> Answers, k: nat, ghost w: World)
      requires Shows(w) && w.upload == Undoing(claimed, finalKey) && claimed.quarantineBlob == Some(key)
      modifies this
      ensures Shows(Drained(w, script, k))
      ensures objects == Without(old(objects), finalKey, script(k).store)
      ensures if old(record).version == claimed.version && script(k + 1).commit != Refused
              then KeptAs(old(record), record, if script(k).store == Done then None else Some(finalKey), key)
              else record == old(record)
    {
      ghost var undone := UploadStep(w, script(k));
      var finalDeleted := Delete(finalKey, script(k).store);
      assert undone.upload == Finishing(claimed, FailKeeping(if finalDeleted then None else Some(finalKey), key));
      DrainedVerdict(undone, script, k + 1);
      var _ := Finish(claimed, FailKeeping(if finalDeleted then None else Some(finalKey), key), script(k + 1).commit);
    }

    /** Scanner and acceptance policy. */
    method Scan(claimed: Record, outcome: Object, script: nat -> Answers, k: nat, ghost w: World) returns (ok: bool)
      requires Shows(w) && w.upload == BeingScanned(claimed, outcome) && claimed.quarantineBlob.Some?
      requires script(k + 1).finalKey !in w.issued
      modifies this
      ensures Shows(Drained(w, script, k))
      ensures ok <==> && Passes(script(k), outcome)
                      && claimed.quarantineBlob.value in old(objects) && old(record).version == claimed.version
                      && script(k + 1).store == Done && script(k + 2).store == Done && script(k + 3).commit == Done
      ensures ok ==> PublishedFrom(old(record), old(objects), claimed.quarantineBlob.value, script(k + 1).finalKey, outcome)
      ensures forall cause :: !Passes(script(k), outcome) && RefusedFor(script(k), outcome, cause) ==>
                DiscardOutcome(old(record), record, claimed, cause, script(k + 1).store, script(k + 2).commit)
    {
      hide ReceiveStep, InspectStep, CopyStep, ClearStep, UndoStep, DiscardStep, FinishStep;
      ok := false;
      ghost var scanned := UploadStep(w, script(k));
      var report := script(k).scan;
      if report.None? {
        Discard(claimed, Failing("scan_unavailable"), script, k + 1, scanned);
        return;
      }
      if report.value.observed.size != outcome.size || report.value.observed.sha != outcome.sha {
        Discard(claimed, Rejecting(Some(outcome.size), Some(outcome.sha), "scan_attestation_mismatch"),
                script, k + 1, scanned);
        return;
      }
      if report.value.rejection.Some? {
        Discard(claimed, Rejecting(Some(outcome.size), Some(outcome.sha), report.value.rejection.value),
                script, k + 1, scanned);
        return;
      }
      match script(k).decision
      case InvalidDecision => Discard(claimed, Failing("acceptance_policy_invalid"), script, k + 1, scanned);
      case Denied(reason) =>
        Discard(claimed, Rejecting(Some(outcome.size), Some(outcome.sha), reason), script, k + 1, scanned);
      case Allowed => ok := Promote(claimed, outcome, script, k + 1, scanned);
    }

    /** Checks what the store says it kept, reads it back and has it scanned. */
    method Inspect(claimed: Record, outcome: Object, script: nat -> Answers, k: nat, ghost w: World) returns (ok: bool)
      requires Shows(w) && w.upload == Stored(claimed, outcome) && claimed.quarantineBlob.Some?
      requires script(k + 2).finalKey !in w.issued
      modifies this
      ensures Shows(Drained(w, script, k))
      ensures ok <==> && outcome.size == claimed.expectedBytes <= limits.maximumBytes && script(k).validSha
                      && script(k).store == Done && Passes(script(k + 1), outcome)
                      && claimed.quarantineBlob.value in old(objects) && old(record).version == claimed.version
                      && script(k + 2).store == Done && script(k + 3).store == Done && script(k + 4).commit == Done
      ensures ok ==> PublishedFrom(old(record), old(objects), claimed.quarantineBlob.value, script(k + 2).finalKey, outcome)
    {
      ok := false;
      ghost var inspected := UploadStep(w, script(k));
      if outcome.size != claimed.expectedBytes || limits.maximumBytes < outcome.size || !script(k).validSha {
        Discard(claimed, Rejecting(Some(outcome.size), Some(outcome.sha), "stored_size_or_hash_mismatch"),
                script, k + 1, inspected);
      } else if script(k).store != Done {
        Discard(claimed, Failing("quarantine_read_failed"), script, k + 1, inspected);
      } else {
        ok := Scan(claimed, outcome, script, k + 1, inspected);
      }
    }

    predicate Admissible(sizeHint: Option<nat>)
    {
      sizeHint.None? || (sizeHint.value != 0 && sizeHint.value <= limits.maximumBytes)
    }

    /** Nothing was under the key, every store call and the commit were done, the object has the size and
        checksum it must have, the scanner saw exactly it and found nothing, and the host accepted it. */
    predicate GoesThrough(claimed: Record, sizeHint: Option<nat>, had: map<Key, Object>, script: nat -> Answers)
    {
      && claimed.quarantineBlob.Some? && claimed.quarantineBlob.value !in had
      && (sizeHint.Some? ==> sizeHint.value == claimed.expectedBytes)
      && script(0).store == Done && script(0).body.size == claimed.expectedBytes <= limits.maximumBytes
      && script(1).validSha && script(1).store == Done
      && script(2).scan == Some(ScanReport(script(0).body, None)) && script(2).decision == Allowed
      && script(3).store == Done && script(4).store == Done && script(5).commit == Done
    }

    /** `upload`: the one-shot claim, the write into quarantine, and everything that follows. */
    method Upload(isOwner: bool, tokenHash: string, sizeHint: Option<nat>, claimCommit: Fate,
                  script: nat -> Answers, ghost w: World)
      returns (ok: bool)
      requires Shows(w) && w.upload == NotStarted
      requires script(0).sizeHint == sizeHint && script(3).finalKey !in w.issued
      modifies this
      ensures sizeHint.Some? && (sizeHint.value == 0 || limits.maximumBytes < sizeHint.value) ==> !ok && Shows(w)
      ensures sizeHint.None? || (sizeHint.value != 0 && sizeHint.value <= limits.maximumBytes) ==>
                Shows(Drained(ClaimStep(w, isOwner, tokenHash, claimCommit), script, 0))
      ensures ok <==>
                && Admissible(sizeHint) && claimCommit == Done
                && var claim := Steps.ClaimUpload(limits, old(record), now, isOwner, tokenHash);
                && claim.Some? && GoesThrough(claim.value, sizeHint, old(objects), script)
      ensures ok ==>
                var claimed := Steps.ClaimUpload(limits, old(record), now, isOwner, tokenHash).value;
                && PublishedAs(claimed, record, script(3).finalKey, script(0).body)
                && objects == old(objects)[script(3).finalKey := script(0).body] - {claimed.quarantineBlob.value}
    {
      ok := false;
      if sizeHint.Some? && (sizeHint.value == 0 || limits.maximumBytes < sizeHint.value) {
        return;
      }
      ghost var started := ClaimStep(w, isOwner, tokenHash, claimCommit);
      var claim := ClaimUpload(isOwner, tokenHash, claimCommit);
      if claim.Some? {
        ok := Receive(claim.value, sizeHint, script, started);
      }
    }

    method Receive(claimed: Record, sizeHint: Option<nat>, script: nat -> Answers, ghost w: World) returns (ok: bool)
      requires Shows(w) && w.upload == Claimed(claimed)
      requires script(0).sizeHint == sizeHint && script(3).finalKey !in w.issued
      modifies this
      ensures Shows(Drained(w, script, 0))
      ensures ok <==> old(record).version == claimed.version && GoesThrough(claimed, sizeHint, old(objects), script)
      ensures ok ==>
                && PublishedAs(old(record), record, script(3).finalKey, script(0).body)
                && objects == old(objects)[script(3).finalKey := script(0).body] - {claimed.quarantineBlob.value}
    {
      hide DiscardOutcome, PublishedAs, InspectStep, ScanStep, CopyStep, ClearStep, UndoStep, DiscardStep;
      ok := false;
      ghost var received := UploadStep(w, script(0));
      assert Drained(w, script, 0) == Drained(received, script, 1);
      if claimed.quarantineBlob.None? { return; }
      var key := claimed.quarantineBlob.value;
      if sizeHint.Some? && sizeHint.value != claimed.expectedBytes {
        Discard(claimed, Rejecting(None, None, "declared_size_mismatch"), script, 1, received);
        return;
      }
      var existed := key in objects;
      if script(0).store != Refused && !existed {
        objects := objects[key := script(0).body];
      }
      if script(0).store != Done {
        Discard(claimed, Failing("quarantine_write_failed"), script, 1, received);
      } else if existed {
        DrainedVerdict(received, script, 1);
        var _ := Finish(claimed, Fail(false, "quarantine_key_conflict"), script(1).commit);
      } else {
        ok := Inspect(claimed, script(0).body, script, 1, received);
        if ok {
          StoredThenMoved(old(objects), key, script(3).finalKey, script(0).body);
        }
      }
    }

    static lemma StoredThenMoved(had: map<Key, Object>, key: Key, finalKey: Key, o: Object)
      requires key !in had
      ensures had[key := o][finalKey := o] - {key} == had[finalKey := o] - {key}
    {}

    /** `finalize_upload`: releases a clean upload that nobody has touched since it was read. */
    method FinalizeUpload(isOwner: bool, commit: Fate) returns (ok: bool)
      modifies this`record
      ensures ok == (isOwner && Finalizable(old(record)) && commit == Done)
      ensures record == if isOwner && Finalizable(old(record)) && commit != Refused
                        then Steps.Finalize(old(record), old(record), now).value else old(record)
      ensures ok ==> record.quarantine == Released && record.blob == old(record).blob
    {
      if !isOwner { return false; }
      if record.quarantine != Ready || record.scan != Clean || record.blob.None? || record.quarantineBlob.Some?
         || record.byteCount.None? || record.sha.None? || record.deletedAt.Some? || commit == Refused {
        return false;
      }
      record := record.(quarantine := Released, processing := Complete, processingExpiresAt := None,
                        finalizedAt := Some(now), version := record.version + 1);
      ok := commit == Done;
    }

    /** Deletes an object if the store says that it is there; an error ends the removal. */
    method RemoveObject(key: Key, probe: Fate, delete: Fate) returns (ok: bool)
      modifies this`objects
      ensures ok == Gone(old(objects), key, probe, delete)
      ensures objects == Removed(old(objects), key, probe, delete)
    {
      if probe != Done { return false; }
      if key in objects {
        ok := Delete(key, delete);
      } else {
        ok := true;
      }
    }

    /** `remove_attachment`: mark the row, delete what it names, close the row. A failure on the way leaves
        the row marked with its references. */
    method RemoveAttachment(isOwner: bool, mark: Fate, blob: (Fate, Fate), quarantine: (Fate, Fate), close: Fate)
      returns (ok: bool)
      modifies this
      ensures !isOwner || !Removable(old(record)) || mark == Refused ==> !ok && record == old(record) && objects == old(objects)
      ensures isOwner && Removable(old(record)) && mark != Refused ==>
                var marked := Steps.MarkDeleting(limits, old(record), old(record), now).value;
                if ok || record.quarantine == Deleted then record == Steps.FinishRemoval(marked, marked, now).value
                else record == marked
      ensures isOwner && Removable(old(record)) && mark == Done ==>
                var r, had := old(record), old(objects);
                var rest := if r.blob.Some? then Removed(had, r.blob.value, blob.0, blob.1) else had;
                var on := r.blob.Some? ==> Gone(had, r.blob.value, blob.0, blob.1);
                var q := r.quarantineBlob;
                && objects == (if on && q.Some? then Removed(rest, q.value, quarantine.0, quarantine.1) else rest)
                && (ok <==> on && (q.Some? ==> Gone(rest, q.value, quarantine.0, quarantine.1)) && close == Done)
      ensures mark != Done ==> !ok && objects == old(objects)
      ensures ok || (isOwner && Removable(old(record)) && mark != Refused && record.quarantine == Deleted) ==>
                forall k :: k in Keys(old(record)) ==> k !in objects
      ensures forall k :: k in old(objects) && k !in Keys(old(record)) ==> k in objects && objects[k] == old(objects)[k]
    {
      if !isOwner || record.linked || record.quarantine == Uploading || record.deletedAt.Some? || mark == Refused {
        return false;
      }
      record := record.(tokenHash := None, quarantine := Deleting, processing := ProcessingDeleting,
                        processingExpiresAt := Some(now + limits.uploadProcessingTtl), version := record.version + 1);
      if mark != Done { return false; }
      if record.blob.Some? {
        ok := RemoveObject(record.blob.value, blob.0, blob.1);
        if !ok { return; }
      }
      if record.quarantineBlob.Some? {
        ok := RemoveObject(record.quarantineBlob.value, quarantine.0, quarantine.1);
        if !ok { return; }
      }
      if close == Refused { return false; }
      record := record.(blob := None, quarantineBlob := None, quarantine := Deleted, processing := Complete,
                        processingExpiresAt := None, deletedAt := Some(now), version := record.version + 1);
      ok := close == Done;
    }
  }

  /** Whether the undisturbed upload ends up deleting the object that the record serves. */
  predicate DeletesAlong(w: World, script: nat -> Answers, k: nat)
    decreases Rank(w.upload)
  {
    var next := UploadStep(w, script(k));
    Rank(next.upload) < Rank(w.upload)
    && (Invariant.Deletes(w, DoUpload(script(k))) || DeletesAlong(next, script, k + 1))
  }

  /** However the outside answers, an undisturbed upload keeps the protocol's base, and it leaves a served
      record with its attested object exactly when it has not deleted that object itself. */
  lemma {:induction false} DrainedKeeps(w: World, script: nat -> Answers, k: nat)
    requires Invariant.Inv(w)
    ensures Invariant.Base(Drained(w, script, k))
    ensures Invariant.Served(Drained(w, script, k)) <==> !DeletesAlong(w, script, k)
    decreases Rank(w.upload)
  {
    var next := UploadStep(w, script(k));
    Invariant.StepKeeps(w, DoUpload(script(k)));
    Invariant.ServedStep(w, DoUpload(script(k)));
    if Rank(next.upload) < Rank(w.upload) && !Invariant.Deletes(w, DoUpload(script(k))) {
      DrainedKeeps(next, script, k + 1);
    }
  }

  // ---------------------------------------------------------------------------------------------
  // The cleanup worker
  // ---------------------------------------------------------------------------------------------

  class Cleaner {
    const limits: Limits
    var records: map<AttachmentId, Record>
    var objects: map<Key, Object>

    constructor (limits: Limits, records: map<AttachmentId, Record>, objects: map<Key, Object>)
      ensures this.limits == limits && this.records == records && this.objects == objects
    {
      this.limits, this.records, this.objects := limits, records, objects;
    }

    /** Success means confirmed absence, whatever the delete call itself answered. */
    method DeleteIfPresent(key: Key, d: Deletion) returns (absent: bool)
      modifies this`objects
      ensures absent == Absent(old(objects), key, d) && objects == Purged(old(objects), key, d)
    {
      if d.probe != Done { return false; }
      if key !in objects { return true; }
      if d.delete != Refused {
        objects := objects - {key};
      }
      absent := d.confirm == Done && key !in objects;
    }

    method ClaimCleanup(id: AttachmentId, now: int, answers: CandidateAnswers)
      returns (error: bool, claimed: Option<Record>)
      modifies this`records
      ensures error ==> claimed.None?
      ensures id !in old(records) ==> !error && claimed.None? && records == old(records)
      ensures id in old(records) ==>
                var update := Steps.ClaimCleanup(limits, old(records)[id], now, answers.retentionDue);
                && error == (update.Some? && answers.claimCommit != Done)
                && records == (if update.Some? && answers.claimCommit != Refused
                               then old(records)[id := update.value] else old(records))
                && (!error ==> claimed == update)
    {
      if id !in records { return false, None; }
      var current := records[id];
      if !IsCleanupEligible(current, now) { return false, None; }
      if RetentionPending(current) && !answers.retentionDue { return false, None; }
      if answers.claimCommit == Refused { return true, None; }
      var generation := (if current.cleanupGeneration.Some? then current.cleanupGeneration.value else 0) + 1;
      var updated := current.(
        tokenHash := None, processing := CleanupInProgress, processingExpiresAt := None,
        cleanupGeneration := Some(generation), cleanupLeaseExpiresAt := Some(now + limits.cleanupLeaseTtl),
        version := current.version + 1);
      records := records[id := updated];
      error := answers.claimCommit == LostReply;
      claimed := if error then None else Some(updated);
    }

    method FinishCleanup(id: AttachmentId, claimed: Record, storageDeleted: bool, now: int, commit: Fate)
      returns (error: bool, finished: bool)
      requires id in records && claimed.cleanupGeneration.Some?
      modifies this`records
      ensures var update := Steps.FinishCleanup(old(records)[id], claimed, storageDeleted, now);
              && records == (if update.Some? && commit != Refused then old(records)[id := update.value] else old(records))
              && error == (commit != Done) && finished == (update.Some? && commit == Done)
    {
      var current := records[id];
      if commit == Refused { return true, false; }
      if current.version != claimed.version { return commit != Done, false; }
      var updated := current.(version := current.version + 1);
      if storageDeleted {
        updated := updated.(blob := None, quarantineBlob := None, tokenHash := None, processing := Complete,
                            processingExpiresAt := None, cleanupLeaseExpiresAt := None, cleanupNextAttemptAt := None);
        match claimed.quarantine
        case PendingUpload =>
          updated := updated.(quarantine := Expired, scan := ScanFailed,
                              rejection := Some("upload_ticket_expired"), deletedAt := Some(now));
        case Uploading =>
          updated := updated.(quarantine := QuarantineState.Failed, scan := ScanFailed,
                              rejection := Some("upload_processing_expired"));
        case Deleting => updated := updated.(quarantine := Deleted, deletedAt := Some(now));
        case _ =>
      } else {
        var retries := (if claimed.cleanupRetryCount.Some? then claimed.cleanupRetryCount.value else 0) + 1;
        var reason := if claimed.rejection.Some? then claimed.rejection else Some("storage_cleanup_failed");
        updated := updated.(processing := CleanupBackoff, cleanupLeaseExpiresAt := None,
                            cleanupRetryCount := Some(retries),
                            cleanupNextAttemptAt := Some(now + RetryDelay(retries)), rejection := reason);
      }
      records := records[id := updated];
      error, finished := commit == LostReply, commit == Done;
    }

    /** Deletes what a claimed row names; every deletion has to be confirmed. */
    method DeleteNamed(claimed: Record, answers: CandidateAnswers) returns (storageDeleted: bool)
      modifies this`objects
      ensures storageDeleted == AllAbsent(old(objects), claimed, answers)
      ensures objects == WithoutNamed(old(objects), claimed, answers)
    {
      storageDeleted := true;
      if claimed.blob.Some? {
        storageDeleted := DeleteIfPresent(claimed.blob.value, answers.blob);
      }
      if claimed.quarantineBlob.Some? {
        var absent := DeleteIfPresent(claimed.quarantineBlob.value, answers.quarantine);
        storageDeleted := storageDeleted && absent;
      }
    }

    /** One candidate: claim, delete what the row names, write down the result. */
    method CleanCandidate(id: AttachmentId, now: int, answers: CandidateAnswers)
      returns (error: bool, outcome: CandidateOutcome)
      modifies this
      ensures var (after, done) := CleanOne(limits, Shelf(old(records), old(objects)), id, now, answers);
              && after == Shelf(records, objects) && error == done.None? && (!error ==> done == Some(outcome))
      ensures OnlyNamed([id], old(records), old(objects), records, objects)
      ensures !error && outcome == WasCleaned ==>
                && id in old(records) && Keys(records[id]) == []
                && forall k :: k in Keys(old(records)[id]) ==> k !in objects
      ensures !error && outcome == WasFailed ==>
                && id in old(records) && Keys(records[id]) == Keys(old(records)[id])
                && records[id].processing == CleanupBackoff
    {
      hide OnlyNamed, AllAbsent, WithoutNamed, Steps.FinishCleanup;
      CandidateTouchesNamed(limits, Shelf(records, objects), id, now, answers);
      outcome := WasDeferred;
      var claimed;
      error, claimed := ClaimCleanup(id, now, answers);
      if error || claimed.None? { return; }
      var storageDeleted := DeleteNamed(claimed.value, answers);
      var finished;
      CanBeFinished(claimed.value, storageDeleted, now);
      error, finished := FinishCleanup(id, claimed.value, storageDeleted, now, answers.finishCommit);
      if finished {
        outcome := if storageDeleted then WasCleaned else WasFailed;
      }
    }

    /** One pass over the candidates, counted by outcome; a database error ends it without a report. */
    method CleanupOnce(candidates: seq<AttachmentId>, now: int, script: nat -> CandidateAnswers)
      returns (report: Option<CleanupReport>)
      modifies this
      ensures (Shelf(records, objects), report)
              == CleanFirst(limits, Shelf(old(records), old(objects)), candidates, now, script, |candidates|)
      ensures report.Some? ==>
                && report.value.examined == |candidates|
                && report.value.deferred + report.value.cleaned + report.value.failed == |candidates|
      ensures OnlyNamed(candidates, old(records), old(objects), records, objects)
    {
      hide OnlyNamed, CleanOne;
      PassTouchesNamed(limits, Shelf(records, objects), candidates, now, script, |candidates|);
      var deferred, cleaned, failed := 0, 0, 0;
      for i := 0 to |candidates|
        invariant deferred + cleaned + failed == i
        invariant CleanFirst(limits, Shelf(old(records), old(objects)), candidates, now, script, i)
                  == (Shelf(records, objects), Some(CleanupReport(i, deferred, cleaned, failed)))
      {
        var error, outcome := CleanCandidate(candidates[i], now, script(i));
        if error {
          BrokenPassStays(limits, Shelf(old(records), old(objects)), candidates, now, script, i + 1, |candidates|);
          return None;
        }
        match outcome
        case WasDeferred => deferred := deferred + 1;
        case WasCleaned => cleaned := cleaned + 1;
        case WasFailed => failed := failed + 1;
      }
      report := Some(CleanupReport(|candidates|, deferred, cleaned, failed));
    }
  }
}
