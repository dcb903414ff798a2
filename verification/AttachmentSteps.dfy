/** One attachment: its record, the blob store its keys live in, and the transactions over the record.
    A transaction reads the record, checks it and writes it back with a compare-and-swap on the row
    version; `None` means that it changed nothing. */
module AttachmentSteps {
  import opened Arithmetic
  import opened Wrappers

  type Key = string

  /** What the blob store keeps under a key, as size and checksum. */
  datatype Object = Object(size: nat, sha: string)

  datatype QuarantineState =
    PendingUpload | Uploading | Ready | Released | Rejected | Failed | Deleting | Deleted | Expired

  datatype ScanState = ScanPending | Clean | ScanRejected | ScanFailed

  datatype ProcessingState =
    | Pending | Scanning | ProcessingReady | Complete | ProcessingDeleting
    | CleanupRequired | RetentionCleanupRequired | CleanupInProgress | CleanupBackoff

  datatype Record = Record(
    quarantine: QuarantineState,
    processing: ProcessingState,
    scan: ScanState,
    tokenHash: Option<string>,
    uploadExpiresAt: Option<int>,
    processingExpiresAt: Option<int>,
    blob: Option<Key>,
    quarantineBlob: Option<Key>,
    expectedBytes: nat,
    byteCount: Option<nat>,
    sha: Option<string>,
    cleanupGeneration: Option<nat>,
    cleanupLeaseExpiresAt: Option<int>,
    cleanupRetryCount: Option<nat>,
    cleanupNextAttemptAt: Option<int>,
    rejection: Option<string>,
    finalizedAt: Option<int>,
    deletedAt: Option<int>,
    linked: bool,
    version: nat)

  datatype Limits = Limits(maximumBytes: nat, uploadProcessingTtl: nat, cleanupLeaseTtl: nat)

  /** What an upload writes when it is done with the outside world. */
  datatype Verdict =
    | Accept(finalKey: Key, outcome: Object)
    | Reject(deleted: bool, byteCount: Option<nat>, sha: Option<string>, reason: string)
    | Fail(deleted: bool, reason: string)
    | FailKeeping(kept: Option<Key>, quarantineKey: Key)

  /** The row as a ticket creates it. */
  function Ticket(quarantineKey: Key, tokenHash: string, expiresAt: int, expectedBytes: nat): Record {
    Record(PendingUpload, Pending, ScanPending, Some(tokenHash), Some(expiresAt), None, None, Some(quarantineKey),
           expectedBytes, None, None, None, None, None, None, None, None, None, false, 0)
  }

  predicate IsServed(r: Record) { r.quarantine == Ready || r.quarantine == Released }

  function Swap(r: Record, expected: nat, updated: Record): Option<Record> {
    if r.version == expected then Some(updated.(version := r.version + 1)) else None
  }

  // ---------------------------------------------------------------------------------------------
  // Upload
  // ---------------------------------------------------------------------------------------------

  function ClaimUpload(limits: Limits, r: Record, now: int, isOwner: bool, tokenHash: string): Option<Record> {
    if r.tokenHash.None? || !isOwner || r.quarantine != PendingUpload || r.deletedAt.Some?
       || r.uploadExpiresAt.None? || r.uploadExpiresAt.value <= now || r.tokenHash.value != tokenHash
    then None
    else
      Swap(r, r.version, r.(tokenHash := None, quarantine := Uploading, processing := Scanning,
                            processingExpiresAt := Some(now + limits.uploadProcessingTtl)))
  }

  function ApplyVerdict(r: Record, verdict: Verdict): Record {
    match verdict
    case Accept(finalKey, outcome) =>
      r.(blob := Some(finalKey), quarantineBlob := None, byteCount := Some(outcome.size), sha := Some(outcome.sha),
         quarantine := Ready, scan := Clean, processing := ProcessingReady, processingExpiresAt := None,
         rejection := None)
    case Reject(deleted, byteCount, sha, reason) =>
      r.(quarantineBlob := if deleted then None else r.quarantineBlob, byteCount := byteCount, sha := sha,
         quarantine := Rejected, scan := ScanRejected, processing := if deleted then Complete else CleanupRequired,
         processingExpiresAt := None, rejection := Some(reason))
    case Fail(deleted, reason) =>
      r.(quarantineBlob := if deleted then None else r.quarantineBlob,
         quarantine := Failed, scan := ScanFailed, processing := if deleted then Complete else CleanupRequired,
         processingExpiresAt := None, rejection := Some(reason))
    case FailKeeping(kept, quarantineKey) =>
      r.(blob := if kept.Some? then kept else r.blob, quarantineBlob := Some(quarantineKey),
         quarantine := Failed, scan := ScanFailed, processing := CleanupRequired,
         processingExpiresAt := None, rejection := Some("quarantine_cleanup_failed"))
  }

  /** `finish_external_phase`. */
  function FinishUpload(r: Record, claimed: Record, verdict: Verdict): Option<Record> {
    Swap(r, claimed.version, ApplyVerdict(r, verdict))
  }

  // ---------------------------------------------------------------------------------------------
  // Cleanup
  // ---------------------------------------------------------------------------------------------

  predicate RetentionPending(r: Record) {
    r.quarantine == Deleting
    && (r.processing == RetentionCleanupRequired || r.processing == CleanupInProgress || r.processing == CleanupBackoff)
  }

  predicate Passed(time: Option<int>, now: int) { time.Some? && time.value <= now }

  predicate IsCleanupEligible(r: Record, now: int) {
    if (r.linked || r.deletedAt.Some?) && !RetentionPending(r) then false
    else
      match r.processing
      case CleanupRequired => true
      case RetentionCleanupRequired => true
      case CleanupBackoff => Passed(r.cleanupNextAttemptAt, now)
      case CleanupInProgress => Passed(r.cleanupLeaseExpiresAt, now)
      case _ =>
        match r.quarantine
        case PendingUpload => Passed(r.uploadExpiresAt, now)
        case Uploading => Passed(if r.processingExpiresAt.Some? then r.processingExpiresAt else r.uploadExpiresAt, now)
        case Deleting => r.processingExpiresAt.None? || r.processingExpiresAt.value <= now
        case _ => false
  }

  /** `retentionDue` is the answer of session state, retention policy and purge cutoff together; it is
      false for every session that is still active. */
  function ClaimCleanup(limits: Limits, r: Record, now: int, retentionDue: bool): Option<Record> {
    if !IsCleanupEligible(r, now) || (RetentionPending(r) && !retentionDue) then None
    else
      Swap(r, r.version,
           r.(tokenHash := None, processing := CleanupInProgress, processingExpiresAt := None,
              cleanupGeneration := Some((if r.cleanupGeneration.Some? then r.cleanupGeneration.value else 0) + 1),
              cleanupLeaseExpiresAt := Some(now + limits.cleanupLeaseTtl)))
  }

  /** Doubling from two minutes, capped at one hour. */
  function RetryDelay(retryCount: nat): (delay: nat)
    ensures 60 <= delay <= 3600
  {
    var shift := if retryCount < 6 then retryCount else 6;
    var delay := 60 * Pow2(shift);
    if delay < 3600 then delay else 3600
  }

  function FinishCleanup(r: Record, claimed: Record, storageDeleted: bool, now: int): Option<Record> {
    if claimed.cleanupGeneration.None? then None
    else if storageDeleted then
      var cleaned := r.(blob := None, quarantineBlob := None, tokenHash := None, processing := Complete,
                        processingExpiresAt := None, cleanupLeaseExpiresAt := None, cleanupNextAttemptAt := None);
      Swap(r, claimed.version,
           match claimed.quarantine
           case PendingUpload => cleaned.(quarantine := Expired, scan := ScanFailed,
                                          rejection := Some("upload_ticket_expired"), deletedAt := Some(now))
           case Uploading => cleaned.(quarantine := Failed, scan := ScanFailed,
                                      rejection := Some("upload_processing_expired"))
           case Deleting => cleaned.(quarantine := Deleted, deletedAt := Some(now))
           case _ => cleaned)
    else
      var retries := (if claimed.cleanupRetryCount.Some? then claimed.cleanupRetryCount.value else 0) + 1;
      Swap(r, claimed.version,
           r.(processing := CleanupBackoff, cleanupLeaseExpiresAt := None, cleanupRetryCount := Some(retries),
              cleanupNextAttemptAt := Some(now + RetryDelay(retries)),
              rejection := if claimed.rejection.Some? then claimed.rejection else Some("storage_cleanup_failed")))
  }

  // ---------------------------------------------------------------------------------------------
  // Finalization, linking and removal
  // ---------------------------------------------------------------------------------------------

  predicate Finalizable(r: Record) {
    r.quarantine == Ready && r.scan == Clean && r.blob.Some? && r.quarantineBlob.None?
    && r.byteCount.Some? && r.sha.Some? && r.deletedAt.None?
  }

  function Finalize(r: Record, seen: Record, now: int): Option<Record> {
    if !Finalizable(seen) then None
    else Swap(r, seen.version, r.(quarantine := Released, processing := Complete, processingExpiresAt := None,
                                  finalizedAt := Some(now)))
  }

  function Link(r: Record): Option<Record> {
    if r.quarantine != Released || r.scan != Clean || r.deletedAt.Some? then None
    else Swap(r, r.version, r.(linked := true))
  }

  predicate Removable(r: Record) { !r.linked && r.quarantine != Uploading && r.deletedAt.None? }

  function MarkDeleting(limits: Limits, r: Record, seen: Record, now: int): Option<Record> {
    if !Removable(seen) then None
    else Swap(r, seen.version, r.(tokenHash := None, quarantine := Deleting, processing := ProcessingDeleting,
                                  processingExpiresAt := Some(now + limits.uploadProcessingTtl)))
  }

  function FinishRemoval(r: Record, marked: Record, now: int): Option<Record> {
    Swap(r, marked.version, r.(blob := None, quarantineBlob := None, quarantine := Deleted, processing := Complete,
                               processingExpiresAt := None, deletedAt := Some(now)))
  }

  /** The keys a record names, in the order they are deleted. */
  function Keys(r: Record): seq<Key> {
    (if r.blob.Some? then [r.blob.value] else []) + (if r.quarantineBlob.Some? then [r.quarantineBlob.value] else [])
  }
}
