/** Upload, cleanup workers, owner removal, finalization and message linking racing over one record and
    the blob store. Every store call and every commit may fail, with or without its effect. */
module AttachmentProtocol {
  import opened Wrappers
  import opened AttachmentSteps
  import Steps = AttachmentSteps

  /** How a call to the outside ends: done, done but reported as failed, or not done at all. */
  datatype Fate = Done | LostReply | Refused

  datatype ScanReport = ScanReport(observed: Object, rejection: Option<string>)

  datatype Decision = InvalidDecision | Denied(reason: string) | Allowed

  /** Everything an upload hears from outside at one of its steps. */
  datatype Answers = Answers(
    sizeHint: Option<nat>, body: Object, validSha: bool, store: Fate, scan: Option<ScanReport>,
    decision: Decision, finalKey: Key, commit: Fate)

  /** Why the quarantine object is about to be deleted. */
  datatype Cause = Rejecting(byteCount: Option<nat>, sha: Option<string>, reason: string) | Failing(reason: string)

  datatype Upload =
    | NotStarted
    | Claimed(claimed: Record)
    | Stored(claimed: Record, outcome: Object)
    | BeingScanned(claimed: Record, outcome: Object)
    | Cleared(claimed: Record, outcome: Object)
    | Promoted(claimed: Record, outcome: Object, finalKey: Key)
    | Undoing(claimed: Record, finalKey: Key)
    | Discarding(claimed: Record, cause: Cause)
    | Finishing(claimed: Record, verdict: Verdict)
    | Abandoning(finalKey: Key)
    | Over

  datatype Phase = Probe | Delete | Confirm

  /** A cleanup worker's claim and how far it got. */
  datatype Cleanup = Cleanup(claimed: Record, at: int, todo: seq<Key>, phase: Phase, allDeleted: bool, over: bool)

  /** An owner's removal: first the row as it was read, then the row it marked. */
  datatype Removal =
    | Read(seen: Record)
    | Marked(marked: Record, at: int, todo: seq<Key>, phase: Phase)
    | RemovalOver

  /** `quarantineKey` is the key the ticket named; `issued` are all keys handed out; `named` is the
      final key the record ever referred to; `attested` what the scanner vouched for; `claims` counts
      the successful upload claims; `orphans` are the keys that held an object before the ticket, or
      under which a failed call of the upload left one. The last five are history. */
  datatype World = World(
    limits: Limits,
    now: int,
    record: Record,
    objects: map<Key, Object>,
    upload: Upload,
    cleanups: seq<Cleanup>,
    removals: seq<Removal>,
    finalizations: seq<Record>,
    quarantineKey: Key,
    issued: set<Key>,
    named: Option<Key>,
    attested: Option<Object>,
    claims: nat,
    orphans: set<Key>)

  datatype Action =
    | Tick(seconds: nat)
    | DoClaimUpload(isOwner: bool, tokenHash: string, commit: Fate)
    | DoUpload(answers: Answers)
    | DoClaimCleanup(at: int, retentionDue: bool, commit: Fate)
    | DoCleanup(i: nat, fate: Fate)
    | DoRead(isOwner: bool)
    | DoMark(i: nat, commit: Fate)
    | DoRemove(i: nat, fate: Fate)
    | DoReadReady(isOwner: bool)
    | DoFinalize(i: nat, commit: Fate)
    | DoLink(commit: Fate)

  function Without(objects: map<Key, Object>, key: Key, fate: Fate): map<Key, Object> {
    if fate == Refused then objects else objects - {key}
  }

  /** Commits an update unless it was refused; remembers the final key it names. */
  function Commit(w: World, update: Option<Record>, fate: Fate): World {
    if update.None? || fate == Refused then w
    else w.(record := update.value, named := if update.value.blob.Some? then update.value.blob else w.named)
  }

  predicate Committed(update: Option<Record>, fate: Fate) { update.Some? && fate == Done }

  // ---------------------------------------------------------------------------------------------
  // Steps
  // ---------------------------------------------------------------------------------------------

  function ClaimStep(w: World, isOwner: bool, tokenHash: string, commit: Fate): World {
    var update := Steps.ClaimUpload(w.limits, w.record, w.now, isOwner, tokenHash);
    if update.None? || commit == Refused then w
    else
      Commit(w, update, commit).(
        claims := w.claims + 1,
        upload := if commit == Done then Claimed(update.value) else Over)
  }

  function Rejected(claimed: Record, outcome: Object, reason: string): Upload {
    Discarding(claimed, Rejecting(Some(outcome.size), Some(outcome.sha), reason))
  }

  /** The scanner must have seen exactly the stored object, find nothing, and the host must accept it. */
  function ScanStep(w: World, claimed: Record, outcome: Object, a: Answers): World {
    if a.scan.None? then w.(upload := Discarding(claimed, Failing("scan_unavailable")))
    else if a.scan.value.observed != outcome then w.(upload := Rejected(claimed, outcome, "scan_attestation_mismatch"))
    else if a.scan.value.rejection.Some? then w.(upload := Rejected(claimed, outcome, a.scan.value.rejection.value))
    else
      match a.decision
      case InvalidDecision => w.(upload := Discarding(claimed, Failing("acceptance_policy_invalid")))
      case Denied(reason) => w.(upload := Rejected(claimed, outcome, reason))
      case Allowed => w.(upload := Cleared(claimed, outcome), attested := Some(a.scan.value.observed))
  }

  function ReceiveStep(w: World, claimed: Record, a: Answers): World {
    if claimed.quarantineBlob.None? then w.(upload := Over)
    else if a.sizeHint.Some? && a.sizeHint.value != claimed.expectedBytes then
      w.(upload := Discarding(claimed, Rejecting(None, None, "declared_size_mismatch")))
    else
      var key := claimed.quarantineBlob.value;
      var objects := if a.store == Refused || key in w.objects then w.objects else w.objects[key := a.body];
      if a.store != Done then w.(objects := objects, upload := Discarding(claimed, Failing("quarantine_write_failed")))
      else if key in w.objects then w.(upload := Finishing(claimed, Fail(false, "quarantine_key_conflict")))
      else w.(objects := objects, upload := Stored(claimed, a.body))
  }

  function InspectStep(w: World, claimed: Record, outcome: Object, a: Answers): World {
    if outcome.size != claimed.expectedBytes || w.limits.maximumBytes < outcome.size || !a.validSha then
      w.(upload := Rejected(claimed, outcome, "stored_size_or_hash_mismatch"))
    else if a.store != Done then w.(upload := Discarding(claimed, Failing("quarantine_read_failed")))
    else w.(upload := BeingScanned(claimed, outcome))
  }

  function CopyStep(w: World, claimed: Record, outcome: Object, a: Answers): World {
    if a.finalKey in w.issued || claimed.quarantineBlob.None? then w
    else
      var key := claimed.quarantineBlob.value;
      var copied := key in w.objects && a.store != Refused;
      w.(issued := w.issued + {a.finalKey},
         objects := if copied then w.objects[a.finalKey := w.objects[key]] else w.objects,
         upload := if copied && a.store == Done then Promoted(claimed, outcome, a.finalKey)
                   else Discarding(claimed, Failing("quarantine_promotion_failed")),
         orphans := if copied && a.store != Done then w.orphans + {a.finalKey} else w.orphans)
  }

  function ClearStep(w: World, claimed: Record, outcome: Object, finalKey: Key, store: Fate): World {
    if claimed.quarantineBlob.None? then w
    else
      w.(objects := Without(w.objects, claimed.quarantineBlob.value, store),
         upload := if store == Done then Finishing(claimed, Accept(finalKey, outcome)) else Undoing(claimed, finalKey))
  }

  function UndoStep(w: World, claimed: Record, finalKey: Key, store: Fate): World {
    if claimed.quarantineBlob.None? then w
    else
      w.(objects := Without(w.objects, finalKey, store),
         upload := Finishing(claimed, FailKeeping(if store == Done then None else Some(finalKey),
                                                  claimed.quarantineBlob.value)))
  }

  function DiscardStep(w: World, claimed: Record, cause: Cause, store: Fate): World {
    if claimed.quarantineBlob.None? then w.(upload := Over)
    else
      var deleted := store == Done;
      w.(objects := Without(w.objects, claimed.quarantineBlob.value, store),
         upload := Finishing(claimed, match cause
                                      case Rejecting(byteCount, sha, reason) => Reject(deleted, byteCount, sha, reason)
                                      case Failing(reason) => Fail(deleted, reason)))
  }

  /** The keys a verdict leaves to cleanup, which nobody will hear of when it is not written. */
  function LeftBy(claimed: Record, verdict: Verdict): set<Key> {
    match verdict
    case Accept(_, _) => {}
    case Reject(deleted, _, _, _) => if deleted || claimed.quarantineBlob.None? then {} else {claimed.quarantineBlob.value}
    case Fail(deleted, _) => if deleted || claimed.quarantineBlob.None? then {} else {claimed.quarantineBlob.value}
    case FailKeeping(kept, key) => if kept.Some? then {key, kept.value} else {key}
  }

  function FinishStep(w: World, claimed: Record, verdict: Verdict, commit: Fate): World {
    var update := Steps.FinishUpload(w.record, claimed, verdict);
    Commit(w, update, commit).(
      orphans := if update.Some? && commit != Refused then w.orphans else w.orphans + LeftBy(claimed, verdict),
      upload := if verdict.Accept? && !Committed(update, commit) then Abandoning(verdict.finalKey) else Over)
  }

  /** The upload from its claim to its verdict, one await at a time. */
  function UploadStep(w: World, a: Answers): World {
    match w.upload
    case NotStarted => w
    case Claimed(claimed) => ReceiveStep(w, claimed, a)
    case Stored(claimed, outcome) => InspectStep(w, claimed, outcome, a)
    case BeingScanned(claimed, outcome) => ScanStep(w, claimed, outcome, a)
    case Cleared(claimed, outcome) => CopyStep(w, claimed, outcome, a)
    case Promoted(claimed, outcome, finalKey) => ClearStep(w, claimed, outcome, finalKey, a.store)
    case Undoing(claimed, finalKey) => UndoStep(w, claimed, finalKey, a.store)
    case Discarding(claimed, cause) => DiscardStep(w, claimed, cause, a.store)
    case Finishing(claimed, verdict) => FinishStep(w, claimed, verdict, a.commit)
    case Abandoning(finalKey) =>
      w.(objects := Without(w.objects, finalKey, a.store), upload := Over,
         orphans := if a.store == Refused && w.record.blob != Some(finalKey) then w.orphans + {finalKey} else w.orphans)
    case Over => w
  }

  function ClaimCleanupStep(w: World, at: int, retentionDue: bool, commit: Fate): World {
    var update := Steps.ClaimCleanup(w.limits, w.record, at, retentionDue);
    var after := Commit(w, update, commit);
    if !Committed(update, commit) then after
    else after.(cleanups := w.cleanups + [Cleanup(update.value, at, Keys(update.value), Probe, true, false)])
  }

  /** `delete_blob_if_present`, one store call at a time: probe, delete, confirm. */
  function AdvanceCleanup(objects: map<Key, Object>, c: Cleanup, fate: Fate): (map<Key, Object>, Cleanup)
    requires c.todo != []
  {
    var key := c.todo[0];
    match c.phase
    case Probe =>
      if fate == Done && key in objects then (objects, c.(phase := Delete))
      else (objects, c.(todo := c.todo[1..], allDeleted := c.allDeleted && fate == Done))
    case Delete => (Without(objects, key, fate), c.(phase := Confirm))
    case Confirm =>
      (objects, c.(todo := c.todo[1..], phase := Probe, allDeleted := c.allDeleted && fate == Done && key !in objects))
  }

  function CleanupStep(w: World, i: nat, fate: Fate): World {
    if i >= |w.cleanups| || w.cleanups[i].over then w
    else
      var c := w.cleanups[i];
      if c.todo != [] then
        var (objects, advanced) := AdvanceCleanup(w.objects, c, fate);
        w.(objects := objects, cleanups := w.cleanups[i := advanced])
      else
        Commit(w, Steps.FinishCleanup(w.record, c.claimed, c.allDeleted, c.at), fate).(
          cleanups := w.cleanups[i := c.(over := true)])
  }

  function MarkStep(w: World, i: nat, commit: Fate): World {
    if i >= |w.removals| || !w.removals[i].Read? then w
    else
      var update := Steps.MarkDeleting(w.limits, w.record, w.removals[i].seen, w.now);
      Commit(w, update, commit).(
        removals := w.removals[i := if Committed(update, commit) then Marked(update.value, w.now, Keys(update.value), Probe)
                                    else RemovalOver])
  }

  /** The removal deletes what it finds; any store error ends it with the row still marked. */
  function RemoveStep(w: World, i: nat, fate: Fate): World {
    if i >= |w.removals| || !w.removals[i].Marked? then w
    else
      var r := w.removals[i];
      if r.todo != [] then
        var key := r.todo[0];
        var objects := if r.phase == Probe then w.objects else Without(w.objects, key, fate);
        w.(objects := objects,
           removals := w.removals[i := if fate != Done then RemovalOver
                                       else if r.phase == Probe && key in w.objects then r.(phase := Delete)
                                       else r.(todo := r.todo[1..], phase := Probe)])
      else
        Commit(w, Steps.FinishRemoval(w.record, r.marked, r.at), fate).(removals := w.removals[i := RemovalOver])
  }

  function Step(w: World, a: Action): World {
    match a
    case Tick(seconds) => w.(now := w.now + seconds)
    case DoClaimUpload(isOwner, tokenHash, commit) => ClaimStep(w, isOwner, tokenHash, commit)
    case DoUpload(answers) => UploadStep(w, answers)
    case DoClaimCleanup(at, retentionDue, commit) =>
      if at <= w.now then ClaimCleanupStep(w, at, retentionDue, commit) else w
    case DoCleanup(i, fate) => CleanupStep(w, i, fate)
    case DoRead(isOwner) => if isOwner && Removable(w.record) then w.(removals := w.removals + [Read(w.record)]) else w
    case DoMark(i, commit) => MarkStep(w, i, commit)
    case DoRemove(i, fate) => RemoveStep(w, i, fate)
    case DoReadReady(isOwner) =>
      if isOwner && Finalizable(w.record) then w.(finalizations := w.finalizations + [w.record]) else w
    case DoFinalize(i, commit) =>
      if i < |w.finalizations| then Commit(w, Steps.Finalize(w.record, w.finalizations[i], w.now), commit) else w
    case DoLink(commit) => Commit(w, Steps.Link(w.record), commit)
  }

  function Execute(w: World, actions: seq<Action>): World
    decreases |actions|
  {
    if actions == [] then w else Execute(Step(w, actions[0]), actions[1..])
  }

  lemma {:induction false} ExecuteBoth(w: World, first: seq<Action>, second: seq<Action>)
    ensures Execute(w, first + second) == Execute(Execute(w, first), second)
    decreases |first|
  {
    if first == [] {
      assert first + second == second;
    } else {
      assert (first + second)[1..] == first[1..] + second;
      ExecuteBoth(Step(w, first[0]), first[1..], second);
    }
  }
}
