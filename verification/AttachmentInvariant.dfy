/** What every interleaving of upload, cleanup, removal and finalization keeps. */
module AttachmentInvariant {
  import opened Wrappers
  import opened AttachmentSteps
  import opened AttachmentProtocol

  // ---------------------------------------------------------------------------------------------
  // The invariant
  // ---------------------------------------------------------------------------------------------

  /** A copy of the row that some actor holds: older than the row, or equal to it. */
  predicate Snapshot(w: World, s: Record) {
    && (s.version < w.record.version || s == w.record)
    && NamesKnownKeys(w, s) && s.expectedBytes == w.record.expectedBytes
  }

  predicate NamesKnownKeys(w: World, s: Record) {
    && (s.quarantineBlob.Some? ==> s.quarantineBlob.value == w.quarantineKey)
    && (s.blob.Some? ==> s.blob == w.named)
  }

  predicate Holds(objects: map<Key, Object>, key: Key, o: Object) {
    key in objects && objects[key] == o
  }

  predicate FinalKey(w: World, key: Key) { key in w.issued && key != w.quarantineKey }

  /** Between claim and verdict the record names no final key, so nobody but the upload can know it. */
  predicate UploadClaim(w: World, claimed: Record) {
    Snapshot(w, claimed) && w.named.None? && claimed.quarantineBlob == Some(w.quarantineKey)
  }

  predicate Quarantined(w: World, outcome: Object) {
    w.quarantineKey in w.objects ==> w.objects[w.quarantineKey] == outcome
  }

  /** The object has the size the ticket was issued for, within the limit of the deployment. */
  predicate Fits(w: World, o: Object) { o.size == w.record.expectedBytes <= w.limits.maximumBytes }

  predicate UploadOk(w: World) {
    match w.upload
    case NotStarted => w.claims == 0 && w.named.None?
    case Claimed(claimed) => UploadClaim(w, claimed)
    case Stored(claimed, outcome) => UploadClaim(w, claimed) && Quarantined(w, outcome)
    case BeingScanned(claimed, outcome) => UploadClaim(w, claimed) && Quarantined(w, outcome) && Fits(w, outcome)
    case Cleared(claimed, outcome) =>
      UploadClaim(w, claimed) && Quarantined(w, outcome) && Fits(w, outcome) && w.attested == Some(outcome)
    case Promoted(claimed, outcome, finalKey) =>
      && UploadClaim(w, claimed) && Fits(w, outcome) && w.attested == Some(outcome)
      && FinalKey(w, finalKey) && Holds(w.objects, finalKey, outcome)
    case Undoing(claimed, finalKey) => UploadClaim(w, claimed) && FinalKey(w, finalKey)
    case Discarding(claimed, _) => UploadClaim(w, claimed)
    case Finishing(claimed, verdict) =>
      && UploadClaim(w, claimed)
      && (match verdict
          case Accept(finalKey, outcome) =>
            && FinalKey(w, finalKey) && Holds(w.objects, finalKey, outcome)
            && Fits(w, outcome) && w.attested == Some(outcome) && w.quarantineKey !in w.objects
          case FailKeeping(kept, key) => key == w.quarantineKey && (kept.Some? ==> FinalKey(w, kept.value))
          case _ => true)
    case Abandoning(finalKey) => FinalKey(w, finalKey)
    case Over => true
  }

  predicate Todo(claimed: Record, todo: seq<Key>) {
    forall k :: k in todo ==> Some(k) == claimed.blob || Some(k) == claimed.quarantineBlob
  }

  /** Once the final key is off the list it is gone, unless some deletion could not be confirmed. */
  predicate CleanupOk(w: World, c: Cleanup) {
    !c.over ==>
      && Snapshot(w, c.claimed) && Todo(c.claimed, c.todo)
      && (c.claimed.blob.Some? && c.claimed.blob.value !in c.todo && c.allDeleted ==> c.claimed.blob.value !in w.objects)
  }

  predicate RemovalOk(w: World, r: Removal) {
    match r
    case Read(seen) => Snapshot(w, seen)
    case Marked(marked, _, todo, _) =>
      && Snapshot(w, marked) && Todo(marked, todo) && marked.tokenHash.None?
      && (marked.blob.Some? && marked.blob.value !in todo ==> marked.blob.value !in w.objects)
    case RemovalOver => true
  }

  /** A record that is served describes what the scanner attested; nothing is left in quarantine, and its
      upload is over, unless it takes the object for unpublished and is about to delete it. */
  predicate ServedRecord(w: World) {
    && w.record.blob.Some? && w.record.byteCount.Some? && w.record.sha.Some? && w.record.quarantineBlob.None?
    && var o := Object(w.record.byteCount.value, w.record.sha.value);
    && w.attested == Some(o) && Fits(w, o) && w.quarantineKey !in w.objects
    && (w.record.processing == ProcessingReady || w.record.processing == Complete)
    && (w.upload == Over || w.upload == Abandoning(w.record.blob.value))
  }

  /** Nobody who may delete the final object is left. */
  predicate NoDeleter(w: World) {
    && (forall i :: 0 <= i < |w.cleanups| && !w.cleanups[i].over ==> w.cleanups[i].claimed.blob.None?)
    && (forall i :: 0 <= i < |w.removals| && w.removals[i].Marked? ==> w.removals[i].marked.blob.None?)
  }

  predicate RecordOk(w: World) { IsServed(w.record) ==> ServedRecord(w) && NoDeleter(w) }

  /** The object of a served record is there, with the size and checksum the record gives. */
  predicate ServedOk(w: World) {
    IsServed(w.record) ==>
      && w.record.blob.Some? && w.record.byteCount.Some? && w.record.sha.Some?
      && Holds(w.objects, w.record.blob.value, Object(w.record.byteCount.value, w.record.sha.value))
  }

  predicate HistoryOk(w: World) {
    && w.claims <= 1
    && (w.record.tokenHash.Some? ==> w.claims == 0 && w.record.quarantineBlob == Some(w.quarantineKey))
    && w.quarantineKey in w.issued
    && (w.named.Some? ==> FinalKey(w, w.named.value))
    && NamesKnownKeys(w, w.record)
    && (w.named.Some? && w.record.blob.None? ==> w.named.value !in w.objects)
  }

  predicate ActorsOk(w: World) {
    && (forall i :: 0 <= i < |w.cleanups| ==> CleanupOk(w, w.cleanups[i]))
    && (forall i :: 0 <= i < |w.removals| ==> RemovalOk(w, w.removals[i]))
    && (forall i :: 0 <= i < |w.finalizations| ==> Snapshot(w, w.finalizations[i]))
  }

  predicate Core(w: World) { HistoryOk(w) && UploadOk(w) && RecordOk(w) }

  /** What every step keeps, whatever it does. */
  predicate Base(w: World) {
    && Core(w) && ActorsOk(w)
    && (w.claims == 0 ==> w.upload == NotStarted)
  }

  predicate Inv(w: World) { Base(w) && ServedOk(w) }

  /** The upload takes the object that the record serves for unpublished. */
  predicate Endangered(w: World) {
    w.upload.Abandoning? && IsServed(w.record) && w.record.blob == Some(w.upload.finalKey)
  }

  /** The upload deletes that object. */
  predicate Deletes(w: World, a: Action) { a.DoUpload? && a.answers.store != Refused && Endangered(w) }

  // ---------------------------------------------------------------------------------------------
  // Preservation
  // ---------------------------------------------------------------------------------------------

  predicate SameActors(w: World, after: World) {
    after.cleanups == w.cleanups && after.removals == w.removals && after.finalizations == w.finalizations
  }

  /** The row only moves on, a final key is named at most once, and its object never comes back. */
  predicate Forward(w: World, after: World) {
    && after.quarantineKey == w.quarantineKey && after.record.expectedBytes == w.record.expectedBytes
    && (after.record == w.record || w.record.version < after.record.version)
    && (after.named == w.named || w.named.None?)
    && (w.named.Some? && w.named.value in after.objects ==> w.named.value in w.objects)
  }

  lemma ActorsKept(w: World, after: World)
    requires ActorsOk(w) && SameActors(w, after) && Forward(w, after)
    ensures ActorsOk(after)
  {
    forall i | 0 <= i < |w.cleanups| ensures CleanupOk(after, after.cleanups[i]) {
      assert CleanupOk(w, w.cleanups[i]);
    }
    forall i | 0 <= i < |w.removals| ensures RemovalOk(after, after.removals[i]) {
      assert RemovalOk(w, w.removals[i]);
    }
    forall i | 0 <= i < |w.finalizations| ensures Snapshot(after, after.finalizations[i]) {
      assert Snapshot(w, w.finalizations[i]);
    }
  }

  /** The step keeps the base whatever holds, and the served object if it was there. */
  predicate Keeps(w: World, after: World) { Base(after) && (ServedOk(w) ==> ServedOk(after)) }

  lemma ClaimStepKeeps(w: World, isOwner: bool, tokenHash: string, commit: Fate)
    requires Base(w)
    ensures Keeps(w, ClaimStep(w, isOwner, tokenHash, commit))
  {
    ActorsKept(w, ClaimStep(w, isOwner, tokenHash, commit));
  }

  /** A step that leaves the other actors alone and keeps everything else. */
  predicate Good(w: World, after: World) {
    && Core(after) && (ServedOk(w) ==> ServedOk(after))
    && Forward(w, after) && SameActors(w, after) && after.claims == w.claims
  }

  /** A step before the copy touches at most the object under the quarantine key. */
  lemma EarlyStepIsGood(w: World, after: World)
    requires Core(w) && (w.upload.Claimed? || w.upload.Stored? || w.upload.BeingScanned?)
    requires after == w.(objects := after.objects, upload := after.upload, attested := after.attested)
    requires after.objects == w.objects
             || (w.quarantineKey !in w.objects
                 && after.objects - {w.quarantineKey} == w.objects)
    requires UploadOk(after)
    ensures Good(w, after)
  {}

  lemma ReceiveKeeps(w: World, a: Answers)
    requires Core(w) && w.upload.Claimed?
    ensures Good(w, ReceiveStep(w, w.upload.claimed, a))
  {
    EarlyStepIsGood(w, ReceiveStep(w, w.upload.claimed, a));
  }

  lemma InspectKeeps(w: World, a: Answers)
    requires Core(w) && w.upload.Stored?
    ensures Good(w, InspectStep(w, w.upload.claimed, w.upload.outcome, a))
  {
    EarlyStepIsGood(w, InspectStep(w, w.upload.claimed, w.upload.outcome, a));
  }

  lemma ScanKeeps(w: World, a: Answers)
    requires Core(w) && w.upload.BeingScanned?
    ensures Good(w, ScanStep(w, w.upload.claimed, w.upload.outcome, a))
  {
    EarlyStepIsGood(w, ScanStep(w, w.upload.claimed, w.upload.outcome, a));
  }

  /** The copy has the content that was scanned, under a key nobody else knows. */
  lemma CopyKeeps(w: World, a: Answers)
    requires Core(w) && w.upload.Cleared?
    ensures Good(w, CopyStep(w, w.upload.claimed, w.upload.outcome, a))
  {}

  lemma ClearKeeps(w: World, store: Fate)
    requires Core(w)
    ensures w.upload.Promoted? ==> Good(w, ClearStep(w, w.upload.claimed, w.upload.outcome, w.upload.finalKey, store))
    ensures w.upload.Undoing? ==> Good(w, UndoStep(w, w.upload.claimed, w.upload.finalKey, store))
  {}

  lemma DiscardKeeps(w: World, store: Fate)
    requires Core(w) && w.upload.Discarding?
    ensures Good(w, DiscardStep(w, w.upload.claimed, w.upload.cause, store))
  {}

  lemma AbandonKeeps(w: World, a: Answers)
    requires Core(w) && w.upload.Abandoning?
    ensures var after := UploadStep(w, a);
            && Core(after) && Forward(w, after) && SameActors(w, after) && after.claims == w.claims
            && (ServedOk(w) && !Deletes(w, DoUpload(a)) ==> ServedOk(after))
  {}

  /** The verdict: an accepted upload becomes the served record, any other serves nothing. */
  lemma FinishKeeps(w: World, commit: Fate)
    requires Core(w) && ActorsOk(w) && w.upload.Finishing? && w.claims != 0
    ensures Good(w, FinishStep(w, w.upload.claimed, w.upload.verdict, commit))
  {}

  lemma UploadStepIsGood(w: World, a: Answers)
    requires Core(w) && ActorsOk(w) && w.claims != 0
    requires w.upload != NotStarted && !w.upload.Abandoning? && w.upload != Over
    ensures Good(w, UploadStep(w, a))
  {
    match w.upload
    case Claimed(_) => ReceiveKeeps(w, a);
    case Stored(_, _) => InspectKeeps(w, a);
    case BeingScanned(_, _) => ScanKeeps(w, a);
    case Cleared(_, _) => CopyKeeps(w, a);
    case Promoted(_, _, _) => ClearKeeps(w, a.store);
    case Undoing(_, _) => ClearKeeps(w, a.store);
    case Discarding(_, _) => DiscardKeeps(w, a.store);
    case Finishing(_, _) => FinishKeeps(w, a.commit);
  }

  lemma UploadStepKeeps(w: World, a: Answers)
    requires Base(w)
    ensures Base(UploadStep(w, a))
    ensures ServedOk(w) && !Deletes(w, DoUpload(a)) ==> ServedOk(UploadStep(w, a))
  {
    if w.upload.Abandoning? {
      AbandonKeeps(w, a);
      ActorsKept(w, UploadStep(w, a));
    } else if w.upload != NotStarted && w.upload != Over {
      UploadStepIsGood(w, a);
      ActorsKept(w, UploadStep(w, a));
    }
  }

  lemma NamedKeys(r: Record)
    ensures Todo(r, Keys(r)) && (r.blob.Some? ==> r.blob.value in Keys(r))
  {}

  /** Claiming or marking takes the record out of service and leaves the upload's own work alone. */
  lemma TakenKeeps(w: World, updated: Record)
    requires HistoryOk(w) && UploadOk(w)
    requires updated.version == w.record.version + 1 && updated.tokenHash.None? && !IsServed(updated)
    requires updated.expectedBytes == w.record.expectedBytes
    requires updated.blob == w.record.blob && updated.quarantineBlob == w.record.quarantineBlob
    ensures Core(w.(record := updated))
  {}

  lemma AddedCleanup(w: World, c: Cleanup)
    requires Base(w) && CleanupOk(w, c) && !IsServed(w.record)
    ensures var after := w.(cleanups := w.cleanups + [c]);
            Base(after) && ServedOk(after)
  {
    var after := w.(cleanups := w.cleanups + [c]);
    ActorsKept(w, after.(cleanups := w.cleanups));
    forall k | 0 <= k < |after.cleanups| ensures CleanupOk(after, after.cleanups[k]) {
      assert k < |w.cleanups| ==> CleanupOk(w, w.cleanups[k]);
    }
  }

  lemma ClaimCleanupKeeps(w: World, at: int, retentionDue: bool, commit: Fate)
    requires Base(w)
    ensures Keeps(w, ClaimCleanupStep(w, at, retentionDue, commit))
  {
    var update := ClaimCleanup(w.limits, w.record, at, retentionDue);
    if update.Some? && commit != Refused {
      TakenKeeps(w, update.value);
      var taken := w.(record := update.value);
      ActorsKept(w, taken);
      NamedKeys(update.value);
      if commit == Done {
        AddedCleanup(taken, Cleanup(update.value, at, Keys(update.value), Probe, true, false));
      }
    }
  }

  /** A key an actor may delete is never one the upload or the served record relies on. */
  lemma DeletionKeeps(w: World, holder: Record, key: Key, fate: Fate)
    requires Core(w) && Snapshot(w, holder)
    requires Some(key) == holder.blob || Some(key) == holder.quarantineBlob
    ensures var after := w.(objects := Without(w.objects, key, fate));
            Core(after) && ((IsServed(w.record) ==> holder.blob.None?) && ServedOk(w) ==> ServedOk(after))
  {}

  /** Dropping the references after the object is gone, or keeping them for a retry. */
  lemma DroppedKeeps(w: World, updated: Record)
    requires HistoryOk(w) && UploadOk(w) && !IsServed(updated)
    requires updated.version == w.record.version + 1 && updated.expectedBytes == w.record.expectedBytes
    requires updated.tokenHash.Some? ==> updated.tokenHash == w.record.tokenHash
    requires (updated.blob == w.record.blob && updated.quarantineBlob == w.record.quarantineBlob)
             || (updated.blob.None? && updated.quarantineBlob.None? && updated.tokenHash.None?
                 && (w.named.Some? ==> w.named.value !in w.objects))
    ensures Core(w.(record := updated))
  {}

  lemma AdvanceKeeps(w: World, c: Cleanup, fate: Fate)
    requires HistoryOk(w) && CleanupOk(w, c) && !c.over && c.todo != []
    ensures var (objects, advanced) := AdvanceCleanup(w.objects, c, fate);
            && (objects == w.objects || objects == Without(w.objects, c.todo[0], fate))
            && CleanupOk(w.(objects := objects), advanced) && !advanced.over && advanced.claimed == c.claimed
  {}

  lemma ReplacedCleanup(w: World, i: nat, c: Cleanup)
    requires Base(w) && i < |w.cleanups| && CleanupOk(w, c) && !w.cleanups[i].over
    requires c.over || c.claimed == w.cleanups[i].claimed
    ensures Keeps(w, w.(cleanups := w.cleanups[i := c]))
  {
    var after := w.(cleanups := w.cleanups[i := c]);
    ActorsKept(w, after.(cleanups := w.cleanups));
    assert UploadOk(after) && NoDeleter(w) ==> NoDeleter(after);
    forall k | 0 <= k < |w.cleanups| ensures CleanupOk(after, after.cleanups[k]) {
      assert CleanupOk(w, w.cleanups[k]);
    }
  }

  lemma ReplacedRemoval(w: World, i: nat, r: Removal)
    requires Base(w) && i < |w.removals| && RemovalOk(w, r)
    requires r.Marked? && IsServed(w.record) ==> r.marked.blob.None?
    ensures Keeps(w, w.(removals := w.removals[i := r]))
  {
    var after := w.(removals := w.removals[i := r]);
    ActorsKept(w, after.(removals := w.removals));
    forall k | 0 <= k < |w.removals| ensures RemovalOk(after, after.removals[k]) {
      assert RemovalOk(w, w.removals[k]);
    }
  }

  lemma CleanupStepKeeps(w: World, i: nat, fate: Fate)
    requires Base(w)
    ensures Keeps(w, CleanupStep(w, i, fate))
  {
    if i < |w.cleanups| && !w.cleanups[i].over {
      var c := w.cleanups[i];
      assert CleanupOk(w, c);
      if c.todo != [] {
        var (objects, advanced) := AdvanceCleanup(w.objects, c, fate);
        AdvanceKeeps(w, c, fate);
        DeletionKeeps(w, c.claimed, c.todo[0], fate);
        ActorsKept(w, w.(objects := objects));
        ReplacedCleanup(w.(objects := objects), i, advanced);
      } else {
        CleanedKeeps(w, c, fate);
        var after := Commit(w, FinishCleanup(w.record, c.claimed, c.allDeleted, c.at), fate);
        ActorsKept(w, after);
        ReplacedCleanup(after, i, c.(over := true));
      }
    }
  }

  /** The end of a cleanup: a claim that is still current has seen its object gone before it drops it. */
  lemma CleanedKeeps(w: World, c: Cleanup, fate: Fate)
    requires Core(w) && CleanupOk(w, c) && !c.over && c.todo == []
    requires IsServed(w.record) ==> c.claimed.blob.None?
    ensures var after := Commit(w, FinishCleanup(w.record, c.claimed, c.allDeleted, c.at), fate);
            && Core(after) && Forward(w, after) && (ServedOk(w) ==> ServedOk(after))
  {
    var update := FinishCleanup(w.record, c.claimed, c.allDeleted, c.at);
    if update.Some? {
      DroppedKeeps(w, update.value);
    }
  }

  lemma MarkStepKeeps(w: World, i: nat, commit: Fate)
    requires Base(w)
    ensures Keeps(w, MarkStep(w, i, commit))
  {
    if i < |w.removals| && w.removals[i].Read? {
      var update := MarkDeleting(w.limits, w.record, w.removals[i].seen, w.now);
      var after := Commit(w, update, commit);
      if after != w {
        TakenKeeps(w, update.value);
        NamedKeys(update.value);
      }
      ActorsKept(w, after);
      ReplacedRemoval(after, i, MarkStep(w, i, commit).removals[i]);
    }
  }

  lemma RemoveStepKeeps(w: World, i: nat, fate: Fate)
    requires Base(w)
    ensures Keeps(w, RemoveStep(w, i, fate))
  {
    if i < |w.removals| && w.removals[i].Marked? {
      var r := w.removals[i];
      assert RemovalOk(w, r);
      if r.todo != [] {
        DeletionKeeps(w, r.marked, r.todo[0], fate);
        var deleted := w.(objects := RemoveStep(w, i, fate).objects);
        ActorsKept(w, deleted);
        ReplacedRemoval(deleted, i, RemoveStep(w, i, fate).removals[i]);
      } else {
        RemovedKeeps(w, r, fate);
        var after := Commit(w, FinishRemoval(w.record, r.marked, r.at), fate);
        ActorsKept(w, after);
        ReplacedRemoval(after, i, RemovalOver);
      }
    }
  }

  lemma RemovedKeeps(w: World, r: Removal, fate: Fate)
    requires Core(w) && r.Marked? && RemovalOk(w, r) && r.todo == []
    requires IsServed(w.record) ==> r.marked.blob.None?
    ensures var after := Commit(w, FinishRemoval(w.record, r.marked, r.at), fate);
            && Core(after) && Forward(w, after) && (ServedOk(w) ==> ServedOk(after))
  {}

  lemma FinalizeKeeps(w: World, i: nat, commit: Fate)
    requires Base(w) && i < |w.finalizations|
    ensures Keeps(w, Commit(w, Finalize(w.record, w.finalizations[i], w.now), commit))
  {
    ActorsKept(w, Commit(w, Finalize(w.record, w.finalizations[i], w.now), commit));
  }

  lemma LinkKeeps(w: World, commit: Fate)
    requires Base(w)
    ensures Keeps(w, Commit(w, Link(w.record), commit))
  {
    ActorsKept(w, Commit(w, Link(w.record), commit));
  }

  /** Reading the row adds a snapshot of it. */
  lemma ReadKeeps(w: World)
    requires Base(w)
    ensures Keeps(w, w.(removals := w.removals + [Read(w.record)]))
  {
    var after := w.(removals := w.removals + [Read(w.record)]);
    ActorsKept(w, after.(removals := w.removals));
    forall k | 0 <= k < |after.removals| ensures RemovalOk(after, after.removals[k]) {
      assert k < |w.removals| ==> RemovalOk(w, w.removals[k]);
    }
  }

  lemma ReadReadyKeeps(w: World)
    requires Base(w)
    ensures Keeps(w, w.(finalizations := w.finalizations + [w.record]))
  {
    var after := w.(finalizations := w.finalizations + [w.record]);
    ActorsKept(w, after.(finalizations := w.finalizations));
  }

  lemma TickKeeps(w: World, seconds: nat)
    requires Base(w)
    ensures Keeps(w, w.(now := w.now + seconds))
  {
    ActorsKept(w, w.(now := w.now + seconds));
  }

  lemma DeleterStepKeeps(w: World, a: Action)
    requires Base(w) && (a.DoClaimCleanup? || a.DoCleanup? || a.DoMark? || a.DoRemove?)
    ensures Keeps(w, Step(w, a))
  {
    match a
    case DoClaimCleanup(at, retentionDue, commit) => ClaimCleanupKeeps(w, at, retentionDue, commit);
    case DoCleanup(i, fate) => CleanupStepKeeps(w, i, fate);
    case DoMark(i, commit) => MarkStepKeeps(w, i, commit);
    case DoRemove(i, fate) => RemoveStepKeeps(w, i, fate);
  }

  lemma OtherStepKeeps(w: World, a: Action)
    requires Base(w) && !a.DoUpload? && !a.DoClaimCleanup? && !a.DoCleanup? && !a.DoMark? && !a.DoRemove?
    ensures Keeps(w, Step(w, a))
  {
    hide Base, ServedOk, ClaimStep;
    match a
    case Tick(seconds) => TickKeeps(w, seconds);
    case DoClaimUpload(isOwner, tokenHash, commit) => ClaimStepKeeps(w, isOwner, tokenHash, commit);
    case DoFinalize(i, commit) => if i < |w.finalizations| { FinalizeKeeps(w, i, commit); }
    case DoLink(commit) => LinkKeeps(w, commit);
    case DoRead(_) => ReadKeeps(w);
    case DoReadReady(_) => ReadReadyKeeps(w);
  }

  lemma StepKeeps(w: World, a: Action)
    requires Base(w)
    ensures Base(Step(w, a))
    ensures ServedOk(w) && !Deletes(w, a) ==> ServedOk(Step(w, a))
  {
    if a.DoUpload? {
      UploadStepKeeps(w, a.answers);
    } else if a.DoClaimCleanup? || a.DoCleanup? || a.DoMark? || a.DoRemove? {
      DeleterStepKeeps(w, a);
    } else {
      OtherStepKeeps(w, a);
    }
  }

  // ---------------------------------------------------------------------------------------------
  // What is promised about a served record
  // ---------------------------------------------------------------------------------------------

  /** A record that is ready or released names an existing object with exactly the size and checksum the
      scanner attested, of the size the ticket was issued for, and nothing is left in quarantine. */
  predicate Served(w: World) {
    IsServed(w.record) ==>
      && w.record.blob.Some? && w.record.byteCount.Some? && w.record.sha.Some?
      && var o := Object(w.record.byteCount.value, w.record.sha.value);
      && w.attested == Some(o) && Holds(w.objects, w.record.blob.value, o)
      && o.size == w.record.expectedBytes <= w.limits.maximumBytes && w.quarantineKey !in w.objects
  }

  /** The promise survives a step exactly when the step is not that deletion, and then the invariant does too. */
  lemma ServedStep(w: World, a: Action)
    requires Inv(w)
    ensures Served(Step(w, a)) <==> !Deletes(w, a)
    ensures !Deletes(w, a) ==> Inv(Step(w, a))
  {
    StepKeeps(w, a);
  }
}
