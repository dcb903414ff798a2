/** What the blob store is left with: every object is named by the record, is still in the upload's hands,
    or was left behind by a call that failed. */
module AttachmentStore {
  import opened Wrappers
  import opened AttachmentSteps
  import opened AttachmentProtocol
  import opened AttachmentInvariant
  import opened AttachmentTheorems
  import Steps = AttachmentSteps

  predicate Named(r: Record, key: Key) { r.blob == Some(key) || r.quarantineBlob == Some(key) }

  /** The upload will still publish, delete or report what is under the key. */
  predicate Minds(u: Upload, key: Key) {
    match u
    case Stored(claimed, _) => claimed.quarantineBlob == Some(key)
    case BeingScanned(claimed, _) => claimed.quarantineBlob == Some(key)
    case Cleared(claimed, _) => claimed.quarantineBlob == Some(key)
    case Promoted(claimed, _, finalKey) => claimed.quarantineBlob == Some(key) || key == finalKey
    case Undoing(claimed, finalKey) => claimed.quarantineBlob == Some(key) || key == finalKey
    case Discarding(claimed, _) => claimed.quarantineBlob == Some(key)
    case Finishing(claimed, verdict) =>
      key in LeftBy(claimed, verdict) || (verdict.Accept? && key == verdict.finalKey)
    case Abandoning(finalKey) => key == finalKey
    case _ => false
  }

  /** Gone, or somebody other than the record answers for it. */
  predicate Settled(w: World, key: Key) { key in w.objects ==> Minds(w.upload, key) || key in w.orphans }

  predicate AccountedFor(w: World) {
    forall key :: key in w.objects ==> Named(w.record, key) || Minds(w.upload, key) || key in w.orphans
  }

  /** A verdict that reports a deletion is right about it. */
  predicate VerdictOk(w: World) {
    w.upload.Finishing? ==>
      match w.upload.verdict
      case Reject(deleted, _, _, _) => deleted ==> w.quarantineKey !in w.objects
      case Fail(deleted, _) => deleted ==> w.quarantineKey !in w.objects
      case _ => true
  }

  /** What a worker with a current claim has taken off its list need not be named any more. */
  predicate CleanupSettled(w: World, c: Cleanup) {
    (!c.over && c.claimed == w.record && c.allDeleted
     && w.record.quarantineBlob == Some(w.quarantineKey) && w.quarantineKey !in c.todo)
    ==> Settled(w, w.quarantineKey)
  }

  predicate RemovalSettled(w: World, r: Removal) {
    (r.Marked? && r.marked == w.record
     && w.record.quarantineBlob == Some(w.quarantineKey) && w.quarantineKey !in r.todo)
    ==> Settled(w, w.quarantineKey)
  }

  predicate WorkersSettled(w: World) {
    && (forall i :: 0 <= i < |w.cleanups| ==> CleanupSettled(w, w.cleanups[i]))
    && (forall i :: 0 <= i < |w.removals| ==> RemovalSettled(w, w.removals[i]))
  }

  predicate Books(w: World) { AccountedFor(w) && VerdictOk(w) && WorkersSettled(w) }

  // ---------------------------------------------------------------------------------------------
  // Every step keeps the books
  // ---------------------------------------------------------------------------------------------

  /** A step that leaves workers and record alone, and whatever was settled. */
  lemma WorkersStaySettled(w: World, after: World)
    requires WorkersSettled(w) && after.cleanups == w.cleanups && after.removals == w.removals
    requires after.record == w.record && after.quarantineKey == w.quarantineKey
    requires Settled(w, w.quarantineKey) ==> Settled(after, w.quarantineKey)
    ensures WorkersSettled(after)
  {
    forall i | 0 <= i < |w.cleanups| ensures CleanupSettled(after, after.cleanups[i]) {
      assert CleanupSettled(w, w.cleanups[i]);
    }
    forall i | 0 <= i < |w.removals| ensures RemovalSettled(after, after.removals[i]) {
      assert RemovalSettled(w, w.removals[i]);
    }
  }

  /** When the row moves on, every claim and mark made before is stale. */
  lemma MovedRowSettlesWorkers(w: World, after: World)
    requires ActorsOk(w) && after.cleanups == w.cleanups && after.removals == w.removals
    requires w.record.version < after.record.version
    ensures WorkersSettled(after)
  {
    forall i | 0 <= i < |w.cleanups| ensures CleanupSettled(after, after.cleanups[i]) {
      assert CleanupOk(w, w.cleanups[i]);
    }
    forall i | 0 <= i < |w.removals| ensures RemovalSettled(after, after.removals[i]) {
      assert RemovalOk(w, w.removals[i]);
    }
  }

  lemma UploadKeepsBooks(w: World, a: Answers)
    requires Base(w) && Books(w)
    ensures Books(UploadStep(w, a))
  {
    var after := UploadStep(w, a);
    if w.upload.Finishing? {
      FinishKeepsBooks(w, a.commit);
    } else {
      EarlierKeepsBooks(w, a);
      WorkersStaySettled(w, after);
    }
  }

  /** Books kept by a step of the upload that leaves row and workers alone. */
  predicate Booked(w: World, after: World) {
    && AccountedFor(after) && VerdictOk(after) && after.record == w.record
    && after.cleanups == w.cleanups && after.removals == w.removals && after.quarantineKey == w.quarantineKey
    && (Settled(w, w.quarantineKey) ==> Settled(after, w.quarantineKey))
  }

  lemma ReceiveIsBooked(w: World, a: Answers)
    requires Core(w) && AccountedFor(w) && w.upload.Claimed?
    ensures Booked(w, UploadStep(w, a))
  {}

  lemma InspectIsBooked(w: World, a: Answers)
    requires Core(w) && AccountedFor(w) && w.upload.Stored?
    ensures Booked(w, UploadStep(w, a))
  {}

  lemma ScanIsBooked(w: World, a: Answers)
    requires Core(w) && AccountedFor(w) && w.upload.BeingScanned?
    ensures Booked(w, UploadStep(w, a))
  {}

  lemma CopyIsBooked(w: World, a: Answers)
    requires Core(w) && AccountedFor(w) && w.upload.Cleared?
    ensures Booked(w, UploadStep(w, a))
  {}

  lemma ClearIsBooked(w: World, a: Answers)
    requires Core(w) && AccountedFor(w) && (w.upload.Promoted? || w.upload.Undoing?)
    ensures Booked(w, UploadStep(w, a))
  {}

  lemma DiscardIsBooked(w: World, a: Answers)
    requires Core(w) && AccountedFor(w) && w.upload.Discarding?
    ensures Booked(w, UploadStep(w, a))
  {}

  lemma AbandonIsBooked(w: World, a: Answers)
    requires Core(w) && AccountedFor(w) && w.upload.Abandoning?
    ensures Booked(w, UploadStep(w, a))
  {}

  lemma EarlierKeepsBooks(w: World, a: Answers)
    requires Core(w) && AccountedFor(w) && VerdictOk(w) && !w.upload.Finishing?
    ensures Booked(w, UploadStep(w, a))
  {
    hide Core, AccountedFor, Booked;
    match w.upload
    case Claimed(_) => ReceiveIsBooked(w, a);
    case Stored(_, _) => InspectIsBooked(w, a);
    case BeingScanned(_, _) => ScanIsBooked(w, a);
    case Cleared(_, _) => CopyIsBooked(w, a);
    case Promoted(_, _, _) => ClearIsBooked(w, a);
    case Undoing(_, _) => ClearIsBooked(w, a);
    case Discarding(_, _) => DiscardIsBooked(w, a);
    case Abandoning(_) => AbandonIsBooked(w, a);
    case _ => IdleIsBooked(w);
  }

  lemma IdleIsBooked(w: World)
    requires AccountedFor(w) && VerdictOk(w)
    ensures Booked(w, w)
  {}

  lemma FinishKeepsBooks(w: World, commit: Fate)
    requires Base(w) && Books(w) && w.upload.Finishing?
    ensures Books(FinishStep(w, w.upload.claimed, w.upload.verdict, commit))
  {
    var claimed, verdict := w.upload.claimed, w.upload.verdict;
    var after := FinishStep(w, claimed, verdict, commit);
    assert UploadClaim(w, claimed);
    if after.record == w.record {
      WorkersStaySettled(w, after);
    } else {
      MovedRowSettlesWorkers(w, after);
    }
  }

  lemma CleanupKeepsBooks(w: World, i: nat, fate: Fate)
    requires Base(w) && Books(w) && i < |w.cleanups| && !w.cleanups[i].over
    ensures Books(CleanupStep(w, i, fate))
  {
    var c, after := w.cleanups[i], CleanupStep(w, i, fate);
    assert CleanupOk(w, c) && CleanupSettled(w, c);
    if c.todo != [] {
      var deleted := w.(objects := after.objects);
      DeletionKeepsBooks(w, deleted);
      AdvanceSettles(deleted, w.objects, c, fate);
      forall k | 0 <= k < |w.cleanups| ensures CleanupSettled(after, after.cleanups[k]) {
        assert CleanupSettled(deleted, w.cleanups[k]);
      }
      forall k | 0 <= k < |w.removals| ensures RemovalSettled(after, after.removals[k]) {
        assert RemovalSettled(deleted, w.removals[k]);
      }
    } else {
      CleanedKeepsBooks(w, i, fate);
    }
  }

  /** Taking objects away unsettles nothing. */
  lemma DeletionKeepsBooks(w: World, after: World)
    requires Books(w) && after == w.(objects := after.objects) && after.objects.Keys <= w.objects.Keys
    ensures Books(after)
  {
    WorkersStaySettled(w, after);
  }

  lemma AdvanceSettles(w: World, objects: map<Key, Object>, c: Cleanup, fate: Fate)
    requires CleanupSettled(w, c) && !c.over && c.todo != [] && w.objects == AdvanceCleanup(objects, c, fate).0
    ensures CleanupSettled(w, AdvanceCleanup(objects, c, fate).1)
  {}

  lemma CleanedKeepsBooks(w: World, i: nat, fate: Fate)
    requires Base(w) && Books(w) && i < |w.cleanups| && !w.cleanups[i].over && w.cleanups[i].todo == []
    ensures Books(CleanupStep(w, i, fate))
  {
    var c, after := w.cleanups[i], CleanupStep(w, i, fate);
    var finished := after.(cleanups := w.cleanups);
    assert CleanupOk(w, c) && CleanupSettled(w, c);
    if after.record == w.record {
      WorkersStaySettled(w, finished);
    } else {
      MovedRowSettlesWorkers(w, finished);
    }
    DroppedAreSettled(w, c, fate);
    forall k | 0 <= k < |w.cleanups| ensures CleanupSettled(after, after.cleanups[k]) {
      assert CleanupSettled(finished, w.cleanups[k]);
    }
    forall k | 0 <= k < |w.removals| ensures RemovalSettled(after, after.removals[k]) {
      assert RemovalSettled(finished, w.removals[k]);
    }
  }

  lemma DroppedAreSettled(w: World, c: Cleanup, fate: Fate)
    requires Core(w) && AccountedFor(w) && VerdictOk(w) && CleanupOk(w, c) && CleanupSettled(w, c) && !c.over && c.todo == []
    ensures var after := Commit(w, Steps.FinishCleanup(w.record, c.claimed, c.allDeleted, c.at), fate);
            AccountedFor(after) && VerdictOk(after) && (after.record == w.record || w.record.version < after.record.version)
  {}

  lemma RemoveKeepsBooks(w: World, i: nat, fate: Fate)
    requires Base(w) && Books(w) && i < |w.removals| && w.removals[i].Marked?
    ensures Books(RemoveStep(w, i, fate))
  {
    var r, after := w.removals[i], RemoveStep(w, i, fate);
    assert RemovalOk(w, r) && RemovalSettled(w, r);
    var others := after.(removals := w.removals);
    if r.todo != [] {
      DeletionKeepsBooks(w, others);
      assert RemovalSettled(others, r);
    } else {
      ClosedAreSettled(w, r, fate);
      if after.record == w.record { WorkersStaySettled(w, others); } else { MovedRowSettlesWorkers(w, others); }
    }
    forall k | 0 <= k < |w.cleanups| ensures CleanupSettled(after, after.cleanups[k]) {
      assert CleanupSettled(others, w.cleanups[k]);
    }
    forall k | 0 <= k < |w.removals| ensures RemovalSettled(after, after.removals[k]) {
      assert RemovalSettled(others, w.removals[k]);
    }
  }

  lemma ClosedAreSettled(w: World, r: Removal, fate: Fate)
    requires Core(w) && AccountedFor(w) && VerdictOk(w) && RemovalOk(w, r) && RemovalSettled(w, r) && r.Marked? && r.todo == []
    ensures var after := Commit(w, Steps.FinishRemoval(w.record, r.marked, r.at), fate);
            AccountedFor(after) && VerdictOk(after) && (after.record == w.record || w.record.version < after.record.version)
  {}

  /** A commit that keeps the names. */
  lemma RenamedKeepsBooks(w: World, after: World)
    requires Base(w) && Books(w) && after == w.(record := after.record, named := after.named)
    requires after.record == w.record || w.record.version < after.record.version
    requires after.record.blob == w.record.blob && after.record.quarantineBlob == w.record.quarantineBlob
    ensures Books(after)
  {
    if after.record == w.record { WorkersStaySettled(w, after); } else { MovedRowSettlesWorkers(w, after); }
  }

  lemma MarkKeepsBooks(w: World, i: nat, commit: Fate)
    requires Base(w) && Books(w) && i < |w.removals| && w.removals[i].Read?
    ensures Books(MarkStep(w, i, commit))
  {
    var after := MarkStep(w, i, commit);
    var others := after.(removals := w.removals);
    RenamedKeepsBooks(w, others);
    forall k | 0 <= k < |w.cleanups| ensures CleanupSettled(after, after.cleanups[k]) {
      assert CleanupSettled(others, w.cleanups[k]);
    }
    forall k | 0 <= k < |w.removals| ensures RemovalSettled(after, after.removals[k]) {
      assert RemovalSettled(others, w.removals[k]);
      NamedKeys(after.record);
    }
  }

  lemma ClaimKeepsBooks(w: World, at: int, retentionDue: bool, commit: Fate)
    requires Base(w) && Books(w)
    ensures Books(ClaimCleanupStep(w, at, retentionDue, commit))
  {
    var after := ClaimCleanupStep(w, at, retentionDue, commit);
    var others := after.(cleanups := w.cleanups);
    RenamedKeepsBooks(w, others);
    forall k | 0 <= k < |after.cleanups| ensures CleanupSettled(after, after.cleanups[k]) {
      if k < |w.cleanups| { assert CleanupSettled(others, w.cleanups[k]); }
    }
    forall k | 0 <= k < |w.removals| ensures RemovalSettled(after, after.removals[k]) {
      assert RemovalSettled(others, w.removals[k]);
    }
  }

  lemma ClaimUploadKeepsBooks(w: World, isOwner: bool, tokenHash: string, commit: Fate)
    requires Base(w) && Books(w)
    ensures Books(ClaimStep(w, isOwner, tokenHash, commit))
  {
    var after := ClaimStep(w, isOwner, tokenHash, commit);
    if after != w {
      assert w.upload == NotStarted;
      MovedRowSettlesWorkers(w, after);
    }
  }

  lemma StepKeepsBooks(w: World, a: Action)
    requires Base(w) && Books(w)
    ensures Books(Step(w, a))
  {
    match a
    case Tick(_) => WorkersStaySettled(w, Step(w, a));
    case DoClaimUpload(isOwner, tokenHash, commit) => ClaimUploadKeepsBooks(w, isOwner, tokenHash, commit);
    case DoUpload(answers) => UploadKeepsBooks(w, answers);
    case DoClaimCleanup(at, retentionDue, commit) => ClaimKeepsBooks(w, at, retentionDue, commit);
    case DoCleanup(i, fate) => if i < |w.cleanups| && !w.cleanups[i].over { CleanupKeepsBooks(w, i, fate); }
    case DoMark(i, commit) => if i < |w.removals| && w.removals[i].Read? { MarkKeepsBooks(w, i, commit); }
    case DoRemove(i, fate) => if i < |w.removals| && w.removals[i].Marked? { RemoveKeepsBooks(w, i, fate); }
    case DoFinalize(i, commit) => if i < |w.finalizations| { RenamedKeepsBooks(w, Step(w, a)); }
    case DoLink(commit) => RenamedKeepsBooks(w, Step(w, a));
    case DoRead(_) => ReadKeepsBooks(w, Step(w, a));
    case DoReadReady(_) => ReadKeepsBooks(w, Step(w, a));
  }

  lemma ReadKeepsBooks(w: World, after: World)
    requires Books(w) && after == w.(removals := after.removals, finalizations := after.finalizations)
    requires after.removals == w.removals || after.removals == w.removals + [Read(w.record)]
    ensures Books(after)
  {
    forall k | 0 <= k < |w.cleanups| ensures CleanupSettled(after, after.cleanups[k]) {
      assert CleanupSettled(w, w.cleanups[k]);
    }
    forall k | 0 <= k < |after.removals| ensures RemovalSettled(after, after.removals[k]) {
      if k < |w.removals| { assert RemovalSettled(w, w.removals[k]); }
    }
  }

  lemma {:induction false} RunKeepsBooks(w: World, actions: seq<Action>)
    requires Base(w) && Books(w)
    ensures Base(Execute(w, actions)) && Books(Execute(w, actions))
    decreases |actions|
  {
    if actions != [] {
      StepKeeps(w, actions[0]);
      StepKeepsBooks(w, actions[0]);
      RunKeepsBooks(Step(w, actions[0]), actions[1..]);
    }
  }

  // ---------------------------------------------------------------------------------------------
  // Nothing leaks
  // ---------------------------------------------------------------------------------------------

  /** Over every interleaving: an object in the store is named by the record, or the upload still minds it,
      or it was there before the ticket, or a failed call of the upload left it behind. */
  lemma EveryObjectIsAccountedFor(w: World, actions: seq<Action>)
    requires Issued(w)
    ensures var after := Execute(w, actions);
            forall key :: key in after.objects ==>
              Named(after.record, key) || Minds(after.upload, key) || key in after.orphans
  {
    RunKeepsBooks(w, actions);
  }

  /** Every store call and every commit of the upload is done and heard of. */
  predicate AllDone(actions: seq<Action>) {
    forall a :: a in actions && a.DoUpload? ==> a.answers.store == Done && a.answers.commit == Done
  }

  /** No call of the upload has failed: it has nothing to leave behind but what it found. */
  predicate Tidy(w: World) {
    match w.upload
    case NotStarted => w.quarantineKey in w.objects ==> w.quarantineKey in w.orphans
    case Claimed(_) => w.quarantineKey in w.objects ==> w.quarantineKey in w.orphans
    case Undoing(_, _) => false
    case Finishing(claimed, verdict) => LeftBy(claimed, verdict) <= w.orphans
    case _ => true
  }

  lemma TidyUploadStep(w: World, a: Answers)
    requires Base(w) && Tidy(w) && a.store == Done && a.commit == Done
    ensures Tidy(UploadStep(w, a)) && UploadStep(w, a).orphans == w.orphans
  {}

  lemma TidyClaim(w: World, isOwner: bool, tokenHash: string, commit: Fate)
    requires Base(w) && Tidy(w)
    ensures var after := ClaimStep(w, isOwner, tokenHash, commit);
            Tidy(after) && after.orphans == w.orphans
  {}

  lemma TidyStep(w: World, a: Action)
    requires Base(w) && Tidy(w) && (a.DoUpload? ==> a.answers.store == Done && a.answers.commit == Done)
    ensures Tidy(Step(w, a)) && Step(w, a).orphans == w.orphans
  {
    hide Base, UploadStep, ClaimStep;
    if a.DoUpload? {
      TidyUploadStep(w, a.answers);
    } else if a.DoClaimUpload? {
      TidyClaim(w, a.isOwner, a.tokenHash, a.commit);
    }
  }

  lemma {:induction false} TidyRun(w: World, actions: seq<Action>)
    requires Base(w) && Tidy(w) && AllDone(actions)
    ensures Execute(w, actions).orphans == w.orphans
    decreases |actions|
  {
    if actions != [] {
      assert actions[0] in actions;
      StepKeeps(w, actions[0]);
      TidyStep(w, actions[0]);
      TidyRun(Step(w, actions[0]), actions[1..]);
    }
  }

  /** When no call of the upload fails and the upload is over, the row names whatever was added to the
      store, however its workers and readers interleave. */
  lemma NothingLeaksWithoutFailure(w: World, actions: seq<Action>)
    requires Issued(w) && AllDone(actions)
    ensures var after := Execute(w, actions);
            after.upload == Over ==>
              forall key :: key in after.objects && key !in w.objects ==> Named(after.record, key)
  {
    TidyRun(w, actions);
    EveryObjectIsAccountedFor(w, actions);
  }
}
