/** Runs that reach the states in which the attachment protocol falls short. */
module AttachmentRuns {
  import opened Wrappers
  import opened AttachmentSteps
  import opened AttachmentProtocol
  import opened AttachmentInvariant
  import opened AttachmentTheorems

  // ---------------------------------------------------------------------------------------------
  // A run that ends with the served object deleted
  // ---------------------------------------------------------------------------------------------

  function Again(a: Action, n: nat): seq<Action> {
    if n == 0 then [] else [a] + Again(a, n - 1)
  }

  lemma Then(w: World, a: Action, rest: seq<Action>)
    ensures Execute(w, [a] + rest) == Execute(Step(w, a), rest)
  {
    assert ([a] + rest)[1..] == rest;
  }

  lemma {:induction false} UploadAgain(w: World, a: Answers, n: nat)
    requires n > 0
    ensures Execute(w, Again(DoUpload(a), n)) == Execute(UploadStep(w, a), Again(DoUpload(a), n - 1))
  {
    Then(w, DoUpload(a), Again(DoUpload(a), n - 1));
  }

  /** A world that has just issued a ticket and stores nothing yet. */
  function JustIssued(limits: Limits, now: int, ticket: Record, quarantineKey: Key): World {
    World(limits, now, ticket, map[], NotStarted, [], [], [], quarantineKey, {quarantineKey}, None, None, 0, {})
  }

  /** Everything goes well except that the answer of the last commit is lost. */
  function AllWellUntilTheCommit(o: Object, finalKey: Key): Answers {
    Answers(Some(o.size), o, true, Done, Some(ScanReport(o, None)), Allowed, finalKey, LostReply)
  }

  /** Such an upload is ready for the scan after two steps. */
  lemma ReceivesAndInspects(w: World, o: Object, finalKey: Key)
    requires w.upload == Claimed(w.record) && w.record.quarantineBlob == Some(w.quarantineKey) && w.objects == map[]
    requires w.record.expectedBytes == o.size <= w.limits.maximumBytes
    ensures var a := AllWellUntilTheCommit(o, finalKey);
            UploadStep(UploadStep(w, a), a)
            == w.(objects := map[w.quarantineKey := o], upload := BeingScanned(w.record, o))
  {}

  /** The scan and the copy take two more, clearing the quarantine a third. */
  lemma ScansAndPromotes(w: World, o: Object, finalKey: Key)
    requires w.upload == BeingScanned(w.record, o) && w.record.quarantineBlob == Some(w.quarantineKey)
    requires w.objects == map[w.quarantineKey := o] && finalKey !in w.issued && finalKey != w.quarantineKey
    ensures var a := AllWellUntilTheCommit(o, finalKey);
            UploadStep(UploadStep(UploadStep(w, a), a), a)
            == w.(objects := map[finalKey := o], upload := Finishing(w.record, Accept(finalKey, o)),
                  issued := w.issued + {finalKey}, attested := Some(o))
  {
    var a := AllWellUntilTheCommit(o, finalKey);
    var copied := UploadStep(UploadStep(w, a), a);
    assert copied.upload == Promoted(w.record, o, finalKey);
    assert copied.objects - {w.quarantineKey} == map[finalKey := o];
  }

  /** The record becomes ready, and then its object is deleted. */
  lemma PublishesAndDeletes(w: World, o: Object, finalKey: Key)
    requires w.upload == Finishing(w.record, Accept(finalKey, o))
    ensures var a := AllWellUntilTheCommit(o, finalKey);
            var after := UploadStep(UploadStep(w, a), a);
            && after.record.quarantine == Ready && after.record.blob == Some(finalKey)
            && finalKey !in after.objects
  {}

  /** For every ticket still valid: everything goes well except that the accepting commit's answer is lost,
      and after the upload's last step the record is ready and the object it names is gone. */
  lemma LostAcceptanceDeletesTheServedObject(limits: Limits, now: int, expiresAt: int, token: string,
                                             quarantineKey: Key, finalKey: Key, o: Object)
    requires now < expiresAt && o.size <= limits.maximumBytes && finalKey != quarantineKey
    ensures var w := JustIssued(limits, now, Ticket(quarantineKey, token, expiresAt, o.size), quarantineKey);
            var answers := AllWellUntilTheCommit(o, finalKey);
            var after := Execute(w, [DoClaimUpload(true, token, Done)] + Again(DoUpload(answers), 7));
            && Issued(w)
            && after.record.quarantine == Ready && after.record.blob == Some(finalKey)
            && finalKey !in after.objects && !Served(after)
  {
    var w := JustIssued(limits, now, Ticket(quarantineKey, token, expiresAt, o.size), quarantineKey);
    var a := AllWellUntilTheCommit(o, finalKey);
    Then(w, DoClaimUpload(true, token, Done), Again(DoUpload(a), 7));
    var claimed := ClaimStep(w, true, token, Done);
    SevenUploadSteps(claimed, a);
    ReceivesAndInspects(claimed, o, finalKey);
    var scanned := UploadStep(UploadStep(claimed, a), a);
    ScansAndPromotes(scanned, o, finalKey);
    PublishesAndDeletes(UploadStep(UploadStep(UploadStep(scanned, a), a), a), o, finalKey);
  }

  lemma SevenUploadSteps(w: World, a: Answers)
    ensures var scanned := UploadStep(UploadStep(w, a), a);
            var finishing := UploadStep(UploadStep(UploadStep(scanned, a), a), a);
            Execute(w, Again(DoUpload(a), 7)) == UploadStep(UploadStep(finishing, a), a)
  {
    var scanned := UploadStep(UploadStep(w, a), a);
    var finishing := UploadStep(UploadStep(UploadStep(scanned, a), a), a);
    UploadAgain(w, a, 7);
    UploadAgain(UploadStep(w, a), a, 6);
    UploadAgain(scanned, a, 5);
    UploadAgain(UploadStep(scanned, a), a, 4);
    UploadAgain(UploadStep(UploadStep(scanned, a), a), a, 3);
    UploadAgain(finishing, a, 2);
    UploadAgain(UploadStep(finishing, a), a, 1);
  }

  // ---------------------------------------------------------------------------------------------
  // A removal that strands its row
  // ---------------------------------------------------------------------------------------------

  /** Such a state is within reach: the owner removes a ready attachment, the store fails, a cleanup worker
      takes the row over once the removal's time is up, its probe fails too, and it writes that down. */
  lemma RemovalEndsStranded(w: World)
    requires Inv(w) && w.record.quarantine == Ready && Removable(w.record)
    ensures var after := Execute(w, FailingRemoval(w) + FailingCleanup(w));
            Stranded(after) && after.record.blob == w.record.blob && after.objects == w.objects
  {
    ExecuteBoth(w, FailingRemoval(w), FailingCleanup(w));
    RemovalFails(w);
    var marked := Execute(w, FailingRemoval(w));
    CleanupFails(w, marked);
    EveryoneIsStale(w, marked, Execute(marked, FailingCleanup(w)));
  }

  /** The owner's removal up to its first store call. */
  function FailingRemoval(w: World): seq<Action> {
    [DoRead(true)] + ([DoMark(|w.removals|, Done)] + [DoRemove(|w.removals|, Refused)])
  }

  /** One cleanup of the row after the removal's time is up, whose probe fails. */
  function FailingCleanup(w: World): seq<Action> {
    var ttl := w.limits.uploadProcessingTtl;
    [Tick(ttl)] + ([DoClaimCleanup(w.now + ttl, false, Done)] + ([DoCleanup(|w.cleanups|, Refused)] + [DoCleanup(|w.cleanups|, Done)]))
  }

  lemma ExecuteOne(w: World, a: Action)
    ensures Execute(w, [a]) == Step(w, a)
  {
    assert [a][1..] == [];
  }

  /** The row is marked, one more removal is over, and nothing else has changed. */
  predicate RemovalFailed(w: World, marked: World) {
    && marked == w.(record := marked.record, named := marked.named, removals := w.removals + [RemovalOver])
    && MarkDeleting(w.limits, w.record, w.record, w.now) == Some(marked.record)
  }

  lemma RemovalFails(w: World)
    requires Removable(w.record) && w.record.blob.Some?
    ensures RemovalFailed(w, Execute(w, FailingRemoval(w)))
  {
    var read := w.(removals := w.removals + [Read(w.record)]);
    RemovalStarts(w, [DoRemove(|w.removals|, Refused)]);
    MarkingFails(w, MarkStep(read, |w.removals|, Done));
  }

  lemma RemovalStarts(w: World, rest: seq<Action>)
    requires Removable(w.record)
    ensures var i := |w.removals|;
            Execute(w, [DoRead(true)] + ([DoMark(i, Done)] + rest))
            == Execute(MarkStep(w.(removals := w.removals + [Read(w.record)]), i, Done), rest)
  {
    var i := |w.removals|;
    var read := w.(removals := w.removals + [Read(w.record)]);
    Then(w, DoRead(true), [DoMark(i, Done)] + rest);
    Then(read, DoMark(i, Done), rest);
  }

  lemma MarkingFails(w: World, marked: World)
    requires Removable(w.record) && w.record.blob.Some?
    requires marked == MarkStep(w.(removals := w.removals + [Read(w.record)]), |w.removals|, Done)
    ensures RemovalFailed(w, Execute(marked, [DoRemove(|w.removals|, Refused)]))
  {
    var i := |w.removals|;
    assert marked.removals[i].Marked? && marked.removals[i].todo != [] && marked.removals[i].phase == Probe;
    ExecuteOne(marked, DoRemove(i, Refused));
    assert RemoveStep(marked, i, Refused).removals == w.removals + [RemovalOver];
  }

  /** The row waits for retention with its references, one more cleanup is over, and nothing else has changed. */
  predicate CleanupFailed(w: World, after: World) {
    && after == w.(now := after.now, record := after.record, named := after.named, cleanups := after.cleanups)
    && w.record.version < after.record.version && RetentionPending(after.record)
    && after.record.tokenHash.None? && after.record.blob == w.record.blob
    && |after.cleanups| == |w.cleanups| + 1 && after.cleanups[..|w.cleanups|] == w.cleanups && after.cleanups[|w.cleanups|].over
  }

  lemma CleanupFails(w: World, marked: World)
    requires Removable(w.record) && w.record.blob.Some? && w.record.quarantineBlob.None? && RemovalFailed(w, marked)
    ensures CleanupFailed(marked, Execute(marked, FailingCleanup(w)))
  {
    var ttl, j := w.limits.uploadProcessingTtl, |w.cleanups|;
    CleanupStarts(marked, ttl, [DoCleanup(j, Refused)] + [DoCleanup(j, Done)]);
    LateCleanupFails(w, marked, Execute(marked, FailingCleanup(w)));
  }

  lemma LateCleanupFails(w: World, marked: World, after: World)
    requires Removable(w.record) && w.record.blob.Some? && w.record.quarantineBlob.None? && RemovalFailed(w, marked)
    requires var late := marked.(now := w.now + w.limits.uploadProcessingTtl);
             var j := |w.cleanups|;
             after == Execute(ClaimCleanupStep(late, late.now, false, Done), [DoCleanup(j, Refused)] + [DoCleanup(j, Done)])
    ensures CleanupFailed(marked, after)
  {
    MarkedRow(w, marked.record);
    MarkedIsTaken(marked.(now := w.now + w.limits.uploadProcessingTtl), w.record.blob.value, after);
  }

  lemma MarkedRow(w: World, r: Record)
    requires Removable(w.record) && MarkDeleting(w.limits, w.record, w.record, w.now) == Some(r)
    ensures r.quarantine == Deleting && r.processing == ProcessingDeleting && r.tokenHash.None?
    ensures !r.linked && r.deletedAt.None? && r.processingExpiresAt == Some(w.now + w.limits.uploadProcessingTtl)
    ensures r.blob == w.record.blob && r.quarantineBlob == w.record.quarantineBlob
  {}

  lemma MarkedIsTaken(w: World, key: Key, after: World)
    requires w.record.quarantine == Deleting && w.record.processing == ProcessingDeleting && w.record.tokenHash.None?
    requires !w.record.linked && w.record.deletedAt.None? && Passed(w.record.processingExpiresAt, w.now)
    requires w.record.blob == Some(key) && w.record.quarantineBlob.None?
    requires var j := |w.cleanups|;
             after == Execute(ClaimCleanupStep(w, w.now, false, Done), [DoCleanup(j, Refused)] + [DoCleanup(j, Done)])
    ensures CleanupFailed(w, after)
  {
    TakesOver(w, key);
    TakenFails(w, ClaimCleanupStep(w, w.now, false, Done));
  }

  lemma CleanupStarts(w: World, ttl: nat, rest: seq<Action>)
    ensures var late := w.(now := w.now + ttl);
            Execute(w, [Tick(ttl)] + ([DoClaimCleanup(late.now, false, Done)] + rest))
            == Execute(ClaimCleanupStep(late, late.now, false, Done), rest)
  {
    var late := w.(now := w.now + ttl);
    Then(w, Tick(ttl), [DoClaimCleanup(late.now, false, Done)] + rest);
    Then(late, DoClaimCleanup(late.now, false, Done), rest);
  }

  /** A cleanup worker takes over the row whose removal's time is up. */
  lemma TakesOver(w: World, key: Key)
    requires w.record.quarantine == Deleting && w.record.processing == ProcessingDeleting && w.record.tokenHash.None?
    requires !w.record.linked && w.record.deletedAt.None? && Passed(w.record.processingExpiresAt, w.now)
    requires w.record.blob == Some(key) && w.record.quarantineBlob.None?
    ensures var taken := ClaimCleanupStep(w, w.now, false, Done);
            && taken == w.(record := taken.record, named := taken.named, cleanups := taken.cleanups)
            && taken.cleanups == w.cleanups + [Cleanup(taken.record, w.now, [key], Probe, true, false)]
            && w.record.version < taken.record.version && taken.record.cleanupGeneration.Some?
            && taken.record.quarantine == Deleting && taken.record.tokenHash.None? && taken.record.blob == Some(key)
  {
    var taken := ClaimCleanupStep(w, w.now, false, Done);
    assert Keys(taken.record) == [key];
  }

  lemma ProbeRefused(w: World, j: nat)
    requires j < |w.cleanups| && !w.cleanups[j].over && |w.cleanups[j].todo| == 1 && w.cleanups[j].phase == Probe
    ensures CleanupStep(w, j, Refused)
            == w.(cleanups := w.cleanups[j := w.cleanups[j].(todo := [], allDeleted := false)])
  {
    assert w.cleanups[j].todo[1..] == [];
  }

  lemma TakenFails(w: World, taken: World)
    requires taken == w.(record := taken.record, named := taken.named, cleanups := taken.cleanups)
    requires |taken.cleanups| == |w.cleanups| + 1 && taken.cleanups[..|w.cleanups|] == w.cleanups
    requires taken.cleanups[|w.cleanups|].claimed == taken.record && !taken.cleanups[|w.cleanups|].over
    requires |taken.cleanups[|w.cleanups|].todo| == 1 && taken.cleanups[|w.cleanups|].phase == Probe
    requires w.record.version < taken.record.version && taken.record.cleanupGeneration.Some?
    requires taken.record.quarantine == Deleting && taken.record.tokenHash.None? && taken.record.blob == w.record.blob
    ensures var j := |w.cleanups|; CleanupFailed(w, Execute(taken, [DoCleanup(j, Refused)] + [DoCleanup(j, Done)]))
  {
    var j := |w.cleanups|;
    var probed := CleanupStep(taken, j, Refused);
    hide UploadStep, MarkStep, RemoveStep, ClaimStep, ClaimCleanupStep, AdvanceCleanup;
    ProbeRefused(taken, j);
    Then(taken, DoCleanup(j, Refused), [DoCleanup(j, Done)]);
    ExecuteOne(probed, DoCleanup(j, Done));
    assert probed.cleanups[j].claimed == probed.record && probed.record == taken.record;
  }

  /** Whoever held a copy of the row before holds a stale one after it has moved. */
  lemma EveryoneIsStale(w: World, marked: World, after: World)
    requires Base(w) && RemovalFailed(w, marked) && CleanupFailed(marked, after)
    ensures Stranded(after)
  {
    forall i | 0 <= i < |after.cleanups|
      ensures after.cleanups[i].over || after.cleanups[i].claimed.version < after.record.version
    {
      if i < |w.cleanups| { assert after.cleanups[i] == w.cleanups[i] && CleanupOk(w, w.cleanups[i]); }
    }
    forall i | 0 <= i < |after.removals| && after.removals[i].Marked?
      ensures after.removals[i].marked.version < after.record.version
    {
      assert after.removals[i] == w.removals[i] && RemovalOk(w, w.removals[i]);
    }
  }
}
