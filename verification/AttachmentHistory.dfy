/** How a served record came about: over any run, step by step back to the octets that were received. */
module AttachmentHistory {
  import opened Wrappers
  import opened AttachmentSteps
  import opened AttachmentProtocol
  import opened AttachmentInvariant
  import opened AttachmentTheorems
  import Steps = AttachmentSteps

  // ---------------------------------------------------------------------------------------------
  // The steps of an upload that goes through
  // ---------------------------------------------------------------------------------------------

  /** The store keeps the body, whose announced size, if any, is the one the ticket was issued for. */
  predicate Receives(w: World, a: Action, o: Object) {
    && w.upload.Claimed? && a.DoUpload? && a.answers.store == Done && a.answers.body == o
    && (a.answers.sizeHint.Some? ==> a.answers.sizeHint.value == w.upload.claimed.expectedBytes)
  }

  /** Size and checksum are as they must be, and the object can be read back. */
  predicate Inspects(w: World, a: Action, o: Object) {
    && w.upload.Stored? && w.upload.outcome == o && a.DoUpload? && a.answers.store == Done && a.answers.validSha
    && o.size == w.upload.claimed.expectedBytes && o.size <= w.limits.maximumBytes
  }

  /** The scanner saw exactly this object and found nothing, and the host accepts it. */
  predicate Scans(w: World, a: Action, o: Object) {
    && w.upload.BeingScanned? && w.upload.outcome == o && a.DoUpload?
    && a.answers.scan == Some(ScanReport(o, None)) && a.answers.decision == Allowed
  }

  predicate Copies(w: World, a: Action, o: Object, key: Key) {
    && w.upload.Cleared? && w.upload.outcome == o && a.DoUpload? && a.answers.store == Done
    && a.answers.finalKey == key && key !in w.issued
  }

  predicate Clears(w: World, a: Action, o: Object, key: Key) {
    w.upload.Promoted? && w.upload.outcome == o && w.upload.finalKey == key && a.DoUpload? && a.answers.store == Done
  }

  predicate Publishes(w: World, a: Action, o: Object, key: Key) {
    && w.upload.Finishing? && w.upload.verdict == Accept(key, o) && a.DoUpload? && a.answers.commit != Refused
    && w.upload.claimed.version == w.record.version
  }

  /** What a step makes of the upload: it stays, or one of these steps has brought it there. */
  lemma UploadMoves(w: World, a: Action)
    ensures var before, after := w.upload, Step(w, a).upload;
            && (after.Stored? && after != before ==> Receives(w, a, after.outcome))
            && (after.BeingScanned? && after != before ==> Inspects(w, a, after.outcome))
            && (after.Cleared? && after != before ==> Scans(w, a, after.outcome))
            && (after.Promoted? && after != before ==> Copies(w, a, after.outcome, after.finalKey))
            && (after.Finishing? && after.verdict.Accept? && after != before ==>
                  Clears(w, a, after.verdict.outcome, after.verdict.finalKey))
  {
    if a.DoUpload? {
      UploadStepMoves(w, a.answers);
    }
  }

  lemma UploadStepMoves(w: World, answers: Answers)
    ensures var before, after, a := w.upload, UploadStep(w, answers).upload, DoUpload(answers);
            && (after.Stored? && after != before ==> Receives(w, a, after.outcome))
            && (after.BeingScanned? && after != before ==> Inspects(w, a, after.outcome))
            && (after.Cleared? && after != before ==> Scans(w, a, after.outcome))
            && (after.Promoted? && after != before ==> Copies(w, a, after.outcome, after.finalKey))
            && (after.Finishing? && after.verdict.Accept? && after != before ==>
                  Clears(w, a, after.verdict.outcome, after.verdict.finalKey))
  {
    match w.upload
    case Claimed(claimed) => ReceiveMoves(w, claimed, answers);
    case Stored(_, _) => InspectMoves(w, answers);
    case BeingScanned(_, _) => ScanMoves(w, answers);
    case Cleared(_, _) =>
    case Promoted(_, _, _) =>
    case _ => OtherwiseMoves(w, answers);
  }

  lemma ReceiveMoves(w: World, claimed: Record, answers: Answers)
    requires w.upload == Claimed(claimed)
    ensures var after := ReceiveStep(w, claimed, answers).upload;
            && (after.Stored? ==> Receives(w, DoUpload(answers), after.outcome))
            && !after.BeingScanned? && !after.Cleared? && !after.Promoted?
            && (after.Finishing? ==> !after.verdict.Accept?)
  {}

  lemma InspectMoves(w: World, answers: Answers)
    requires w.upload.Stored?
    ensures var after := UploadStep(w, answers).upload;
            && (after.BeingScanned? ==> Inspects(w, DoUpload(answers), after.outcome))
            && (after.BeingScanned? || after.Discarding?)
  {}

  lemma ScanMoves(w: World, answers: Answers)
    requires w.upload.BeingScanned?
    ensures var after := UploadStep(w, answers).upload;
            && (after.Cleared? ==> Scans(w, DoUpload(answers), after.outcome))
            && (after.Cleared? || after.Discarding?)
  {}

  lemma OtherwiseMoves(w: World, answers: Answers)
    requires !w.upload.Claimed? && !w.upload.Stored? && !w.upload.BeingScanned? && !w.upload.Cleared? && !w.upload.Promoted?
    ensures var before, after := w.upload, UploadStep(w, answers).upload;
            && !after.Stored? && !after.BeingScanned? && !after.Cleared? && !after.Promoted?
            && (after.Finishing? && after.verdict.Accept? ==> after == before)
  {}

  /** What a record serves. */
  predicate Serves(r: Record, o: Object, key: Key) {
    IsServed(r) && r.byteCount == Some(o.size) && r.sha == Some(o.sha) && r.blob == Some(key)
  }

  /** A record that serves something served the same before, or has just been published. */
  lemma ServingStarts(w: World, a: Action)
    requires Base(w) && IsServed(Step(w, a).record)
    ensures (exists o, key :: Serves(Step(w, a).record, o, key) && (Serves(w.record, o, key) || Publishes(w, a, o, key)))
  {
    var after := Step(w, a).record;
    StepKeeps(w, a);
    var o, key := Object(after.byteCount.value, after.sha.value), after.blob.value;
    if a.DoUpload? {
      PublishedOrSame(w, a.answers);
    } else {
      ServedBefore(w, a);
    }
    assert Serves(after, o, key);
  }

  lemma PublishedOrSame(w: World, a: Answers)
    requires Base(w) && IsServed(UploadStep(w, a).record)
    ensures var r := UploadStep(w, a).record;
            || r == w.record
            || (w.upload.Finishing? && w.upload.verdict.Accept? && Publishes(w, DoUpload(a), w.upload.verdict.outcome, w.upload.verdict.finalKey)
                && Serves(r, w.upload.verdict.outcome, w.upload.verdict.finalKey))
  {
    if w.upload.Finishing? {
      assert Snapshot(w, w.upload.claimed);
    }
  }

  lemma ServedBefore(w: World, a: Action)
    requires Base(w) && !a.DoUpload? && IsServed(Step(w, a).record)
    ensures ServesAsBefore(w.record, Step(w, a).record)
  {
    if a.DoFinalize? {
      if a.i < |w.finalizations| {
        FinalizedAsBefore(w, w.finalizations[a.i], a.commit);
      }
    } else if a.DoCleanup? {
      if a.i < |w.cleanups| && !w.cleanups[a.i].over {
        assert CleanupOk(w, w.cleanups[a.i]);
        CleanedAsBefore(w, w.cleanups[a.i], a.fate);
      }
    } else {
      OthersAsBefore(w, a);
    }
  }

  predicate ServesAsBefore(before: Record, after: Record) {
    IsServed(before) && after.byteCount == before.byteCount && after.sha == before.sha && after.blob == before.blob
  }

  lemma FinalizedAsBefore(w: World, seen: Record, commit: Fate)
    requires Snapshot(w, seen)
    ensures var r := Commit(w, Finalize(w.record, seen, w.now), commit).record;
            IsServed(r) ==> ServesAsBefore(w.record, r)
  {}

  lemma CleanedAsBefore(w: World, c: Cleanup, fate: Fate)
    requires RecordOk(w) && CleanupOk(w, c) && !c.over
    requires IsServed(w.record) ==> c.claimed.blob.None?
    ensures var r := Commit(w, Steps.FinishCleanup(w.record, c.claimed, c.allDeleted, c.at), fate).record;
            IsServed(r) ==> ServesAsBefore(w.record, r)
  {}

  lemma OthersAsBefore(w: World, a: Action)
    requires !a.DoUpload? && !a.DoFinalize? && !a.DoCleanup?
    ensures var r := Step(w, a).record;
            IsServed(r) ==> ServesAsBefore(w.record, r)
  {}

  // ---------------------------------------------------------------------------------------------
  // Whole runs
  // ---------------------------------------------------------------------------------------------

  function At(w: World, actions: seq<Action>, n: nat): World
    requires n <= |actions|
  {
    Execute(w, actions[..n])
  }

  lemma NextAt(w: World, actions: seq<Action>, n: nat)
    requires n < |actions|
    ensures At(w, actions, n + 1) == Step(At(w, actions, n), actions[n])
  {
    assert actions[..n + 1] == actions[..n] + [actions[n]];
    ExecuteBoth(w, actions[..n], [actions[n]]);
    assert [actions[n]][1..] == [];
  }

  /** Among the first `n` steps the object was received, ... */
  ghost predicate WasReceived(w: World, actions: seq<Action>, n: nat, o: Object)
    requires n <= |actions|
  {
    exists i :: 0 <= i < n && Receives(At(w, actions, i), actions[i], o)
  }

  /** ... after that inspected, ... */
  ghost predicate WasInspected(w: World, actions: seq<Action>, n: nat, o: Object)
    requires n <= |actions|
  {
    exists i :: 0 <= i < n && Inspects(At(w, actions, i), actions[i], o) && WasReceived(w, actions, i, o)
  }

  /** ... after that passed by scanner and host, ... */
  ghost predicate WasScanned(w: World, actions: seq<Action>, n: nat, o: Object)
    requires n <= |actions|
  {
    exists i :: 0 <= i < n && Scans(At(w, actions, i), actions[i], o) && WasInspected(w, actions, i, o)
  }

  /** ... after that copied to its final key, ... */
  ghost predicate WasCopied(w: World, actions: seq<Action>, n: nat, o: Object, key: Key)
    requires n <= |actions|
  {
    exists i :: 0 <= i < n && Copies(At(w, actions, i), actions[i], o, key) && WasScanned(w, actions, i, o)
  }

  /** ... after that taken out of quarantine, ... */
  ghost predicate WasCleared(w: World, actions: seq<Action>, n: nat, o: Object, key: Key)
    requires n <= |actions|
  {
    exists i :: 0 <= i < n && Clears(At(w, actions, i), actions[i], o, key) && WasCopied(w, actions, i, o, key)
  }

  /** ... and last of all published under that key. */
  ghost predicate WasPublished(w: World, actions: seq<Action>, n: nat, o: Object, key: Key)
    requires n <= |actions|
  {
    exists i :: 0 <= i < n && Publishes(At(w, actions, i), actions[i], o, key) && WasCleared(w, actions, i, o, key)
  }

  /** The upload stands where the steps behind it have brought it. */
  ghost predicate UploadTraced(w: World, actions: seq<Action>, n: nat)
    requires n <= |actions|
  {
    match At(w, actions, n).upload
    case Stored(_, o) => WasReceived(w, actions, n, o)
    case BeingScanned(_, o) => WasInspected(w, actions, n, o)
    case Cleared(_, o) => WasScanned(w, actions, n, o)
    case Promoted(_, o, key) => WasCopied(w, actions, n, o, key)
    case Finishing(_, verdict) => verdict.Accept? ==> WasCleared(w, actions, n, verdict.outcome, verdict.finalKey)
    case _ => true
  }

  ghost predicate RecordTraced(w: World, actions: seq<Action>, n: nat)
    requires n <= |actions|
  {
    forall o, key :: Serves(At(w, actions, n).record, o, key) ==> WasPublished(w, actions, n, o, key)
  }

  lemma UploadTracedNext(w: World, actions: seq<Action>, n: nat)
    requires n < |actions| && Base(At(w, actions, n)) && UploadTraced(w, actions, n)
    ensures UploadTraced(w, actions, n + 1)
  {
    NextAt(w, actions, n);
    UploadMoves(At(w, actions, n), actions[n]);
  }

  lemma RecordTracedNext(w: World, actions: seq<Action>, n: nat)
    requires n < |actions| && Base(At(w, actions, n)) && UploadTraced(w, actions, n) && RecordTraced(w, actions, n)
    ensures RecordTraced(w, actions, n + 1)
  {
    NextAt(w, actions, n);
    var next := At(w, actions, n + 1).record;
    forall o, key | Serves(next, o, key) ensures WasPublished(w, actions, n + 1, o, key) {
      ServingStarts(At(w, actions, n), actions[n]);
    }
  }

  lemma {:induction false} RunTraced(w: World, actions: seq<Action>, n: nat)
    requires Issued(w) && n <= |actions|
    ensures Base(At(w, actions, n)) && UploadTraced(w, actions, n) && RecordTraced(w, actions, n)
  {
    RunKeeps(w, actions[..n]);
    if n == 0 {
      assert actions[..0] == [];
    } else {
      RunTraced(w, actions, n - 1);
      UploadTracedNext(w, actions, n - 1);
      RecordTracedNext(w, actions, n - 1);
    }
  }

  /** Over every interleaving, without exception: what a ready or released record describes was received,
      inspected, seen by the scanner without a finding and accepted by the host, copied, taken out of
      quarantine and published, in this order. */
  lemma ServedWasVouchedFor(w: World, actions: seq<Action>)
    requires Issued(w) && IsServed(Execute(w, actions).record)
    ensures var r := Execute(w, actions).record;
            && r.byteCount.Some? && r.sha.Some? && r.blob.Some?
            && WasPublished(w, actions, |actions|, Object(r.byteCount.value, r.sha.value), r.blob.value)
  {
    assert actions[..|actions|] == actions;
    RunTraced(w, actions, |actions|);
    var r := Execute(w, actions).record;
    assert Serves(r, Object(r.byteCount.value, r.sha.value), r.blob.value);
  }

  /** In particular a finding of the scanner, or a host that does not accept, is never published. */
  lemma FindingsAreNeverPublished(w: World, actions: seq<Action>)
    requires Issued(w) && IsServed(Execute(w, actions).record)
    ensures var r := Execute(w, actions).record;
            && r.byteCount.Some? && r.sha.Some?
            && var o := Object(r.byteCount.value, r.sha.value);
               exists i :: 0 <= i < |actions| && actions[i].DoUpload?
                           && actions[i].answers.scan == Some(ScanReport(o, None)) && actions[i].answers.decision == Allowed
  {
    ServedWasVouchedFor(w, actions);
    var r := Execute(w, actions).record;
    var i := PassedBeforePublishing(w, actions, |actions|, Object(r.byteCount.value, r.sha.value), r.blob.value);
  }

  lemma PassedBeforePublishing(w: World, actions: seq<Action>, n: nat, o: Object, key: Key) returns (i: nat)
    requires n <= |actions| && WasPublished(w, actions, n, o, key)
    ensures i < n && actions[i].DoUpload?
    ensures actions[i].answers.scan == Some(ScanReport(o, None)) && actions[i].answers.decision == Allowed
  {
    hide Execute;
    var published :| 0 <= published < n && Publishes(At(w, actions, published), actions[published], o, key)
                     && WasCleared(w, actions, published, o, key);
    var cleared :| 0 <= cleared < published && Clears(At(w, actions, cleared), actions[cleared], o, key)
                   && WasCopied(w, actions, cleared, o, key);
    var copied :| 0 <= copied < cleared && Copies(At(w, actions, copied), actions[copied], o, key)
                  && WasScanned(w, actions, copied, o);
    i :| 0 <= i < copied && Scans(At(w, actions, i), actions[i], o);
  }
}
