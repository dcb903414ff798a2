/** One cleanup pass over many attachments, as values: claim, delete, write down, count. */
module AttachmentCleaning {
  import opened Wrappers
  import opened AttachmentSteps
  import opened AttachmentProtocol
  import opened AttachmentOutcomes
  import Steps = AttachmentSteps

  type AttachmentId = nat

  /** The answers of the three store calls behind one confirmed deletion. */
  datatype Deletion = Deletion(probe: Fate, delete: Fate, confirm: Fate)

  /** What the outside answers while one candidate is being cleaned up. */
  datatype CandidateAnswers = CandidateAnswers(
    retentionDue: bool, claimCommit: Fate, blob: Deletion, quarantine: Deletion, finishCommit: Fate)

  datatype CandidateOutcome = WasDeferred | WasCleaned | WasFailed

  datatype CleanupReport = CleanupReport(examined: nat, deferred: nat, cleaned: nat, failed: nat)

  /** The rows and the blob store. */
  datatype Shelf = Shelf(records: map<AttachmentId, Record>, objects: map<Key, Object>)

  // ---------------------------------------------------------------------------------------------
  // Deletions
  // ---------------------------------------------------------------------------------------------

  /** Absence was observed: at once, or after a deletion that took effect. */
  predicate Absent(objects: map<Key, Object>, key: Key, d: Deletion) {
    d.probe == Done && (key in objects ==> d.delete != Refused && d.confirm == Done)
  }

  function Purged(objects: map<Key, Object>, key: Key, d: Deletion): (after: map<Key, Object>)
    ensures Absent(objects, key, d) ==> key !in after
  {
    if d.probe == Done && key in objects && d.delete != Refused then objects - {key} else objects
  }

  /** The final object first. */
  function WithoutFinal(objects: map<Key, Object>, r: Record, a: CandidateAnswers): map<Key, Object> {
    if r.blob.Some? then Purged(objects, r.blob.value, a.blob) else objects
  }

  function WithoutNamed(objects: map<Key, Object>, r: Record, a: CandidateAnswers): map<Key, Object> {
    var rest := WithoutFinal(objects, r, a);
    if r.quarantineBlob.Some? then Purged(rest, r.quarantineBlob.value, a.quarantine) else rest
  }

  predicate AllAbsent(objects: map<Key, Object>, r: Record, a: CandidateAnswers) {
    && (r.blob.Some? ==> Absent(objects, r.blob.value, a.blob))
    && (r.quarantineBlob.Some? ==> Absent(WithoutFinal(objects, r, a), r.quarantineBlob.value, a.quarantine))
  }

  /** The protocol's cleanup worker makes these three calls, one step each, when nobody comes between. */
  lemma DeletionTakesThreeCalls(objects: map<Key, Object>, c: Cleanup, d: Deletion)
    requires c.todo != [] && c.phase == Probe
    ensures var (objects1, c1) := AdvanceCleanup(objects, c, d.probe);
            var done := c.(todo := c.todo[1..], allDeleted := c.allDeleted && Absent(objects, c.todo[0], d));
            if d.probe == Done && c.todo[0] in objects then
              && objects1 == objects && c1.todo == c.todo
              && var (objects2, c2) := AdvanceCleanup(objects1, c1, d.delete);
                 c2.todo == c.todo && AdvanceCleanup(objects2, c2, d.confirm) == (Purged(objects, c.todo[0], d), done)
            else (objects1, c1) == (Purged(objects, c.todo[0], d), done)
  {}

  /** A removal asks and deletes once, and any error ends it: what is left, and whether it goes on. */
  function Removed(objects: map<Key, Object>, key: Key, probe: Fate, delete: Fate): map<Key, Object> {
    if probe == Done && key in objects && delete != Refused then objects - {key} else objects
  }

  predicate Gone(objects: map<Key, Object>, key: Key, probe: Fate, delete: Fate) {
    probe == Done && (key in objects ==> delete == Done)
  }

  lemma RemovalTakesTwoCalls(w: World, i: nat, probe: Fate, delete: Fate)
    requires i < |w.removals| && w.removals[i].Marked? && w.removals[i].todo != [] && w.removals[i].phase == Probe
    ensures var r, first := w.removals[i], RemoveStep(w, i, probe);
            var key, rest := r.todo[0], r.(todo := r.todo[1..]);
            var after := if Gone(w.objects, key, probe, delete) then rest else RemovalOver;
            if probe == Done && key in w.objects then
              && first.objects == w.objects && first.removals[i].Marked? && first.removals[i].todo == r.todo
              && RemoveStep(first, i, delete).objects == Removed(w.objects, key, probe, delete)
              && RemoveStep(first, i, delete).removals[i] == after
            else first.objects == w.objects && first.removals[i] == after
  {}

  // ---------------------------------------------------------------------------------------------
  // Candidates
  // ---------------------------------------------------------------------------------------------

  /** One candidate; no outcome when the database fails. */
  function CleanOne(limits: Limits, s: Shelf, id: AttachmentId, now: int, a: CandidateAnswers):
    (Shelf, Option<CandidateOutcome>)
  {
    if id !in s.records then (s, Some(WasDeferred))
    else
      var update := Steps.ClaimCleanup(limits, s.records[id], now, a.retentionDue);
      if update.None? then (s, Some(WasDeferred))
      else if a.claimCommit == Refused then (s, None)
      else
        var claimed := s.(records := s.records[id := update.value]);
        if a.claimCommit != Done then (claimed, None)
        else
          var absent := AllAbsent(s.objects, update.value, a);
          var emptied := claimed.(objects := WithoutNamed(s.objects, update.value, a));
          var finish := Steps.FinishCleanup(update.value, update.value, absent, now);
          if finish.None? || a.finishCommit == Refused then (emptied, None)
          else
            (emptied.(records := emptied.records[id := finish.value]),
             if a.finishCommit != Done then None else Some(if absent then WasCleaned else WasFailed))
  }

  function Counted(report: CleanupReport, outcome: CandidateOutcome): CleanupReport {
    match outcome
    case WasDeferred => report.(examined := report.examined + 1, deferred := report.deferred + 1)
    case WasCleaned => report.(examined := report.examined + 1, cleaned := report.cleaned + 1)
    case WasFailed => report.(examined := report.examined + 1, failed := report.failed + 1)
  }

  /** The candidates before `n`, one after the other. */
  function CleanFirst(
      limits: Limits, s: Shelf, candidates: seq<AttachmentId>, now: int, script: nat -> CandidateAnswers, n: nat):
    (Shelf, Option<CleanupReport>)
    requires n <= |candidates|
  {
    if n == 0 then (s, Some(CleanupReport(0, 0, 0, 0)))
    else
      var (before, report) := CleanFirst(limits, s, candidates, now, script, n - 1);
      if report.None? then (before, None)
      else
        var (after, outcome) := CleanOne(limits, before, candidates[n - 1], now, script(n - 1));
        (after, if outcome.None? then None else Some(Counted(report.value, outcome.value)))
  }

  /** A pass that broke off stays where it was. */
  lemma {:induction false} BrokenPassStays(limits: Limits, s: Shelf, candidates: seq<AttachmentId>, now: int,
                                           script: nat -> CandidateAnswers, n: nat, m: nat)
    requires n <= m <= |candidates| && CleanFirst(limits, s, candidates, now, script, n).1.None?
    ensures CleanFirst(limits, s, candidates, now, script, m) == CleanFirst(limits, s, candidates, now, script, n)
    decreases m
  {
    if n < m { BrokenPassStays(limits, s, candidates, now, script, n, m - 1); }
  }

  // ---------------------------------------------------------------------------------------------
  // Nothing else is touched
  // ---------------------------------------------------------------------------------------------

  /** Only candidates' rows change, none gains a key, and every key that disappears is one they named. */
  ghost predicate OnlyNamed(candidates: seq<AttachmentId>, before: map<AttachmentId, Record>, had: map<Key, Object>,
                            after: map<AttachmentId, Record>, has: map<Key, Object>)
  {
    && after.Keys == before.Keys
    && (forall id :: id in before && id !in candidates ==> after[id] == before[id])
    && (forall id, k :: id in before && k in Keys(after[id]) ==> k in Keys(before[id]))
    && (forall k :: k in has ==> k in had && has[k] == had[k])
    && (forall k :: k in had && k !in has ==> NamedBy(candidates, before, k))
  }

  ghost predicate NamedBy(candidates: seq<AttachmentId>, records: map<AttachmentId, Record>, k: Key) {
    exists id :: id in candidates && id in records && k in Keys(records[id])
  }

  lemma OnlyNamedCompose(candidates: seq<AttachmentId>, i: nat,
                         r0: map<AttachmentId, Record>, o0: map<Key, Object>,
                         r1: map<AttachmentId, Record>, o1: map<Key, Object>,
                         r2: map<AttachmentId, Record>, o2: map<Key, Object>)
    requires i < |candidates| && OnlyNamed(candidates, r0, o0, r1, o1) && OnlyNamed([candidates[i]], r1, o1, r2, o2)
    ensures OnlyNamed(candidates, r0, o0, r2, o2)
  {
    forall k | k in o0 && k !in o2 ensures NamedBy(candidates, r0, k) {
      if k in o1 {
        assert NamedBy([candidates[i]], r1, k);
        assert candidates[i] in candidates && k in Keys(r0[candidates[i]]);
      }
    }
  }

  /** The claim is the row itself, so its verdict is always written. */
  lemma CanBeFinished(claimed: Record, storageDeleted: bool, now: int)
    requires claimed.cleanupGeneration.Some?
    ensures Steps.FinishCleanup(claimed, claimed, storageDeleted, now).Some?
  {}

  lemma ClaimKeepsKeys(limits: Limits, r: Record, now: int, due: bool)
    ensures var update := Steps.ClaimCleanup(limits, r, now, due);
            update.Some? ==> Keys(update.value) == Keys(r) && update.value.cleanupGeneration.Some?
  {}

  lemma FinishKeepsOrDropsKeys(r: Record, claimed: Record, storageDeleted: bool, now: int)
    ensures var update := Steps.FinishCleanup(r, claimed, storageDeleted, now);
            update.Some? ==>
              if storageDeleted then Keys(update.value) == []
              else Keys(update.value) == Keys(r) && update.value.processing == CleanupBackoff
  {}

  lemma CandidateTouchesNamed(limits: Limits, s: Shelf, id: AttachmentId, now: int, a: CandidateAnswers)
    ensures var (after, outcome) := CleanOne(limits, s, id, now, a);
            && OnlyNamed([id], s.records, s.objects, after.records, after.objects)
            && (outcome == Some(WasCleaned) ==>
                  && id in s.records && Keys(after.records[id]) == []
                  && forall k :: k in Keys(s.records[id]) ==> k !in after.objects)
            && (outcome == Some(WasFailed) ==>
                  && id in s.records && Keys(after.records[id]) == Keys(s.records[id])
                  && after.records[id].processing == CleanupBackoff)
  {
    hide WithoutNamed, AllAbsent, Steps.ClaimCleanup, Steps.FinishCleanup, Keys;
    if id in s.records && Steps.ClaimCleanup(limits, s.records[id], now, a.retentionDue).Some? {
      var claimed := Steps.ClaimCleanup(limits, s.records[id], now, a.retentionDue).value;
      ClaimKeepsKeys(limits, s.records[id], now, a.retentionDue);
      FinishKeepsOrDropsKeys(claimed, claimed, AllAbsent(s.objects, claimed, a), now);
      CanBeFinished(claimed, AllAbsent(s.objects, claimed, a), now);
      OnlyNamedKeysGo(s.objects, claimed, a);
      var after := CleanOne(limits, s, id, now, a).0;
      assert id in [id];
      assert forall k :: k in s.objects && k !in after.objects ==> NamedBy([id], s.records, k);
    }
  }

  lemma OnlyNamedKeysGo(objects: map<Key, Object>, r: Record, a: CandidateAnswers)
    ensures var after := WithoutNamed(objects, r, a);
            && (forall k :: k in after ==> k in objects && after[k] == objects[k])
            && (forall k :: k in objects && k !in after ==> k in Keys(r))
            && (AllAbsent(objects, r, a) ==> forall k :: k in Keys(r) ==> k !in after)
  {}

  lemma {:induction false} PassTouchesNamed(limits: Limits, s: Shelf, candidates: seq<AttachmentId>, now: int,
                                            script: nat -> CandidateAnswers, n: nat)
    requires n <= |candidates|
    ensures var (after, report) := CleanFirst(limits, s, candidates, now, script, n);
            && OnlyNamed(candidates, s.records, s.objects, after.records, after.objects)
            && (report.Some? ==>
                  && report.value.examined == n
                  && report.value.deferred + report.value.cleaned + report.value.failed == n)
  {
    if n > 0 {
      hide OnlyNamed, CleanOne;
      PassTouchesNamed(limits, s, candidates, now, script, n - 1);
      var (before, report) := CleanFirst(limits, s, candidates, now, script, n - 1);
      if report.Some? {
        var after := CleanOne(limits, before, candidates[n - 1], now, script(n - 1)).0;
        CandidateTouchesNamed(limits, before, candidates[n - 1], now, script(n - 1));
        OnlyNamedCompose(candidates, n - 1, s.records, s.objects, before.records, before.objects, after.records, after.objects);
      }
    }
  }

  // ---------------------------------------------------------------------------------------------
  // What a pass comes to
  // ---------------------------------------------------------------------------------------------

  /** A row a worker may take now. */
  predicate Takeable(r: Record, now: int, due: bool) { IsCleanupEligible(r, now) && (AwaitsRetention(r) ==> due) }

  /** The row no longer names anything, and what it named is gone. */
  predicate IsClean(before: Record, s: Shelf, id: AttachmentId) {
    id in s.records && Keys(s.records[id]) == [] && s.records[id].processing == Complete
    && forall key :: key in Keys(before) ==> key !in s.objects
  }

  /** A candidate that may be taken is cleaned exactly when the absence of all its objects is observed, and
      keeps its references for a later attempt otherwise; one that may not be taken is left alone. */
  lemma CandidateOutcomeExactly(limits: Limits, s: Shelf, id: AttachmentId, now: int, a: CandidateAnswers)
    requires id in s.records
    ensures var (after, outcome) := CleanOne(limits, s, id, now, a);
            && after.records.Keys == s.records.Keys && after.records - {id} == s.records - {id}
            && (!Takeable(s.records[id], now, a.retentionDue) ==> after == s && outcome == Some(WasDeferred))
            && (Takeable(s.records[id], now, a.retentionDue) ==>
                  && (outcome.Some? <==> a.claimCommit == Done && a.finishCommit == Done)
                  && (outcome.Some? ==>
                        && after.objects == WithoutNamed(s.objects, s.records[id], a)
                        && (if AllAbsent(s.objects, s.records[id], a)
                            then outcome == Some(WasCleaned) && IsClean(s.records[id], after, id)
                            else outcome == Some(WasFailed) && Keys(after.records[id]) == Keys(s.records[id])
                                 && after.records[id].processing == CleanupBackoff)))
  {
    var r := s.records[id];
    ClaimCleanupOutcome(limits, r, now, a.retentionDue);
    var update := Steps.ClaimCleanup(limits, r, now, a.retentionDue);
    if update.Some? {
      CleanedOutcome(update.value, now);
      BackoffOutcome(update.value, now);
    }
  }

  predicate AllAnswered(script: nat -> CandidateAnswers, n: nat) {
    forall i :: 0 <= i < n ==>
      var a := script(i);
      a.claimCommit == Done && a.finishCommit == Done
      && a.blob == Deletion(Done, Done, Done) && a.quarantine == Deletion(Done, Done, Done)
  }

  predicate Distinct(ids: seq<AttachmentId>) {
    forall i, j :: 0 <= i < j < |ids| ==> ids[i] != ids[j]
  }

  /** How many of the candidates before `n` may be taken. */
  function TakeableBefore(
      records: map<AttachmentId, Record>, candidates: seq<AttachmentId>, now: int, script: nat -> CandidateAnswers, n: nat): nat
    requires n <= |candidates|
  {
    if n == 0 then 0
    else
      TakeableBefore(records, candidates, now, script, n - 1)
      + if candidates[n - 1] in records && Takeable(records[candidates[n - 1]], now, script(n - 1).retentionDue) then 1 else 0
  }

  /** The candidate is cleaned if it may be taken, and else as it was. */
  predicate Handled(s: Shelf, after: Shelf, id: AttachmentId, now: int, due: bool) {
    id in s.records ==>
      if Takeable(s.records[id], now, due) then IsClean(s.records[id], after, id)
      else id in after.records && after.records[id] == s.records[id]
  }

  predicate AllHandled(
      s: Shelf, after: Shelf, candidates: seq<AttachmentId>, now: int, script: nat -> CandidateAnswers, n: nat)
    requires n <= |candidates|
  {
    && after.records.Keys == s.records.Keys && after.objects.Keys <= s.objects.Keys
    && (forall i :: 0 <= i < n ==> Handled(s, after, candidates[i], now, script(i).retentionDue))
    && (forall id :: id in s.records && id !in candidates[..n] ==> after.records[id] == s.records[id])
  }

  /** A pass in which every call is answered cleans every candidate that may be taken, defers the others,
      and fails none. */
  lemma {:induction false} AnsweredPassCleansAll(
      limits: Limits, s: Shelf, candidates: seq<AttachmentId>, now: int, script: nat -> CandidateAnswers, n: nat)
    requires n <= |candidates| && Distinct(candidates) && AllAnswered(script, n)
    ensures var (after, report) := CleanFirst(limits, s, candidates, now, script, n);
            var taken := TakeableBefore(s.records, candidates, now, script, n);
            && taken <= n && report == Some(CleanupReport(n, n - taken, taken, 0))
            && AllHandled(s, after, candidates, now, script, n)
  {
    hide AllHandled, CleanOne, Takeable;
    if n == 0 {
      NothingHandled(s, candidates, now, script);
    } else {
      AnsweredPassCleansAll(limits, s, candidates, now, script, n - 1);
      NextHandled(limits, s, CleanFirst(limits, s, candidates, now, script, n - 1).0, candidates, now, script, n - 1);
    }
  }

  lemma NothingHandled(s: Shelf, candidates: seq<AttachmentId>, now: int, script: nat -> CandidateAnswers)
    ensures AllHandled(s, s, candidates, now, script, 0)
  {}

  lemma NextHandled(limits: Limits, s: Shelf, before: Shelf, candidates: seq<AttachmentId>, now: int,
                    script: nat -> CandidateAnswers, n: nat)
    requires n < |candidates| && Distinct(candidates) && AllAnswered(script, n + 1)
    requires AllHandled(s, before, candidates, now, script, n)
    ensures var id := candidates[n];
            var (after, outcome) := CleanOne(limits, before, id, now, script(n));
            && AllHandled(s, after, candidates, now, script, n + 1)
            && outcome == Some(if id in s.records && Takeable(s.records[id], now, script(n).retentionDue)
                               then WasCleaned else WasDeferred)
  {
    hide Takeable, AllAbsent, WithoutNamed, Keys;
    var id := candidates[n];
    assert id !in candidates[..n];
    assert candidates[..n + 1] == candidates[..n] + [id];
    var after := CleanOne(limits, before, id, now, script(n)).0;
    if id in s.records {
      AnsweredIsAbsent(before.objects, before.records[id], script(n));
      CandidateOutcomeExactly(limits, before, id, now, script(n));
      OthersAreLeftAlone(limits, before, id, now, script(n));
      hide CleanOne;
      forall i | 0 <= i < n ensures Handled(s, after, candidates[i], now, script(i).retentionDue) {
        assert Handled(s, before, candidates[i], now, script(i).retentionDue);
      }
    } else {
      assert after == before;
      forall i | 0 <= i < n ensures Handled(s, after, candidates[i], now, script(i).retentionDue) {
        assert Handled(s, before, candidates[i], now, script(i).retentionDue);
      }
    }
  }

  lemma AnsweredIsAbsent(objects: map<Key, Object>, r: Record, a: CandidateAnswers)
    requires a.blob == Deletion(Done, Done, Done) && a.quarantine == Deletion(Done, Done, Done)
    ensures AllAbsent(objects, r, a)
  {}

  lemma OthersAreLeftAlone(limits: Limits, s: Shelf, id: AttachmentId, now: int, a: CandidateAnswers)
    requires id in s.records
    ensures var after := CleanOne(limits, s, id, now, a).0;
            && (forall other :: other in s.records && other != id ==>
                  other in after.records && after.records[other] == s.records[other])
            && after.objects.Keys <= s.objects.Keys
  {}
}
