/** Provider credentials live in two places: a reference in the profile row, and the secret itself in a
    store that takes no part in database transactions. Setting, removing and reconfiguring race over
    both; every store call and every commit may fail, with or without its effect. */
module CredentialSaga {
  import opened Wrappers

  type Ref = nat
  type ProfileId = nat

  datatype Profile = Profile(isLocalHarness: bool, reference: Option<Ref>, version: nat)

  datatype CleanupRow = CleanupRow(reference: Ref, complete: bool)

  datatype Fate = Done | LostReply | Refused

  /** A call to set or remove a credential, between two awaits. `existing` is the profile as it was read. */
  datatype Saga =
    | Putting(id: ProfileId, existing: Profile)
    | Setting(id: ProfileId, existing: Profile, created: Ref)
    | Compensating(created: Ref)
    | Removing(id: ProfileId, existing: Profile)
    | CleaningUp(row: nat, previous: Ref)
    | Completing(row: nat)
    | Over

  /** The last five are history: references ever handed out by the store; taken out of a profile; left
      behind by a put whose answer was lost or a compensation that failed; displaced by a commit whose
      answer was lost or whose deletion was refused, so that nobody deletes them any more; and displaced
      ones whose cleanup row nobody completes any more. */
  datatype World = World(
    profiles: map<ProfileId, Profile>,
    live: set<Ref>,
    cleanups: seq<CleanupRow>,
    sagas: seq<Saga>,
    issued: set<Ref>,
    displaced: set<Ref>,
    orphans: set<Ref>,
    undeleted: set<Ref>,
    unfinished: set<Ref>)

  datatype Action =
    | Upsert(id: ProfileId, known: Option<nat>, isLocalHarness: bool, commit: Fate)
    | StartSet(id: ProfileId, expected: nat)
    | StartRemove(id: ProfileId, expected: nat)
    | Advance(i: nat, fate: Fate, handedOut: Ref)

  // ---------------------------------------------------------------------------------------------
  // Steps
  // ---------------------------------------------------------------------------------------------

  /** Inserts a profile, or rewrites one; a profile that holds a credential does not become a local harness. */
  function UpsertProfile(w: World, id: ProfileId, expected: Option<nat>, isLocalHarness: bool, commit: Fate): World {
    if commit == Refused then w
    else if expected.None? then
      if id in w.profiles then w else w.(profiles := w.profiles[id := Profile(isLocalHarness, None, 0)])
    else if id !in w.profiles || (isLocalHarness && w.profiles[id].reference.Some?)
            || w.profiles[id].version != expected.value
    then w
    else
      w.(profiles := w.profiles[id := w.profiles[id].(isLocalHarness := isLocalHarness, version := expected.value + 1)])
  }

  function Start(w: World, id: ProfileId, expected: nat, removing: bool): World {
    if id !in w.profiles || w.profiles[id].version != expected || (!removing && w.profiles[id].isLocalHarness) then w
    else
      w.(sagas := w.sagas + [if removing then Removing(id, w.profiles[id]) else Putting(id, w.profiles[id])])
  }

  /** Whether the compare-and-swap against the profile as it was read succeeds. */
  predicate Current(w: World, id: ProfileId, existing: Profile) {
    id in w.profiles && w.profiles[id].version == existing.version
  }

  /** The transaction shared by both calls: the new reference and, when one is displaced, its cleanup row. */
  function Replace(w: World, id: ProfileId, existing: Profile, reference: Option<Ref>): World
    requires id in w.profiles
  {
    var after := w.(profiles := w.profiles[id := w.profiles[id].(reference := reference, version := existing.version + 1)]);
    if existing.reference.None? then after
    else
      after.(cleanups := w.cleanups + [CleanupRow(existing.reference.value, false)],
             displaced := w.displaced + {existing.reference.value})
  }

  /** After a commit that displaced something, the displaced secret is deleted. */
  function AfterCommit(w: World, existing: Profile): Saga {
    if existing.reference.None? then Over else CleaningUp(|w.cleanups|, existing.reference.value)
  }

  /** The references a call leaves to a cleanup that never comes. */
  function LeftTo(existing: Profile, lost: bool): set<Ref> {
    if lost && existing.reference.Some? then {existing.reference.value} else {}
  }

  function Put(w: World, i: nat, fate: Fate, handedOut: Ref): World
    requires i < |w.sagas| && w.sagas[i].Putting?
  {
    var saga := w.sagas[i];
    if handedOut in w.issued then w
    else
      match fate
      case Refused => w.(sagas := w.sagas[i := Over])
      case LostReply =>
        w.(sagas := w.sagas[i := Over], live := w.live + {handedOut}, issued := w.issued + {handedOut},
           orphans := w.orphans + {handedOut})
      case Done =>
        w.(sagas := w.sagas[i := Setting(saga.id, saga.existing, handedOut)], live := w.live + {handedOut},
           issued := w.issued + {handedOut})
  }

  function CommitSet(w: World, i: nat, fate: Fate): World
    requires i < |w.sagas| && w.sagas[i].Setting?
  {
    var saga := w.sagas[i];
    var commits := Current(w, saga.id, saga.existing) && fate != Refused;
    var after := if commits then Replace(w, saga.id, saga.existing, Some(saga.created)) else w;
    after.(sagas := w.sagas[i := if commits && fate == Done then AfterCommit(w, saga.existing) else Compensating(saga.created)],
           undeleted := w.undeleted + LeftTo(saga.existing, commits && fate == LostReply),
           unfinished := w.unfinished + LeftTo(saga.existing, commits && fate == LostReply))
  }

  function Compensate(w: World, i: nat, fate: Fate): World
    requires i < |w.sagas| && w.sagas[i].Compensating?
  {
    var reference := w.sagas[i].created;
    w.(sagas := w.sagas[i := Over],
       live := if fate == Refused then w.live else w.live - {reference},
       orphans := if fate == Refused then w.orphans + {reference} else w.orphans)
  }

  function CommitRemove(w: World, i: nat, fate: Fate): World
    requires i < |w.sagas| && w.sagas[i].Removing?
  {
    var saga := w.sagas[i];
    var commits := Current(w, saga.id, saga.existing) && fate != Refused;
    var after := if commits then Replace(w, saga.id, saga.existing, None) else w;
    after.(sagas := w.sagas[i := if commits && fate == Done then AfterCommit(w, saga.existing) else Over],
           undeleted := w.undeleted + LeftTo(saga.existing, commits && fate == LostReply),
           unfinished := w.unfinished + LeftTo(saga.existing, commits && fate == LostReply))
  }

  function DeletePrevious(w: World, i: nat, fate: Fate): World
    requires i < |w.sagas| && w.sagas[i].CleaningUp?
  {
    var saga := w.sagas[i];
    w.(live := if fate == Refused then w.live else w.live - {saga.previous},
       sagas := w.sagas[i := if fate == Done then Completing(saga.row) else Over],
       undeleted := if fate == Refused then w.undeleted + {saga.previous} else w.undeleted,
       unfinished := if fate != Done then w.unfinished + {saga.previous} else w.unfinished)
  }

  function CompleteRow(w: World, i: nat, fate: Fate): World
    requires i < |w.sagas| && w.sagas[i].Completing?
  {
    var row := w.sagas[i].row;
    w.(cleanups := if fate == Refused || row >= |w.cleanups| then w.cleanups
                   else w.cleanups[row := w.cleanups[row].(complete := true)],
       sagas := w.sagas[i := Over],
       unfinished := if fate == Refused && row < |w.cleanups| then w.unfinished + {w.cleanups[row].reference} else w.unfinished)
  }

  function Step(w: World, a: Action): World {
    match a
    case Upsert(id, known, isLocalHarness, commit) => UpsertProfile(w, id, known, isLocalHarness, commit)
    case StartSet(id, expected) => Start(w, id, expected, false)
    case StartRemove(id, expected) => Start(w, id, expected, true)
    case Advance(i, fate, handedOut) =>
      if i >= |w.sagas| then w
      else
        match w.sagas[i]
        case Putting(_, _) => Put(w, i, fate, handedOut)
        case Setting(_, _, _) => CommitSet(w, i, fate)
        case Compensating(_) => Compensate(w, i, fate)
        case Removing(_, _) => CommitRemove(w, i, fate)
        case CleaningUp(_, _) => DeletePrevious(w, i, fate)
        case Completing(_) => CompleteRow(w, i, fate)
        case Over => w
  }

  function Execute(w: World, actions: seq<Action>): World
    decreases |actions|
  {
    if actions == [] then w else Execute(Step(w, actions[0]), actions[1..])
  }

  // ---------------------------------------------------------------------------------------------
  // The invariant
  // ---------------------------------------------------------------------------------------------

  /** Some profile holds the reference. */
  ghost predicate InUse(w: World, r: Ref) {
    exists id :: id in w.profiles && w.profiles[id].reference == Some(r)
  }

  /** The reference a running set has not yet given to a profile or deleted again. */
  function HeldBy(s: Saga): Option<Ref> {
    match s
    case Setting(_, _, created) => Some(created)
    case Compensating(created) => Some(created)
    case _ => None
  }

  predicate IsHeld(w: World, r: Ref) {
    exists i :: 0 <= i < |w.sagas| && HeldBy(w.sagas[i]) == Some(r)
  }

  /** A copy of a profile: older than the row, or equal to it. */
  predicate Snapshot(w: World, id: ProfileId, s: Profile) {
    id in w.profiles && (s.version < w.profiles[id].version || s == w.profiles[id])
  }

  ghost predicate SagaOk(w: World, s: Saga) {
    match s
    case Putting(id, existing) => Snapshot(w, id, existing) && !existing.isLocalHarness
    case Setting(id, existing, created) =>
      && Snapshot(w, id, existing) && !existing.isLocalHarness
      && created in w.live && created in w.issued && created !in w.displaced && !InUse(w, created)
    case Compensating(created) => created in w.issued
    case Removing(id, existing) => Snapshot(w, id, existing)
    case CleaningUp(row, previous) => row < |w.cleanups| && w.cleanups[row].reference == previous && previous in w.displaced
    case Completing(row) => row < |w.cleanups| && w.cleanups[row].reference !in w.live
    case Over => true
  }

  /** Every reference in a profile was handed out and not displaced since, no two profiles share one, and a
      local harness has none. */
  ghost predicate ProfilesOk(w: World) {
    && (forall id :: id in w.profiles && w.profiles[id].reference.Some? ==>
          && w.profiles[id].reference.value in w.issued
          && w.profiles[id].reference.value !in w.displaced && !w.profiles[id].isLocalHarness)
    && (forall id, other :: id in w.profiles && other in w.profiles && id != other && w.profiles[id].reference.Some? ==>
          w.profiles[id].reference != w.profiles[other].reference)
  }

  predicate HasRow(w: World, r: Ref) {
    exists k :: 0 <= k < |w.cleanups| && w.cleanups[k].reference == r
  }

  /** Every displaced reference has exactly one cleanup row, and a complete one is really gone. */
  ghost predicate CleanupsOk(w: World) {
    && (forall j, k :: 0 <= j < k < |w.cleanups| ==> w.cleanups[j].reference != w.cleanups[k].reference)
    && (forall r :: r in w.displaced <==> HasRow(w, r))
    && (forall k :: 0 <= k < |w.cleanups| && w.cleanups[k].complete ==> w.cleanups[k].reference !in w.live)
    && (forall r :: r in w.displaced ==> r in w.issued)
  }

  ghost predicate SagasOk(w: World) {
    && (forall i :: 0 <= i < |w.sagas| ==> SagaOk(w, w.sagas[i]))
    && (forall i, j :: 0 <= i < j < |w.sagas| && HeldBy(w.sagas[i]).Some? ==> HeldBy(w.sagas[i]) != HeldBy(w.sagas[j]))
  }

  /** Nothing lives on unaccounted for. */
  ghost predicate Accounted(w: World) {
    && w.live <= w.issued
    && forall r :: r in w.live ==> InUse(w, r) || r in w.displaced || r in w.orphans || IsHeld(w, r)
  }

  /** What every step keeps, whatever it does. */
  ghost predicate Base(w: World) {
    ProfilesOk(w) && CleanupsOk(w) && SagasOk(w) && Accounted(w)
  }

  /** Every reference in a profile names a live secret. */
  predicate LiveOk(w: World) {
    forall id :: id in w.profiles && w.profiles[id].reference.Some? ==> w.profiles[id].reference.value in w.live
  }

  /** A set is about to compensate for a reference that a profile holds. */
  ghost predicate Threatens(w: World, s: Saga) { s.Compensating? && InUse(w, s.created) }

  /** The compensation deletes that secret. */
  ghost predicate Deletes(w: World, a: Action) {
    a.Advance? && a.i < |w.sagas| && a.fate != Refused && Threatens(w, w.sagas[a.i])
  }

  /** The step keeps the base whatever holds, and the secrets in use if they were there. */
  ghost predicate Keeps(w: World, after: World) { Base(after) && (LiveOk(w) ==> LiveOk(after)) }

  // ---------------------------------------------------------------------------------------------
  // Preservation
  // ---------------------------------------------------------------------------------------------

  /** Only one saga moved. */
  predicate OnlySagaMoved(w: World, after: World, i: nat) {
    && i < |w.sagas| && |after.sagas| == |w.sagas|
    && forall j :: 0 <= j < |w.sagas| && j != i ==> after.sagas[j] == w.sagas[j]
  }

  lemma HeldAfter(w: World, after: World, i: nat)
    requires OnlySagaMoved(w, after, i)
    ensures forall r: Ref :: IsHeld(w, r) ==> IsHeld(after, r) || HeldBy(w.sagas[i]) == Some(r)
    ensures HeldBy(after.sagas[i]).Some? ==> IsHeld(after, HeldBy(after.sagas[i]).value)
  {
    forall r: Ref | IsHeld(w, r) && HeldBy(w.sagas[i]) != Some(r) ensures IsHeld(after, r) {
      var j :| 0 <= j < |w.sagas| && HeldBy(w.sagas[j]) == Some(r);
      assert HeldBy(after.sagas[j]) == Some(r);
    }
  }

  lemma InUseAfterReplace(w: World, id: ProfileId, existing: Profile, reference: Option<Ref>)
    requires ProfilesOk(w) && id in w.profiles
    ensures forall r: Ref :: InUse(Replace(w, id, existing, reference), r) <==>
              (InUse(w, r) && w.profiles[id].reference != Some(r)) || reference == Some(r)
  {
    var after := Replace(w, id, existing, reference);
    forall r: Ref ensures InUse(after, r) <==>
                            (InUse(w, r) && w.profiles[id].reference != Some(r)) || reference == Some(r) {
      if InUse(w, r) && w.profiles[id].reference != Some(r) {
        var k :| k in w.profiles && w.profiles[k].reference == Some(r);
        assert after.profiles[k].reference == Some(r);
      }
      if reference == Some(r) { assert after.profiles[id].reference == Some(r); }
      if InUse(after, r) && reference != Some(r) {
        var k :| k in after.profiles && after.profiles[k].reference == Some(r);
        assert w.profiles[k].reference == Some(r);
      }
    }
  }

  lemma RowsAfterReplace(w: World, id: ProfileId, existing: Profile, reference: Option<Ref>)
    requires id in w.profiles
    ensures forall r: Ref :: HasRow(Replace(w, id, existing, reference), r) <==> HasRow(w, r) || existing.reference == Some(r)
  {
    var after := Replace(w, id, existing, reference);
    forall r: Ref ensures HasRow(after, r) <==> HasRow(w, r) || existing.reference == Some(r) {
      if k :| 0 <= k < |w.cleanups| && w.cleanups[k].reference == r { assert after.cleanups[k].reference == r; }
      if existing.reference == Some(r) { assert after.cleanups[|w.cleanups|].reference == r; }
      if k :| 0 <= k < |after.cleanups| && after.cleanups[k].reference == r && existing.reference != Some(r) {
        assert w.cleanups[k].reference == r;
      }
    }
  }

  lemma UpsertKeeps(w: World, id: ProfileId, known: Option<nat>, isLocalHarness: bool, commit: Fate)
    requires Base(w)
    ensures Keeps(w, UpsertProfile(w, id, known, isLocalHarness, commit))
  {
    var after := UpsertProfile(w, id, known, isLocalHarness, commit);
    forall r: Ref ensures InUse(after, r) <==> InUse(w, r) {
      if k :| k in w.profiles && w.profiles[k].reference == Some(r) { assert after.profiles[k].reference == Some(r); }
      if k :| k in after.profiles && after.profiles[k].reference == Some(r) { assert k in w.profiles; }
    }
    forall i | 0 <= i < |w.sagas| ensures SagaOk(after, w.sagas[i]) {
      assert SagaOk(w, w.sagas[i]);
    }
    HeldAnyway(w, after);
    assert forall r: Ref :: HasRow(after, r) == HasRow(w, r);
  }

  lemma HeldAnyway(w: World, after: World)
    requires |w.sagas| <= |after.sagas| && after.sagas[..|w.sagas|] == w.sagas
    ensures forall r: Ref :: IsHeld(w, r) ==> IsHeld(after, r)
  {
    forall r: Ref | IsHeld(w, r) ensures IsHeld(after, r) {
      var i :| 0 <= i < |w.sagas| && HeldBy(w.sagas[i]) == Some(r);
      assert after.sagas[i] == after.sagas[..|w.sagas|][i];
    }
  }

  lemma StartKeeps(w: World, id: ProfileId, expected: nat, removing: bool)
    requires Base(w)
    ensures Keeps(w, Start(w, id, expected, removing))
  {
    var after := Start(w, id, expected, removing);
    HeldAnyway(w, after);
    forall i | 0 <= i < |after.sagas| ensures SagaOk(after, after.sagas[i]) {
      assert i < |w.sagas| ==> SagaOk(w, w.sagas[i]);
    }
  }

  lemma PutKeeps(w: World, i: nat, fate: Fate, handedOut: Ref)
    requires Base(w) && i < |w.sagas| && w.sagas[i].Putting?
    ensures Keeps(w, Put(w, i, fate, handedOut))
  {
    HeldAfter(w, Put(w, i, fate, handedOut), i);
  }

  /** What a replacement leaves, before its saga moves on. */
  lemma ReplaceKeepsRows(w: World, id: ProfileId, existing: Profile, reference: Option<Ref>)
    requires ProfilesOk(w) && CleanupsOk(w) && Snapshot(w, id, existing) && Current(w, id, existing)
    requires reference.Some? ==>
               reference.value in w.live && reference.value in w.issued && reference.value !in w.displaced
               && !InUse(w, reference.value) && !existing.isLocalHarness
    ensures var after := Replace(w, id, existing, reference); ProfilesOk(after) && CleanupsOk(after)
  {
    RowsAfterReplace(w, id, existing, reference);
    var after := Replace(w, id, existing, reference);
    if existing.reference.Some? {
      assert !HasRow(w, existing.reference.value);
    }
  }

  lemma OtherSagasOk(w: World, id: ProfileId, existing: Profile, reference: Option<Ref>, s: Saga)
    requires ProfilesOk(w) && Snapshot(w, id, existing) && Current(w, id, existing)
    requires SagaOk(w, s) && (reference.Some? ==> HeldBy(s) != reference)
    ensures SagaOk(Replace(w, id, existing, reference), s)
  {
    InUseAfterReplace(w, id, existing, reference);
    assert existing.reference.Some? ==> InUse(w, existing.reference.value) by {
      assert existing == w.profiles[id];
    }
  }

  lemma CommitSetKeeps(w: World, i: nat, fate: Fate)
    requires Base(w) && i < |w.sagas| && w.sagas[i].Setting?
    ensures Keeps(w, CommitSet(w, i, fate))
  {
    var saga, after := w.sagas[i], CommitSet(w, i, fate);
    assert SagaOk(w, saga);
    if Current(w, saga.id, saga.existing) && fate != Refused {
      hide Base, LiveOk;
      ReplaceMoves(w, i, saga.id, saga.existing, Some(saga.created), after.sagas[i]);
      HistoryDoesNotMatter(Replace(w, saga.id, saga.existing, Some(saga.created)).(sagas := after.sagas), after);
    } else {
      CallMovesOn(w, i, Compensating(saga.created));
      HistoryDoesNotMatter(w.(sagas := after.sagas), after);
    }
  }

  /** What was left behind is history and nothing else depends on it. */
  lemma HistoryDoesNotMatter(w: World, after: World)
    requires after == w.(undeleted := after.undeleted, unfinished := after.unfinished)
    ensures (Base(after) <==> Base(w)) && (LiveOk(after) <==> LiveOk(w))
  {
    assert forall r: Ref :: (InUse(after, r) <==> InUse(w, r)) && (IsHeld(after, r) <==> IsHeld(w, r)) && (HasRow(after, r) <==> HasRow(w, r));
    assert forall s: Saga :: SagaOk(after, s) <==> SagaOk(w, s);
  }

  /** A call that moves on without a change to profiles, rows or store. */
  lemma CallMovesOn(w: World, i: nat, next: Saga)
    requires Base(w) && i < |w.sagas| && SagaOk(w, next) && HeldBy(next) == HeldBy(w.sagas[i])
    ensures Keeps(w, w.(sagas := w.sagas[i := next]))
  {
    var after := w.(sagas := w.sagas[i := next]);
    HeldAfter(w, after, i);
    forall j | 0 <= j < |w.sagas| ensures SagaOk(after, after.sagas[j]) {
      assert SagaOk(w, w.sagas[j]);
    }
  }

  /** A replacement on behalf of a saga that holds the new reference, if there is one. */
  ghost predicate Replaceable(w: World, i: nat, id: ProfileId, existing: Profile, reference: Option<Ref>) {
    && i < |w.sagas| && Snapshot(w, id, existing) && Current(w, id, existing) && HeldBy(w.sagas[i]) == reference
    && (reference.Some? ==>
          && reference.value in w.live && reference.value in w.issued && reference.value !in w.displaced
          && !InUse(w, reference.value) && !existing.isLocalHarness)
  }

  /** The saga goes on to delete what it displaced, or has not heard that it succeeded. */
  predicate GoesOn(w: World, existing: Profile, reference: Option<Ref>, next: Saga) {
    next == AfterCommit(w, existing) || next == Over || (reference.Some? && next == Compensating(reference.value))
  }

  lemma ReplaceMovesSagas(w: World, i: nat, id: ProfileId, existing: Profile, reference: Option<Ref>, next: Saga)
    requires Base(w) && Replaceable(w, i, id, existing, reference) && GoesOn(w, existing, reference, next)
    ensures SagasOk(Replace(w, id, existing, reference).(sagas := w.sagas[i := next]))
  {
    var replaced := Replace(w, id, existing, reference);
    var after := replaced.(sagas := w.sagas[i := next]);
    assert forall r: Ref :: InUse(after, r) <==> InUse(replaced, r);
    forall j | 0 <= j < |w.sagas| ensures SagaOk(after, after.sagas[j]) {
      assert SagaOk(w, w.sagas[j]);
      if j != i { OtherSagasOk(w, id, existing, reference, w.sagas[j]); }
    }
  }

  lemma ReplaceMoves(w: World, i: nat, id: ProfileId, existing: Profile, reference: Option<Ref>, next: Saga)
    requires Base(w) && Replaceable(w, i, id, existing, reference) && GoesOn(w, existing, reference, next)
    ensures Keeps(w, Replace(w, id, existing, reference).(sagas := w.sagas[i := next]))
  {
    var replaced := Replace(w, id, existing, reference);
    var after := replaced.(sagas := w.sagas[i := next]);
    ReplaceMovesSagas(w, i, id, existing, reference, next);
    ReplaceKeepsRows(w, id, existing, reference);
    assert CleanupsOk(after) by {
      assert forall r: Ref :: HasRow(after, r) <==> HasRow(replaced, r);
    }
    ReplaceAccounts(w, i, id, existing, reference, next);
  }

  lemma ReplaceAccounts(w: World, i: nat, id: ProfileId, existing: Profile, reference: Option<Ref>, next: Saga)
    requires ProfilesOk(w) && Accounted(w) && Replaceable(w, i, id, existing, reference)
    ensures Accounted(Replace(w, id, existing, reference).(sagas := w.sagas[i := next]))
  {
    var replaced := Replace(w, id, existing, reference);
    var after := replaced.(sagas := w.sagas[i := next]);
    InUseAfterReplace(w, id, existing, reference);
    HeldAfter(w, after, i);
    assert forall r: Ref :: InUse(after, r) <==> InUse(replaced, r);
  }

  lemma CompensateKeeps(w: World, i: nat, fate: Fate)
    requires Base(w) && i < |w.sagas| && w.sagas[i].Compensating?
    ensures Base(Compensate(w, i, fate))
    ensures LiveOk(w) ==> (LiveOk(Compensate(w, i, fate)) <==> fate == Refused || !InUse(w, w.sagas[i].created))
  {
    HeldAfter(w, Compensate(w, i, fate), i);
  }

  lemma CommitRemoveKeeps(w: World, i: nat, fate: Fate)
    requires Base(w) && i < |w.sagas| && w.sagas[i].Removing?
    ensures Keeps(w, CommitRemove(w, i, fate))
  {
    var saga, after := w.sagas[i], CommitRemove(w, i, fate);
    assert SagaOk(w, saga);
    if Current(w, saga.id, saga.existing) && fate != Refused {
      hide Base, LiveOk;
      ReplaceMoves(w, i, saga.id, saga.existing, None, after.sagas[i]);
      HistoryDoesNotMatter(Replace(w, saga.id, saga.existing, None).(sagas := after.sagas), after);
    } else {
      CallMovesOn(w, i, Over);
      HistoryDoesNotMatter(w.(sagas := after.sagas), after);
    }
  }

  lemma DeletePreviousKeeps(w: World, i: nat, fate: Fate)
    requires Base(w) && i < |w.sagas| && w.sagas[i].CleaningUp?
    ensures Keeps(w, DeletePrevious(w, i, fate))
  {
    HeldAfter(w, DeletePrevious(w, i, fate), i);
  }

  lemma CompleteRowKeeps(w: World, i: nat, fate: Fate)
    requires Base(w) && i < |w.sagas| && w.sagas[i].Completing?
    ensures Keeps(w, CompleteRow(w, i, fate))
  {
    var after := CompleteRow(w, i, fate);
    HeldAfter(w, after, i);
    assert forall k :: 0 <= k < |w.cleanups| ==> after.cleanups[k].reference == w.cleanups[k].reference;
    assert forall r: Ref :: HasRow(after, r) <==> HasRow(w, r);
  }

  /** Every step keeps the base. The secrets in use stay alive exactly when the step is not a compensation
      that deletes one of them. */
  lemma StepKeeps(w: World, a: Action)
    requires Base(w)
    ensures Base(Step(w, a))
    ensures LiveOk(w) ==> (LiveOk(Step(w, a)) <==> !Deletes(w, a))
  {
    match a
    case Upsert(id, known, isLocalHarness, commit) => UpsertKeeps(w, id, known, isLocalHarness, commit);
    case StartSet(id, expected) => StartKeeps(w, id, expected, false);
    case StartRemove(id, expected) => StartKeeps(w, id, expected, true);
    case Advance(i, fate, handedOut) =>
      if i < |w.sagas| {
        match w.sagas[i]
        case Putting(_, _) => PutKeeps(w, i, fate, handedOut);
        case Setting(_, _, _) => CommitSetKeeps(w, i, fate);
        case Compensating(_) => CompensateKeeps(w, i, fate);
        case Removing(_, _) => CommitRemoveKeeps(w, i, fate);
        case CleaningUp(_, _) => DeletePreviousKeeps(w, i, fate);
        case Completing(_) => CompleteRowKeeps(w, i, fate);
        case Over =>
      }
  }

  // ---------------------------------------------------------------------------------------------
  // Whole runs
  // ---------------------------------------------------------------------------------------------

  const EMPTY := World(map[], {}, [], [], {}, {}, {}, {}, {})

  lemma {:induction false} RunKeeps(w: World, actions: seq<Action>)
    requires Base(w)
    ensures Base(Execute(w, actions))
    decreases |actions|
  {
    if actions != [] {
      StepKeeps(w, actions[0]);
      RunKeeps(Step(w, actions[0]), actions[1..]);
    }
  }

  /** Over every interleaving, without any exception: references in profiles are unshared and not
      displaced, a local harness holds none, every displaced reference has exactly one cleanup row, a
      complete row means the secret is gone, and a secret that no profile, row or running call accounts
      for was left behind by a lost put or a failed compensation. */
  lemma CredentialsStayConsistent(actions: seq<Action>)
    ensures var w := Execute(EMPTY, actions);
            && (forall id :: id in w.profiles && w.profiles[id].reference.Some? ==>
                  w.profiles[id].reference.value !in w.displaced && !w.profiles[id].isLocalHarness)
            && (forall id, other :: id in w.profiles && other in w.profiles && id != other && w.profiles[id].reference.Some? ==>
                  w.profiles[id].reference != w.profiles[other].reference)
            && (forall r: Ref :: r in w.displaced <==> HasRow(w, r))
            && (forall j, k :: 0 <= j < k < |w.cleanups| ==> w.cleanups[j].reference != w.cleanups[k].reference)
            && (forall k :: 0 <= k < |w.cleanups| && w.cleanups[k].complete ==> w.cleanups[k].reference !in w.live)
            && (forall r: Ref :: r in w.live ==> InUse(w, r) || r in w.displaced || r in w.orphans || IsHeld(w, r))
  {
    RunKeeps(EMPTY, actions);
  }

  /** Every profile's reference names a live secret, now and after every step of the run. */
  predicate AlwaysLive(w: World, actions: seq<Action>)
    decreases |actions|
  {
    LiveOk(w) && (actions == [] || AlwaysLive(Step(w, actions[0]), actions[1..]))
  }

  /** No compensation along the run deletes a secret that a profile refers to. */
  ghost predicate NeverDeletes(w: World, actions: seq<Action>)
    decreases |actions|
  {
    actions == [] || (!Deletes(w, actions[0]) && NeverDeletes(Step(w, actions[0]), actions[1..]))
  }

  lemma {:induction false} LiveRun(w: World, actions: seq<Action>)
    requires Base(w) && LiveOk(w)
    ensures AlwaysLive(w, actions) <==> NeverDeletes(w, actions)
    decreases |actions|
  {
    if actions != [] {
      StepKeeps(w, actions[0]);
      if !Deletes(w, actions[0]) {
        LiveRun(Step(w, actions[0]), actions[1..]);
      }
    }
  }

  /** Over every interleaving the references in profiles are live as long as, and only as long as, no
      compensation deletes one that is in use. */
  lemma ReferencesAreLiveExactlyWithoutSuchADeletion(actions: seq<Action>)
    ensures AlwaysLive(EMPTY, actions) <==> NeverDeletes(EMPTY, actions)
  {
    LiveRun(EMPTY, actions);
  }

  /** Some running set threatens a secret in use. */
  ghost predicate Endangered(w: World) {
    exists i :: 0 <= i < |w.sagas| && Threatens(w, w.sagas[i])
  }

  /** The commit of a new reference took effect and its answer was lost. */
  predicate SetLost(w: World, a: Action) {
    && a.Advance? && a.i < |w.sagas| && w.sagas[a.i].Setting? && a.fate == LostReply
    && Current(w, w.sagas[a.i].id, w.sagas[a.i].existing)
  }

  /** Nothing but a lost answer of such a commit puts a secret in that danger. */
  lemma EndangeredExactlyByALostAnswer(w: World, a: Action)
    requires Base(w) && !Endangered(w)
    ensures Endangered(Step(w, a)) <==> SetLost(w, a)
  {
    var after := Step(w, a);
    if SetLost(w, a) {
      assert after.profiles[w.sagas[a.i].id].reference == Some(w.sagas[a.i].created);
      assert Threatens(after, after.sagas[a.i]);
    } else if j :| 0 <= j < |after.sagas| && Threatens(after, after.sagas[j]) {
      NotThreatened(w, a, j);
    }
  }

  lemma NotThreatened(w: World, a: Action, j: nat)
    requires Base(w) && !Endangered(w) && !SetLost(w, a) && j < |Step(w, a).sagas|
    ensures !Threatens(Step(w, a), Step(w, a).sagas[j])
  {}

  /** No commit of a new reference along the run loses its answer. */
  predicate Acknowledged(w: World, actions: seq<Action>)
    decreases |actions|
  {
    actions == [] || (!SetLost(w, actions[0]) && Acknowledged(Step(w, actions[0]), actions[1..]))
  }

  lemma {:induction false} SafeRun(w: World, actions: seq<Action>)
    requires Base(w) && LiveOk(w) && !Endangered(w) && Acknowledged(w, actions)
    ensures AlwaysLive(w, actions)
    decreases |actions|
  {
    if actions != [] {
      StepKeeps(w, actions[0]);
      EndangeredExactlyByALostAnswer(w, actions[0]);
      SafeRun(Step(w, actions[0]), actions[1..]);
    }
  }

  /** What a caller can rely on: whatever else fails, while every commit of a new reference is answered the
      references in profiles are live after every step. */
  lemma AcknowledgedRunsStayLive(actions: seq<Action>)
    requires Acknowledged(EMPTY, actions)
    ensures AlwaysLive(EMPTY, actions)
  {
    SafeRun(EMPTY, actions);
  }

  lemma Then(w: World, a: Action, rest: seq<Action>)
    ensures Execute(w, [a] + rest) == Execute(Step(w, a), rest)
  {
    assert ([a] + rest)[1..] == rest;
  }

  /** A first credential is set, and everything goes well except that the commit's answer is lost: the
      profile ends up with a reference to a secret that the compensation has deleted. */
  lemma LostAnswerDeletesTheCredential(id: ProfileId, handedOut: Ref)
    ensures var w := Execute(EMPTY, [Upsert(id, None, false, Done)] + ([StartSet(id, 0)] + ([Advance(0, Done, handedOut)]
                               + ([Advance(0, LostReply, handedOut)] + ([Advance(0, Done, handedOut)] + [])))));
            && id in w.profiles && w.profiles[id].reference == Some(handedOut)
            && handedOut !in w.live && !LiveOk(w)
  {
    var put, lose, undo := Advance(0, Done, handedOut), Advance(0, LostReply, handedOut), Advance(0, Done, handedOut);
    Then(EMPTY, Upsert(id, None, false, Done), [StartSet(id, 0)] + ([put] + ([lose] + ([undo] + []))));
    var added := Step(EMPTY, Upsert(id, None, false, Done));
    Then(added, StartSet(id, 0), [put] + ([lose] + ([undo] + [])));
    var started := Step(added, StartSet(id, 0));
    assert started.sagas == [Putting(id, Profile(false, None, 0))];
    Then(started, put, [lose] + ([undo] + []));
    var stored := Step(started, put);
    assert stored.sagas == [Setting(id, Profile(false, None, 0), handedOut)];
    Then(stored, lose, [undo] + []);
    var lost := Step(stored, lose);
    assert lost.sagas == [Compensating(handedOut)];
    Then(lost, undo, []);
  }
}
