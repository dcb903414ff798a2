/** The configuration service as it runs: profile rows, cleanup rows and the secret store are updated one
    call after the other. */
module CredentialService {
  import opened CredentialSaga
  import opened Wrappers

  /** The answer to the k-th external call of one service call. */
  datatype Answer = Answer(fate: Fate, handedOut: Ref)

  function Rank(s: Saga): nat {
    match s
    case Putting(_, _) => 4
    case Setting(_, _, _) => 3
    case Removing(_, _) => 3
    case CleaningUp(_, _) => 2
    case Compensating(_) => 1
    case Completing(_) => 1
    case Over => 0
  }

  /** The protocol's steps of one call, undisturbed, until it is over. */
  function Finished(w: World, i: nat, script: nat -> Answer, k: nat): World
    requires i < |w.sagas|
    decreases Rank(w.sagas[i])
  {
    var next := Step(w, Advance(i, script(k).fate, script(k).handedOut));
    if |next.sagas| != |w.sagas| || Rank(next.sagas[i]) >= Rank(w.sagas[i]) then w
    else Finished(next, i, script, k + 1)
  }

  /** Every answer takes a running call on, so that it ends after four answers at the latest. */
  lemma CallsEnd(w: World, i: nat, fate: Fate, handedOut: Ref)
    requires i < |w.sagas| && w.sagas[i] != Over && (w.sagas[i].Putting? ==> handedOut !in w.issued)
    ensures var after := Step(w, Advance(i, fate, handedOut));
            && |after.sagas| == |w.sagas| && Rank(after.sagas[i]) < Rank(w.sagas[i]) <= 4
            && (Rank(after.sagas[i]) == 0 <==> after.sagas[i] == Over)
  {}

  class Service {
    var profiles: map<ProfileId, Profile>
    var live: set<Ref>
    var cleanups: seq<CleanupRow>

    constructor (profiles: map<ProfileId, Profile>, live: set<Ref>, cleanups: seq<CleanupRow>)
      ensures this.profiles == profiles && this.live == live && this.cleanups == cleanups
    {
      this.profiles, this.live, this.cleanups := profiles, live, cleanups;
    }

    /** This object is what the outside sees of the protocol state. */
    predicate Shows(w: World)
      reads this
    {
      profiles == w.profiles && live == w.live && cleanups == w.cleanups
    }

    method Delete(reference: Ref, fate: Fate) returns (ok: bool)
      modifies this`live
      ensures live == (if fate == Refused then old(live) else old(live) - {reference}) && ok == (fate == Done)
    {
      if fate != Refused {
        live := live - {reference};
      }
      ok := fate == Done;
    }

    /** The transaction of set and remove: swap the reference and record what it displaced. */
    method CommitReference(id: ProfileId, existing: Profile, reference: Option<Ref>, fate: Fate, ghost w: World)
      returns (ok: bool)
      requires Shows(w)
      modifies this`profiles, this`cleanups
      ensures var commits := Current(w, id, existing) && fate != Refused;
              && Shows(if commits then Replace(w, id, existing, reference) else w)
              && ok == (commits && fate == Done)
    {
      if id !in profiles || profiles[id].version != existing.version || fate == Refused {
        return false;
      }
      profiles := profiles[id := profiles[id].(reference := reference, version := existing.version + 1)];
      if existing.reference.Some? {
        cleanups := cleanups + [CleanupRow(existing.reference.value, false)];
      }
      ok := fate == Done;
    }

    /** What became of the displaced reference: it has one new cleanup row, its secret is gone unless the
        deletion was refused, and the row is complete when the deletion was confirmed and recorded. */
    predicate CleanedUp(had: set<Ref>, rows: seq<CleanupRow>, displaced: Option<Ref>, script: nat -> Answer, k: nat)
      reads this
    {
      if displaced.None? then live == had && cleanups == rows
      else
        && live == (if script(k).fate == Refused then had else had - {displaced.value})
        && cleanups == rows + [CleanupRow(displaced.value, script(k).fate == Done && script(k + 1).fate != Refused)]
    }

    /** `complete_cleanup`: the row is closed only after the secret's deletion was confirmed. */
    method CompleteCleanup(row: nat, previous: Ref, script: nat -> Answer, k: nat, ghost w: World, ghost i: nat)
      requires Shows(w) && i < |w.sagas| && w.sagas[i] == CleaningUp(row, previous) && row < |cleanups|
      modifies this`live, this`cleanups
      ensures Shows(Finished(w, i, script, k))
      ensures live == (if script(k).fate == Refused then old(live) else old(live) - {previous})
      ensures cleanups == if script(k).fate == Done && script(k + 1).fate != Refused
                          then old(cleanups)[row := old(cleanups)[row].(complete := true)] else old(cleanups)
    {
      ghost var deletion := Step(w, Advance(i, script(k).fate, script(k).handedOut));
      assert Finished(w, i, script, k) == Finished(deletion, i, script, k + 1);
      var deleted := Delete(previous, script(k).fate);
      if deleted {
        ghost var closed := Step(deletion, Advance(i, script(k + 1).fate, script(k + 1).handedOut));
        assert Finished(deletion, i, script, k + 1) == Finished(closed, i, script, k + 2);
        if script(k + 1).fate != Refused {
          cleanups := cleanups[row := cleanups[row].(complete := true)];
        }
      }
    }

    /** `set_provider_credential`: put the secret, commit the reference, compensate or clean up. */
    method SetProviderCredential(id: ProfileId, expected: nat, script: nat -> Answer, ghost w: World)
      returns (ok: bool, ghost after: World)
      requires Shows(w) && script(0).handedOut !in w.issued
      modifies this
      ensures Shows(after)
      ensures var started := Start(w, id, expected, false);
              after == if started == w then w else Finished(started, |w.sagas|, script, 0)
      ensures ok <==> && id in old(profiles) && !old(profiles)[id].isLocalHarness && old(profiles)[id].version == expected
                      && script(0).fate == Done && script(1).fate == Done
      ensures ok ==>
                && profiles == old(profiles)[id := Profile(false, Some(script(0).handedOut), expected + 1)]
                && CleanedUp(old(live) + {script(0).handedOut}, old(cleanups), old(profiles)[id].reference, script, 2)
      ensures !ok && script(0).fate == Done && script(2).fate != Refused && script(0).handedOut !in old(live) ==>
                script(0).handedOut !in live
    {
      ok, after := false, w;
      if id !in profiles { return; }
      var existing := profiles[id];
      if existing.isLocalHarness || existing.version != expected { return; }
      ghost var i := |w.sagas|;
      ghost var started := Start(w, id, expected, false);
      assert started.sagas[i] == Putting(id, existing);
      ghost var stored := Step(started, Advance(i, script(0).fate, script(0).handedOut));
      after := Finished(started, i, script, 0);
      assert after == Finished(stored, i, script, 1);
      var created := script(0).handedOut;
      if script(0).fate != Refused {
        live := live + {created};
      }
      if script(0).fate != Done { return; }
      ok := Commit(id, existing, created, script, stored, i);
    }

    method Commit(id: ProfileId, existing: Profile, created: Ref, script: nat -> Answer, ghost w: World, ghost i: nat)
      returns (ok: bool)
      requires Shows(w) && i < |w.sagas| && w.sagas[i] == Setting(id, existing, created)
      requires id in profiles && profiles[id] == existing && !existing.isLocalHarness
      modifies this
      ensures Shows(Finished(w, i, script, 1))
      ensures ok <==> script(1).fate == Done
      ensures ok ==>
                && profiles == old(profiles)[id := Profile(false, Some(created), existing.version + 1)]
                && CleanedUp(old(live), old(cleanups), existing.reference, script, 2)
      ensures !ok ==> live == if script(2).fate == Refused then old(live) else old(live) - {created}
    {
      ghost var committed := Step(w, Advance(i, script(1).fate, script(1).handedOut));
      assert Finished(w, i, script, 1) == Finished(committed, i, script, 2);
      ok := CommitReference(id, existing, Some(created), script(1).fate, w);
      if !ok {
        ghost var undone := Step(committed, Advance(i, script(2).fate, script(2).handedOut));
        assert Finished(committed, i, script, 2) == Finished(undone, i, script, 3);
        var _ := Delete(created, script(2).fate);
      } else if existing.reference.Some? {
        CompleteCleanup(|cleanups| - 1, existing.reference.value, script, 2, committed, i);
      }
    }

    /** `remove_provider_credential`. */
    method RemoveProviderCredential(id: ProfileId, expected: nat, script: nat -> Answer, ghost w: World)
      returns (ok: bool, ghost after: World)
      requires Shows(w)
      modifies this
      ensures Shows(after)
      ensures var started := Start(w, id, expected, true);
              after == if started == w then w else Finished(started, |w.sagas|, script, 0)
      ensures ok <==> id in old(profiles) && old(profiles)[id].version == expected && script(0).fate == Done
      ensures ok ==>
                && profiles == old(profiles)[id := old(profiles)[id].(reference := None, version := expected + 1)]
                && CleanedUp(old(live), old(cleanups), old(profiles)[id].reference, script, 1)
      ensures !ok && script(0).fate == Refused ==> profiles == old(profiles) && live == old(live) && cleanups == old(cleanups)
    {
      ok, after := false, w;
      if id !in profiles { return; }
      var existing := profiles[id];
      if existing.version != expected { return; }
      ghost var i := |w.sagas|;
      ghost var started := Start(w, id, expected, true);
      assert started.sagas[i] == Removing(id, existing);
      ghost var committed := Step(started, Advance(i, script(0).fate, script(0).handedOut));
      after := Finished(started, i, script, 0);
      assert after == Finished(committed, i, script, 1);
      ok := CommitReference(id, existing, None, script(0).fate, started);
      if ok && existing.reference.Some? {
        CompleteCleanup(|cleanups| - 1, existing.reference.value, script, 1, committed, i);
      }
    }

    /** `upsert_provider_profile`. */
    method UpsertProviderProfile(id: ProfileId, known: Option<nat>, isLocalHarness: bool, commit: Fate, ghost w: World)
      returns (ok: bool)
      requires Shows(w)
      modifies this`profiles
      ensures Shows(UpsertProfile(w, id, known, isLocalHarness, commit))
      ensures ok <==>
                && commit == Done
                && if known.None? then id !in old(profiles)
                   else id in old(profiles) && old(profiles)[id].version == known.value
                        && !(isLocalHarness && old(profiles)[id].reference.Some?)
      ensures ok ==>
                profiles == old(profiles)[id := if known.None? then Profile(isLocalHarness, None, 0)
                                                else old(profiles)[id].(isLocalHarness := isLocalHarness, version := known.value + 1)]
    {
      ok := false;
      if commit == Refused { return; }
      if known.None? {
        if id in profiles { return; }
        profiles := profiles[id := Profile(isLocalHarness, None, 0)];
      } else {
        if id !in profiles { return; }
        var current := profiles[id];
        if isLocalHarness && current.reference.Some? { return; }
        if current.version != known.value { return; }
        profiles := profiles[id := current.(isLocalHarness := isLocalHarness, version := known.value + 1)];
      }
      ok := commit == Done;
    }
  }
}
