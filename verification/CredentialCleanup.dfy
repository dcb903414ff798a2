/** What becomes of displaced secrets: somebody is deleting them, or it is on record who failed to. */
module CredentialCleanup {
  import opened CredentialSaga
  import opened Wrappers

  /** A running call is about to delete the reference. */
  predicate BeingDeleted(w: World, r: Ref) {
    exists i :: 0 <= i < |w.sagas| && DeletesNext(w.sagas[i], r)
  }

  predicate DeletesNext(s: Saga, r: Ref) { s.CleaningUp? && s.previous == r }

  /** A running call is about to complete the row, perhaps after deleting its reference. */
  predicate BeingCompleted(w: World, row: nat) {
    exists i :: 0 <= i < |w.sagas| && CompletesLater(w.sagas[i], row)
  }

  predicate CompletesLater(s: Saga, row: nat) { (s.CleaningUp? || s.Completing?) && s.row == row }

  /** A displaced secret that lives on is being deleted or was left behind. */
  ghost predicate DeletionFollowed(w: World) {
    forall r :: r in w.displaced && r in w.live ==> r in w.undeleted || BeingDeleted(w, r)
  }

  /** A row that is not complete is being completed or was left open. */
  ghost predicate RowsFollowed(w: World) {
    forall k: nat :: k < |w.cleanups| && !w.cleanups[k].complete ==>
      w.cleanups[k].reference in w.unfinished || BeingCompleted(w, k)
  }

  // ---------------------------------------------------------------------------------------------
  // Every step follows them up
  // ---------------------------------------------------------------------------------------------

  /** The other calls go on as before. */
  lemma OthersGoOn(w: World, after: World, i: nat)
    requires OnlySagaMoved(w, after, i)
    ensures forall r: Ref :: BeingDeleted(w, r) ==> BeingDeleted(after, r) || DeletesNext(w.sagas[i], r)
    ensures forall k: nat :: BeingCompleted(w, k) ==> BeingCompleted(after, k) || CompletesLater(w.sagas[i], k)
    ensures forall r: Ref :: DeletesNext(after.sagas[i], r) ==> BeingDeleted(after, r)
    ensures forall k: nat :: CompletesLater(after.sagas[i], k) ==> BeingCompleted(after, k)
  {
    forall r: Ref | BeingDeleted(w, r) && !DeletesNext(w.sagas[i], r) ensures BeingDeleted(after, r) {
      var j :| 0 <= j < |w.sagas| && DeletesNext(w.sagas[j], r);
      assert DeletesNext(after.sagas[j], r);
    }
    forall k: nat | BeingCompleted(w, k) && !CompletesLater(w.sagas[i], k) ensures BeingCompleted(after, k) {
      var j :| 0 <= j < |w.sagas| && CompletesLater(w.sagas[j], k);
      assert CompletesLater(after.sagas[j], k);
    }
  }

  lemma NewCallsChangeNothing(w: World, after: World)
    requires |w.sagas| <= |after.sagas| && after.sagas[..|w.sagas|] == w.sagas
    ensures forall r: Ref :: BeingDeleted(w, r) ==> BeingDeleted(after, r)
    ensures forall k: nat :: BeingCompleted(w, k) ==> BeingCompleted(after, k)
  {
    forall r: Ref | BeingDeleted(w, r) ensures BeingDeleted(after, r) {
      var j :| 0 <= j < |w.sagas| && DeletesNext(w.sagas[j], r);
      assert after.sagas[j] == after.sagas[..|w.sagas|][j];
    }
    forall k: nat | BeingCompleted(w, k) ensures BeingCompleted(after, k) {
      var j :| 0 <= j < |w.sagas| && CompletesLater(w.sagas[j], k);
      assert after.sagas[j] == after.sagas[..|w.sagas|][j];
    }
  }

  predicate IsAdvance(w: World, i: nat) { i < |w.sagas| && w.sagas[i] != Over }

  lemma AdvanceFollows(w: World, i: nat, fate: Fate, handedOut: Ref)
    requires Base(w) && DeletionFollowed(w) && RowsFollowed(w) && IsAdvance(w, i)
    ensures var after := Step(w, Advance(i, fate, handedOut)); DeletionFollowed(after) && RowsFollowed(after)
  {
    var after := Step(w, Advance(i, fate, handedOut));
    assert SagaOk(w, w.sagas[i]);
    assert OnlySagaMoved(w, after, i);
    OthersGoOn(w, after, i);
  }

  lemma StepFollows(w: World, a: Action)
    requires Base(w) && DeletionFollowed(w) && RowsFollowed(w)
    ensures DeletionFollowed(Step(w, a)) && RowsFollowed(Step(w, a))
  {
    match a
    case Upsert(_, _, _, _) => NewCallsChangeNothing(w, Step(w, a));
    case StartSet(_, _) => NewCallsChangeNothing(w, Step(w, a));
    case StartRemove(_, _) => NewCallsChangeNothing(w, Step(w, a));
    case Advance(i, fate, handedOut) => if IsAdvance(w, i) { AdvanceFollows(w, i, fate, handedOut); }
  }

  lemma {:induction false} RunFollows(w: World, actions: seq<Action>)
    requires Base(w) && DeletionFollowed(w) && RowsFollowed(w)
    ensures var after := Execute(w, actions); Base(after) && DeletionFollowed(after) && RowsFollowed(after)
    decreases |actions|
  {
    if actions != [] {
      StepKeeps(w, actions[0]);
      StepFollows(w, actions[0]);
      RunFollows(Step(w, actions[0]), actions[1..]);
    }
  }

  /** A put stores its secret unless it was refused; a secret nobody heard of is an orphan at once. */
  lemma PutOutcome(w: World, i: nat, fate: Fate, handedOut: Ref)
    requires i < |w.sagas| && w.sagas[i].Putting? && handedOut !in w.issued
    ensures var after := Step(w, Advance(i, fate, handedOut));
            && after.live == (if fate == Refused then w.live else w.live + {handedOut})
            && after.orphans == (if fate == LostReply then w.orphans + {handedOut} else w.orphans)
            && (fate == Done ==> after.sagas[i] == Setting(w.sagas[i].id, w.sagas[i].existing, handedOut))
            && (fate != Done ==> after.sagas[i] == Over)
            && after.profiles == w.profiles && after.cleanups == w.cleanups
  {}

  /** Over every interleaving: a displaced secret that still lives is about to be deleted by a running
      call, or was displaced by a commit whose answer was lost or kept by a deletion that was refused; and
      a cleanup row that is not complete is being completed, or such a failure has left it open. */
  lemma DisplacedSecretsAreFollowedUp(actions: seq<Action>)
    ensures var w := Execute(EMPTY, actions);
            && (forall r: Ref :: r in w.displaced && r in w.live ==> r in w.undeleted || BeingDeleted(w, r))
            && (forall k: nat :: k < |w.cleanups| && !w.cleanups[k].complete ==>
                  w.cleanups[k].reference in w.unfinished || BeingCompleted(w, k))
  {
    RunFollows(EMPTY, actions);
  }

  // ---------------------------------------------------------------------------------------------
  // Runs on which everything is answered
  // ---------------------------------------------------------------------------------------------

  predicate Answered(a: Action) { a.Advance? ==> a.fate == Done }

  /** Nothing was left behind, lost or left open. */
  predicate NothingLeft(w: World) { w.orphans == {} && w.undeleted == {} && w.unfinished == {} }

  lemma {:induction false} AnsweredRunLeavesNothing(w: World, actions: seq<Action>)
    requires NothingLeft(w) && forall a :: a in actions ==> Answered(a)
    ensures NothingLeft(Execute(w, actions))
    decreases |actions|
  {
    if actions != [] {
      assert Answered(actions[0]);
      AnsweredRunLeavesNothing(Step(w, actions[0]), actions[1..]);
    }
  }

  predicate Idle(w: World) { forall i :: 0 <= i < |w.sagas| ==> w.sagas[i] == Over }

  /** When every answer of store and database arrives and all calls are over, the store holds exactly the
      secrets that profiles refer to, and every cleanup row is complete. */
  lemma AnsweredRunsEndExact(actions: seq<Action>)
    requires (forall a :: a in actions ==> Answered(a)) && Idle(Execute(EMPTY, actions))
    ensures var w := Execute(EMPTY, actions);
            && (forall r: Ref :: r in w.live <==> InUse(w, r))
            && (forall k :: 0 <= k < |w.cleanups| ==> w.cleanups[k].complete)
  {
    RunFollows(EMPTY, actions);
    AnsweredRunLeavesNothing(EMPTY, actions);
    AnsweredRunIsAcknowledged(EMPTY, actions);
    AcknowledgedRunsStayLive(actions);
    LiveAtTheEnd(EMPTY, actions);
    CredentialsStayConsistent(actions);
  }

  lemma {:induction false} AnsweredRunIsAcknowledged(w: World, actions: seq<Action>)
    requires forall a :: a in actions ==> Answered(a)
    ensures Acknowledged(w, actions)
    decreases |actions|
  {
    if actions != [] {
      assert Answered(actions[0]);
      AnsweredRunIsAcknowledged(Step(w, actions[0]), actions[1..]);
    }
  }

  lemma {:induction false} LiveAtTheEnd(w: World, actions: seq<Action>)
    requires AlwaysLive(w, actions)
    ensures LiveOk(Execute(w, actions))
    decreases |actions|
  {
    if actions != [] { LiveAtTheEnd(Step(w, actions[0]), actions[1..]); }
  }
}
