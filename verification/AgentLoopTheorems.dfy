/** What the guard promises: the order in which tool results arrive does not matter, the limits hold
    over whole runs, nothing follows a terminal turn, and a result without its manifest is fatal. */
module AgentLoopTheorems {
  import opened Wrappers
  import opened AgentLoopSteps

  // ---------------------------------------------------------------------------------------------
  // Order independence
  // ---------------------------------------------------------------------------------------------

  /** Presents results one after the other; refused ones are simply reported and skipped. */
  function Feed(g: Guard, outcomes: seq<ToolOutcome>): Guard
    decreases |outcomes|
  {
    if outcomes == [] then g else Feed(ObserveResult(g, outcomes[0]).0, outcomes[1..])
  }

  /** The first result that answers the call. */
  function Answer(g: Guard, id: string, outcomes: seq<ToolOutcome>): (o: Option<ToolOutcome>)
    ensures o.Some? ==> o.value in outcomes && Answers(g, id, o.value)
    ensures o.None? ==> forall x :: x in outcomes ==> !Answers(g, id, x)
    decreases |outcomes|
  {
    if outcomes == [] then None
    else if Answers(g, id, outcomes[0]) then Some(outcomes[0])
    else Answer(g, id, outcomes[1..])
  }

  /** What has been collected for a call after any sequence of results: what was there before, or else
      the first answer, whose manifest is collected when it carries one and is missing for good when not. */
  lemma {:induction false} FeedCollectsFirstAnswers(g: Guard, outcomes: seq<ToolOutcome>, id: string)
    requires forall k :: k in g.transfers ==> k in g.outputs
    ensures var fed := Feed(g, outcomes);
            && fed == g.(outputs := fed.outputs, transfers := fed.transfers)
            && (forall k :: k in fed.transfers ==> k in fed.outputs)
            && (id in fed.outputs <==> id in g.outputs || Answer(g, id, outcomes).Some?)
            && (id in g.outputs ==>
                  && fed.outputs[id] == g.outputs[id]
                  && Collected(fed, id) == Collected(g, id))
            && (id !in g.outputs && Answer(g, id, outcomes).Some? ==>
                  && Some(fed.outputs[id]) == Answer(g, id, outcomes).value.input
                  && Collected(fed, id) == Answer(g, id, outcomes).value.manifest)
    decreases |outcomes|
  {
    if outcomes != [] {
      var next := ObserveResult(g, outcomes[0]).0;
      FeedCollectsFirstAnswers(next, outcomes[1..], id);
      SameAnswer(g, next, id, outcomes[1..]);
    }
  }

  /** The manifest collected for a call. */
  function Collected(g: Guard, id: string): Option<Manifest> {
    if id in g.transfers then Some(g.transfers[id]) else None
  }

  lemma {:induction false} SameAnswer(g: Guard, h: Guard, id: string, outcomes: seq<ToolOutcome>)
    requires g.pendingTools == h.pendingTools
    ensures Answer(g, id, outcomes) == Answer(h, id, outcomes)
    decreases |outcomes|
  {
    if outcomes != [] { SameAnswer(g, h, id, outcomes[1..]); }
  }

  /** A batch that has just been accepted. */
  ghost predicate NewBatch(c: Config, g: Guard) {
    Inv(c, g) && g.pendingOrder != [] && |g.outputs| == 0 && |g.transfers| == 0
  }

  lemma NothingCollected(g: Guard)
    requires |g.outputs| == 0 && |g.transfers| == 0
    ensures (forall k :: k !in g.outputs) && (forall k :: k !in g.transfers)
  {
    assert g.outputs.Keys == {} && g.transfers.Keys == {};
  }

  /** Every pending call has an answer among the results, and its first one carries a manifest. */
  predicate AllAnswered(g: Guard, outcomes: seq<ToolOutcome>) {
    forall id :: id in g.pendingOrder ==>
      Answer(g, id, outcomes).Some? && Answer(g, id, outcomes).value.manifest.Some?
  }

  /** The next turn's input is the first answer of every call, with its manifest, in the provider's order. */
  predicate ListsFirstAnswers(g: Guard, outcomes: seq<ToolOutcome>, next: Next) {
    && AllAnswered(g, outcomes)
    && Some(next.continuation) == g.pending && next.replay == g.replay
    && |next.input| == |next.transfers| == |g.pendingOrder|
    && forall i :: 0 <= i < |g.pendingOrder| ==>
         var id := g.pendingOrder[i];
         assert id in g.pendingOrder;
         && Some(next.input[i]) == Answer(g, id, outcomes).value.input
         && Some(next.transfers[i]) == Answer(g, id, outcomes).value.manifest
  }

  /** Whatever was presented in whatever order, the batch is complete exactly when the first answer of
      every pending call is there and carries a manifest, and the continuation then lists the first
      answers in call order. */
  lemma ContinuationListsFirstAnswers(c: Config, g: Guard, outcomes: seq<ToolOutcome>)
    requires NewBatch(c, g)
    ensures Inv(c, Feed(g, outcomes))
    ensures var fed := Feed(g, outcomes);
            && (BatchComplete(fed) <==> AllAnswered(g, outcomes))
            && (BatchComplete(fed) ==> Covered(fed) && ListsFirstAnswers(g, outcomes, BatchNext(fed)))
            && Continue(c, fed).1 == if BatchComplete(fed) && Reference(c, BatchNext(fed)).Some?
                                     then Ok(BatchNext(fed)) else Err(Conflict)
  {
    var fed := Feed(g, outcomes);
    NothingCollected(g);
    FeedKeeps(c, g, outcomes);
    FeedKeepsPending(g, outcomes);
    FeedCollectsFirstAnswers(g, outcomes, "");
    CompleteExactlyWhenCovered(c, fed);
    forall id | id in g.pendingOrder
      ensures id in fed.outputs <==> Answer(g, id, outcomes).Some?
      ensures id in fed.outputs ==>
                && Some(fed.outputs[id]) == Answer(g, id, outcomes).value.input
                && Collected(fed, id) == Answer(g, id, outcomes).value.manifest
    {
      FeedCollectsFirstAnswers(g, outcomes, id);
    }
    if BatchComplete(fed) {
      CompleteBatchCoversEveryCall(c, fed);
      FirstAnswersListed(g, outcomes, fed);
    }
  }

  lemma FirstAnswersListed(g: Guard, outcomes: seq<ToolOutcome>, fed: Guard)
    requires fed == g.(outputs := fed.outputs, transfers := fed.transfers) && Covered(fed) && fed.pending.Some?
    requires forall id :: id in g.pendingOrder ==>
               && Answer(g, id, outcomes).Some?
               && Some(fed.outputs[id]) == Answer(g, id, outcomes).value.input
               && Some(fed.transfers[id]) == Answer(g, id, outcomes).value.manifest
    ensures ListsFirstAnswers(g, outcomes, BatchNext(fed))
  {
    forall i | 0 <= i < |g.pendingOrder|
      ensures var id := g.pendingOrder[i];
              && id in g.pendingOrder
              && Some(BatchNext(fed).input[i]) == Answer(g, id, outcomes).value.input
              && Some(BatchNext(fed).transfers[i]) == Answer(g, id, outcomes).value.manifest
    {
      assert g.pendingOrder[i] in g.pendingOrder;
    }
  }

  lemma CompleteExactlyWhenCovered(c: Config, g: Guard)
    requires Inv(c, g) && g.pendingOrder != []
    ensures BatchComplete(g) <==> forall id :: id in g.pendingOrder ==> id in g.outputs && id in g.transfers
  {
    if BatchComplete(g) {
      CompleteBatchCoversEveryCall(c, g);
    } else if forall id :: id in g.pendingOrder ==> id in g.outputs && id in g.transfers {
      assert g.outputs.Keys == ToSet(g.pendingOrder) == g.transfers.Keys;
      DistinctCount(g.pendingOrder);
    }
  }

  lemma {:induction false} FeedKeeps(c: Config, g: Guard, outcomes: seq<ToolOutcome>)
    requires Inv(c, g)
    ensures Inv(c, Feed(g, outcomes))
    decreases |outcomes|
  {
    if outcomes != [] {
      ObserveResultKeeps(c, g, outcomes[0]);
      FeedKeeps(c, ObserveResult(g, outcomes[0]).0, outcomes[1..]);
    }
  }

  /** No two different results answer the same call. */
  predicate Unambiguous(g: Guard, outcomes: seq<ToolOutcome>) {
    forall x, y :: (x in outcomes && y in outcomes && x.callId == y.callId
                    && Answers(g, x.callId, x) && Answers(g, y.callId, y)) ==> x == y
  }

  lemma SameFirstAnswers(g: Guard, one: seq<ToolOutcome>, other: seq<ToolOutcome>, id: string)
    requires multiset(one) == multiset(other) && Unambiguous(g, one)
    ensures Answer(g, id, one) == Answer(g, id, other)
  {
    forall o ensures o in one <==> o in other {
      assert o in one <==> o in multiset(one);
    }
  }

  lemma SameCollection(g: Guard, one: seq<ToolOutcome>, other: seq<ToolOutcome>, id: string)
    requires (forall k :: k in g.transfers ==> k in g.outputs) && Answer(g, id, one) == Answer(g, id, other)
    ensures var fed, fed' := Feed(g, one), Feed(g, other);
            && (id in fed.outputs <==> id in fed'.outputs)
            && (id in fed.outputs ==> fed.outputs[id] == fed'.outputs[id])
            && Collected(fed, id) == Collected(fed', id)
  {
    FeedCollectsFirstAnswers(g, one, id);
    FeedCollectsFirstAnswers(g, other, id);
  }

  lemma SameState(g: Guard, fed: Guard, fed': Guard)
    requires fed == g.(outputs := fed.outputs, transfers := fed.transfers)
    requires fed' == g.(outputs := fed'.outputs, transfers := fed'.transfers)
    requires forall id :: id in fed.outputs <==> id in fed'.outputs
    requires forall id :: id in fed.outputs ==> fed.outputs[id] == fed'.outputs[id]
    requires forall id :: Collected(fed, id) == Collected(fed', id)
    ensures fed == fed'
  {
    assert fed.outputs == fed'.outputs;
    forall id ensures id in fed.transfers <==> id in fed'.transfers
              ensures id in fed.transfers ==> fed.transfers[id] == fed'.transfers[id]
    {
      assert Collected(fed, id) == Collected(fed', id);
    }
    assert fed.transfers == fed'.transfers;
  }

  /** Any two orders of the same results lead to the same state, and so to the same continuation. */
  lemma OrderOfResultsDoesNotMatter(c: Config, g: Guard, one: seq<ToolOutcome>, other: seq<ToolOutcome>)
    requires Inv(c, g) && multiset(one) == multiset(other) && Unambiguous(g, one)
    ensures Inv(c, Feed(g, one)) && Feed(g, one) == Feed(g, other)
    ensures Continue(c, Feed(g, one)) == Continue(c, Feed(g, other))
  {
    FeedKeeps(c, g, one);
    SameFeed(g, one, other);
  }

  lemma SameFeed(g: Guard, one: seq<ToolOutcome>, other: seq<ToolOutcome>)
    requires (forall k :: k in g.transfers ==> k in g.outputs) && multiset(one) == multiset(other) && Unambiguous(g, one)
    ensures Feed(g, one) == Feed(g, other)
  {
    var fed, fed' := Feed(g, one), Feed(g, other);
    forall id
      ensures id in fed.outputs <==> id in fed'.outputs
      ensures id in fed.outputs ==> fed.outputs[id] == fed'.outputs[id]
      ensures Collected(fed, id) == Collected(fed', id)
    {
      SameFirstAnswers(g, one, other, id);
      SameCollection(g, one, other, id);
    }
    FeedKeepsPending(g, one);
    FeedKeepsPending(g, other);
    SameState(g, fed, fed');
  }

  lemma {:induction false} FeedKeepsPending(g: Guard, outcomes: seq<ToolOutcome>)
    ensures var fed := Feed(g, outcomes); fed == g.(outputs := fed.outputs, transfers := fed.transfers)
    decreases |outcomes|
  {
    if outcomes != [] { FeedKeepsPending(ObserveResult(g, outcomes[0]).0, outcomes[1..]); }
  }

  // ---------------------------------------------------------------------------------------------
  // Whole runs
  // ---------------------------------------------------------------------------------------------

  datatype Event = SeeTurn(result: TurnResult) | SeeResult(outcome: ToolOutcome) | AskContinuation

  function Step(c: Config, g: Guard, e: Event): Guard
    requires Inv(c, g)
  {
    match e
    case SeeTurn(result) => ObserveTurn(c, g, result).0
    case SeeResult(outcome) => ObserveResult(g, outcome).0
    case AskContinuation => Continue(c, g).0
  }

  /** Calls of the turn, when the guard accepts it. */
  function AcceptedCalls(c: Config, g: Guard, e: Event): Option<nat> {
    if e.SeeTurn? && ObserveTurn(c, g, e.result).1.Ok? then Some(|e.result.calls|) else None
  }

  lemma StepKeeps(c: Config, g: Guard, e: Event)
    requires Inv(c, g)
    ensures Inv(c, Step(c, g, e))
  {
    match e
    case SeeTurn(result) => ObserveTurnKeeps(c, g, result);
    case SeeResult(outcome) => ObserveResultKeeps(c, g, outcome);
    case AskContinuation => ContinueKeeps(c, g);
  }

  function Run(c: Config, g: Guard, events: seq<Event>): (after: Guard)
    requires Inv(c, g)
    ensures Inv(c, after)
    decreases |events|
  {
    if events == [] then g
    else
      StepKeeps(c, g, events[0]);
      Run(c, Step(c, g, events[0]), events[1..])
  }

  function Counted(calls: Option<nat>, rest: (nat, nat)): (nat, nat) {
    if calls.Some? then (rest.0 + 1, rest.1 + calls.value) else rest
  }

  /** Accepted turns and accepted calls along a run. */
  function Accepted(c: Config, g: Guard, events: seq<Event>): (counts: (nat, nat))
    requires Inv(c, g)
    decreases |events|
  {
    if events == [] then (0, 0)
    else
      StepKeeps(c, g, events[0]);
      Counted(AcceptedCalls(c, g, events[0]), Accepted(c, Step(c, g, events[0]), events[1..]))
  }

  lemma StepCounts(c: Config, g: Guard, e: Event)
    requires Inv(c, g)
    ensures Inv(c, Step(c, g, e))
    ensures var calls := AcceptedCalls(c, g, e);
            && Step(c, g, e).providerTurns == g.providerTurns + (if calls.Some? then 1 else 0)
            && Step(c, g, e).totalToolCalls == g.totalToolCalls + (if calls.Some? then calls.value else 0)
  {
    StepKeeps(c, g, e);
  }

  /** The counters count exactly the accepted turns and calls, and no run ever exceeds the limits. */
  lemma {:induction false} RunsStayWithinTheLimits(c: Config, g: Guard, events: seq<Event>)
    requires Inv(c, g)
    ensures Run(c, g, events).providerTurns == g.providerTurns + Accepted(c, g, events).0
    ensures Run(c, g, events).totalToolCalls == g.totalToolCalls + Accepted(c, g, events).1
    ensures g.providerTurns + Accepted(c, g, events).0 <= c.limits.maximumProviderTurns
    ensures g.totalToolCalls + Accepted(c, g, events).1 <= c.limits.maximumTotalToolCalls
    decreases |events|
  {
    if events != [] {
      StepCounts(c, g, events[0]);
      RunsStayWithinTheLimits(c, Step(c, g, events[0]), events[1..]);
    }
  }

  /** After the terminal turn every observation is refused and nothing changes any more. */
  lemma {:induction false} NothingFollowsATerminalTurn(c: Config, g: Guard, events: seq<Event>)
    requires Inv(c, g) && g.terminal
    ensures Run(c, g, events) == g && Accepted(c, g, events) == (0, 0)
    ensures events != [] ==> match events[0] {
              case SeeTurn(result) => ObserveTurn(c, g, result).1.Err?
              case SeeResult(outcome) => ObserveResult(g, outcome).1.Err?
              case AskContinuation => Continue(c, g).1.Err?
            }
    decreases |events|
  {
    if events != [] { NothingFollowsATerminalTurn(c, g, events[1..]); }
  }

  // ---------------------------------------------------------------------------------------------
  // A result without its manifest
  // ---------------------------------------------------------------------------------------------

  /** Some call has an output and no manifest. */
  predicate Wedged(g: Guard, id: string) {
    id in g.outputs && id !in g.transfers && g.pendingOrder != []
  }

  /** An unanswered call is wedged by a result exactly when the result answers it without a manifest. */
  lemma ResultWedgesExactlyWhen(c: Config, g: Guard, o: ToolOutcome)
    requires Inv(c, g) && o.callId in g.pendingTools && o.callId !in g.outputs
    ensures Wedged(ObserveResult(g, o).0, o.callId) <==> Answers(g, o.callId, o) && o.manifest.None?
    ensures Wedged(ObserveResult(g, o).0, o.callId) ==> ObserveResult(g, o).1 == Err(EgressDenied)
  {
    assert o.callId in g.pendingOrder;
  }

  lemma WedgedStep(c: Config, g: Guard, id: string, e: Event)
    requires Inv(c, g) && Wedged(g, id)
    ensures Wedged(Step(c, g, e), id)
    ensures match e {
              case SeeTurn(result) => ObserveTurn(c, g, result).1.Err?
              case SeeResult(outcome) => outcome.callId == id ==> ObserveResult(g, outcome).1 == Err(Conflict)
              case AskContinuation => Continue(c, g).1.Err?
            }
  {
    if BatchComplete(g) {
      CompleteBatchCoversEveryCall(c, g);
    }
  }

  /** A wedged guard never recovers: not by the same result with its manifest, not by anything else. */
  lemma {:induction false} WedgedForever(c: Config, g: Guard, id: string, events: seq<Event>)
    requires Inv(c, g) && Wedged(g, id)
    ensures Wedged(Run(c, g, events), id) && Accepted(c, g, events) == (0, 0)
    ensures Continue(c, Run(c, g, events)).1.Err?
    decreases |events|
  {
    if events == [] {
      WedgedStep(c, g, id, AskContinuation);
    } else {
      StepKeeps(c, g, events[0]);
      WedgedStep(c, g, id, events[0]);
      WedgedForever(c, Step(c, g, events[0]), id, events[1..]);
    }
  }
}
