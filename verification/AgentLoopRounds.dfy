/** One round of the loop from the accepted turn to the next turn's input, and the chain the rounds form. */
module AgentLoopRounds {
  import opened Wrappers
  import opened AgentLoopSteps
  import opened AgentLoopTheorems

  /** A turn is accepted exactly when it is the next one of this claim and chain, within the limits, with
      distinct calls and material to continue from. */
  lemma TurnAcceptedExactly(c: Config, g: Guard, r: TurnResult)
    requires Inv(c, g)
    ensures var (after, result) := ObserveTurn(c, g, r);
            && (result.Ok? <==>
                  && !g.terminal && g.pendingOrder == [] && r.fence == c.fence && r.previous == g.expected
                  && g.providerTurns < c.limits.maximumProviderTurns
                  && (r.calls == []
                      || (&& g.totalToolCalls + |r.calls| <= c.limits.maximumTotalToolCalls && r.next.Ok?
                          && forall i, j :: 0 <= i < j < |r.calls| ==> r.calls[i].callId != r.calls[j].callId)))
            && (result.Ok? ==>
                  && result.value == (if r.calls == [] then Completed else ToolCalls(g.providerTurns, |r.calls|))
                  && after.terminal == (r.calls == []) && after.providerTurns == g.providerTurns + 1
                  && after.totalToolCalls == g.totalToolCalls + |r.calls|)
            && (result.Err? ==> after == g)
  {
    if g.pendingOrder == [] {
      assert g.pendingTools.Keys == {} && g.outputs.Keys == {} && g.transfers.Keys == {};
    }
    var ids := CallIds(r.calls);
    if forall i, j :: 0 <= i < j < |r.calls| ==> r.calls[i].callId != r.calls[j].callId {
      assert Distinct(ids);
    } else {
      var i, j :| 0 <= i < j < |r.calls| && r.calls[i].callId == r.calls[j].callId;
      assert ids[i] == ids[j];
    }
  }

  lemma {:induction false} ToolOfCall(calls: seq<Call>, i: nat)
    requires Distinct(CallIds(calls)) && i < |calls|
    ensures Tools(calls)[calls[i].callId] == calls[i].toolId
    decreases |calls|
  {
    var last := |calls| - 1;
    var front := calls[..last];
    assert CallIds(calls) == CallIds(front) + [calls[last].callId];
    if i < last {
      assert CallIds(calls)[i] != CallIds(calls)[last];
      assert forall k :: 0 <= k < last ==> CallIds(front)[k] == CallIds(calls)[k];
      ToolOfCall(front, i);
    }
  }

  /** Queued after an accepted turn: exactly its calls, in order, each with its tool. */
  lemma TurnQueuesItsCalls(c: Config, g: Guard, r: TurnResult)
    requires Inv(c, g) && ObserveTurn(c, g, r).1.Ok? && r.calls != []
    ensures var after := ObserveTurn(c, g, r).0;
            && NewBatch(c, after) && |after.pendingOrder| == |r.calls|
            && (forall i :: 0 <= i < |r.calls| ==>
                  && after.pendingOrder[i] == r.calls[i].callId
                  && r.calls[i].callId in after.pendingTools
                  && after.pendingTools[r.calls[i].callId] == r.calls[i].toolId)
            && after.pending == Some(r.next.value)
            && after.replay == if r.next.value.StatelessConversation? then r.replay else []
  {
    var after := ObserveTurn(c, g, r).0;
    ObserveTurnKeeps(c, g, r);
    assert g.pendingTools.Keys == {} && g.pendingTools == map[];
    assert [] + CallIds(r.calls) == CallIds(r.calls);
    forall i | 0 <= i < |r.calls|
      ensures r.calls[i].callId in after.pendingTools && after.pendingTools[r.calls[i].callId] == r.calls[i].toolId
    {
      assert CallIds(r.calls)[i] == r.calls[i].callId;
      ToolOfCall(r.calls, i);
    }
  }

  /** A result is taken exactly when it is the first for a pending call, comes from the right tool with
      model input, and brings its manifest. Without input or manifest it is denied, otherwise a conflict. */
  lemma ResultOutcome(g: Guard, o: ToolOutcome)
    ensures var (after, result) := ObserveResult(g, o);
            var open := o.callId in g.pendingTools && o.callId !in g.outputs;
            var fits := o.input.Some? && o.input.value.ToolResult? && o.input.value.callId == o.callId
                        && o.callId in g.pendingTools && o.input.value.toolId == g.pendingTools[o.callId];
            && (result.Ok? <==> open && fits && o.manifest.Some?)
            && (result == Err(EgressDenied) <==> open && (o.input.None? || (fits && o.manifest.None?)))
            && (result == Err(Conflict) <==> !open || (o.input.Some? && !fits))
            && after == g.(outputs := if open && fits then g.outputs[o.callId := o.input.value] else g.outputs,
                           transfers := if result.Ok? then g.transfers[o.callId := o.manifest.value] else g.transfers)
  {}

  /** This result is the first that answers the call, and it became this input and this manifest. */
  predicate AnsweredBy(call: Call, o: ToolOutcome, input: Block, manifest: Manifest) {
    && o.callId == call.callId && o.input == Some(input) && o.manifest == Some(manifest)
    && input.ToolResult? && input.callId == call.callId && input.toolId == call.toolId
  }

  predicate IsAnswered(call: Call, outcomes: seq<ToolOutcome>, input: Block, manifest: Manifest) {
    exists o :: o in outcomes && AnsweredBy(call, o, input, manifest)
  }

  /** A continuation that is handed out leaves nothing but the counters and the reference to chain to. */
  lemma AfterContinuing(c: Config, g: Guard)
    requires Inv(c, g) && Continue(c, g).1.Ok?
    ensures var (after, next) := Continue(c, g);
            && after == FRESH_GUARD.(providerTurns := g.providerTurns, totalToolCalls := g.totalToolCalls,
                                     expected := c.chain(next.value.continuation, next.value.input))
            && after.expected.Some?
  {
    CompleteBatchCoversEveryCall(c, g);
    assert g.outputs - ToSet(g.pendingOrder) == map[] && g.transfers - ToSet(g.pendingOrder) == map[];
  }

  /** A whole round: the next turn continues the accepted one, replays its transfers when the conversation
      is stateless, and carries for each of its calls, in order, a presented result of the right tool with
      the manifest it came with. */
  lemma RoundContinuesTheTurn(c: Config, g: Guard, r: TurnResult, outcomes: seq<ToolOutcome>)
    requires Inv(c, g) && ObserveTurn(c, g, r).1.Ok? && r.calls != []
    ensures var fed := Feed(ObserveTurn(c, g, r).0, outcomes);
            && Inv(c, fed)
            && var (after, next) := Continue(c, fed);
            next.Ok? ==>
              && next.value.continuation == r.next.value
              && next.value.replay == (if r.next.value.StatelessConversation? then r.replay else [])
              && |next.value.input| == |r.calls| && |next.value.transfers| == |r.calls|
              && (forall i :: 0 <= i < |r.calls| ==>
                    IsAnswered(r.calls[i], outcomes, next.value.input[i], next.value.transfers[i]))
              && after.expected == c.chain(r.next.value, next.value.input) && after.expected.Some?
              && after == FRESH_GUARD.(providerTurns := g.providerTurns + 1, totalToolCalls := g.totalToolCalls + |r.calls|,
                                       expected := after.expected)
  {
    var accepted := ObserveTurn(c, g, r).0;
    TurnQueuesItsCalls(c, g, r);
    TurnAcceptedExactly(c, g, r);
    hide ObserveTurn, Continue;
    ContinuationListsFirstAnswers(c, accepted, outcomes);
    FeedKeepsPending(accepted, outcomes);
    var fed := Feed(accepted, outcomes);
    if Continue(c, fed).1.Ok? {
      AfterContinuing(c, fed);
      InputAnswersTheCalls(accepted, r.calls, outcomes, Continue(c, fed).1.value);
    }
  }

  lemma InputAnswersTheCalls(g: Guard, calls: seq<Call>, outcomes: seq<ToolOutcome>, next: Next)
    requires ListsFirstAnswers(g, outcomes, next) && |g.pendingOrder| == |calls|
    requires forall i :: 0 <= i < |calls| ==>
               && g.pendingOrder[i] == calls[i].callId && calls[i].callId in g.pendingTools
               && g.pendingTools[calls[i].callId] == calls[i].toolId
    ensures |next.input| == |calls| && |next.transfers| == |calls|
    ensures forall i :: 0 <= i < |calls| ==>
              IsAnswered(calls[i], outcomes, next.input[i], next.transfers[i])
  {
    forall i | 0 <= i < |calls|
      ensures IsAnswered(calls[i], outcomes, next.input[i], next.transfers[i])
    {
      var id := g.pendingOrder[i];
      assert id in g.pendingOrder;
      var o := Answer(g, id, outcomes).value;
      assert calls[i].callId == id && g.pendingTools[id] == calls[i].toolId;
      assert Some(next.input[i]) == o.input && Some(next.transfers[i]) == o.manifest;
      assert o in outcomes && AnsweredBy(calls[i], o, next.input[i], next.transfers[i]);
    }
  }

  /** The chain reference of the last continuation that was handed out along a run. */
  function LastReference(c: Config, g: Guard, events: seq<Event>): Option<string>
    requires Inv(c, g)
    decreases |events|
  {
    if events == [] then g.expected
    else
      StepKeeps(c, g, events[0]);
      var after := Step(c, g, events[0]);
      LastReference(c, after.(expected := Handed(c, g, events[0])), events[1..])
  }

  /** What the next turn has to refer to after one event: only a continuation handed out changes it. */
  function Handed(c: Config, g: Guard, e: Event): Option<string>
    requires Inv(c, g)
  {
    match e
    case SeeTurn(_) => g.expected
    case SeeResult(_) => g.expected
    case AskContinuation =>
      var next := Continue(c, g).1;
      if next.Ok? then c.chain(next.value.continuation, next.value.input) else g.expected
  }

  lemma {:induction false} ExpectedIsTheLastReference(c: Config, g: Guard, events: seq<Event>)
    requires Inv(c, g)
    ensures Run(c, g, events).expected == LastReference(c, g, events)
    decreases |events|
  {
    if events != [] {
      StepKeeps(c, g, events[0]);
      var after := Step(c, g, events[0]);
      HandedIsExpected(c, g, events[0]);
      assert after.(expected := Handed(c, g, events[0])) == after;
      ExpectedIsTheLastReference(c, after, events[1..]);
    }
  }

  lemma HandedIsExpected(c: Config, g: Guard, e: Event)
    requires Inv(c, g)
    ensures Step(c, g, e).expected == Handed(c, g, e)
  {}

  /** Over any run: an accepted turn belongs to this claim and refers to the last continuation handed out,
      or to none when it is the first. */
  lemma TurnsFormOneChain(c: Config, events: seq<Event>, r: TurnResult)
    requires Inv(c, FRESH_GUARD)
    ensures ObserveTurn(c, Run(c, FRESH_GUARD, events), r).1.Ok? ==>
              r.fence == c.fence && r.previous == LastReference(c, FRESH_GUARD, events)
    ensures LastReference(c, FRESH_GUARD, []) == None
  {
    ExpectedIsTheLastReference(c, FRESH_GUARD, events);
  }
}
