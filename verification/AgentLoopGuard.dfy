/** The guard as the run loop holds it: one object, updated in place by every observation. */
module AgentLoopGuard {
  import opened Wrappers
  import opened AgentLoopSteps
  import opened References
  import Steps = AgentLoopSteps

  class LoopGuard {
    const config: Config
    var providerTurns: nat
    var totalToolCalls: nat
    var expected: Option<string>
    var pendingOrder: seq<string>
    var pendingTools: map<string, string>
    var outputs: map<string, Block>
    var transfers: map<string, Manifest>
    var pending: Option<Continuation>
    var replay: seq<Manifest>
    var terminal: bool

    constructor (config: Config)
      ensures this.config == config && View() == FRESH_GUARD && Steps.Inv(config, View())
    {
      this.config := config;
      providerTurns, totalToolCalls, expected := 0, 0, None;
      pendingOrder, pendingTools, outputs, transfers := [], map[], map[], map[];
      pending, replay, terminal := None, [], false;
    }

    /** `resume_after_tool_batch`: rebuilds the guard behind a committed tool batch. */
    static method Resume(config: Config, turns: nat, calls: nat, reference: string)
      returns (r: Result<LoopGuard, Error>)
      ensures r.Ok? <==> 0 < turns <= config.limits.maximumProviderTurns && 0 < calls <= config.limits.maximumTotalToolCalls
                         && ValidReference(reference)
      ensures r.Err? ==> r.error == Conflict
      ensures r.Ok? ==> fresh(r.value) && r.value.config == config && r.value.Valid()
                        && r.value.View() == FRESH_GUARD.(providerTurns := turns, totalToolCalls := calls,
                                                          expected := Some(reference))
    {
      if turns == 0 || config.limits.maximumProviderTurns < turns || calls == 0
         || config.limits.maximumTotalToolCalls < calls || !ValidReference(reference) {
        return Err(Conflict);
      }
      var guard := new LoopGuard(config);
      guard.providerTurns, guard.totalToolCalls, guard.expected := turns, calls, Some(reference);
      return Ok(guard);
    }

    function View(): Guard
      reads this
    {
      Guard(providerTurns, totalToolCalls, expected, pendingOrder, pendingTools, outputs, transfers, pending, replay, terminal)
    }

    ghost predicate Valid()
      reads this
    {
      Steps.Inv(config, View())
    }

    /** Whether no call identifier occurs twice; found out with a growing set. */
    static method AllDistinct(calls: seq<Call>) returns (distinct: bool)
      ensures distinct <==> Distinct(CallIds(calls))
    {
      var seen: set<string> := {};
      for i := 0 to |calls|
        invariant forall id :: id in seen <==> id in CallIds(calls)[..i]
        invariant Distinct(CallIds(calls)[..i])
      {
        if calls[i].callId in seen {
          var k :| 0 <= k < i && CallIds(calls)[..i][k] == CallIds(calls)[i];
          return false;
        }
        assert CallIds(calls)[..i + 1] == CallIds(calls)[..i] + [calls[i].callId];
        seen := seen + {calls[i].callId};
      }
      assert CallIds(calls)[..|calls|] == CallIds(calls);
      return true;
    }

    method ObserveTurn(result: TurnResult) returns (r: Result<Turn, Error>)
      requires Valid()
      modifies this
      ensures Valid() && (View(), r) == Steps.ObserveTurn(config, old(View()), result)
    {
      ObserveTurnKeeps(config, View(), result);
      if terminal || pendingOrder != [] || |outputs| != 0 || |transfers| != 0 || result.fence != config.fence
         || result.previous != expected || config.limits.maximumProviderTurns <= providerTurns {
        return Err(Conflict);
      }
      var index := providerTurns;
      if result.calls == [] {
        providerTurns := providerTurns + 1;
        terminal := true;
        return Ok(Completed);
      }
      if config.limits.maximumTotalToolCalls < totalToolCalls + |result.calls| {
        return Err(Conflict);
      }
      if result.next.Err? {
        return Err(result.next.error);
      }
      var distinct := AllDistinct(result.calls);
      if !distinct {
        return Err(Conflict);
      }
      Enqueue(result.calls);
      Accept(|result.calls|, result.next.value, result.replay);
      return Ok(ToolCalls(index, |result.calls|));
    }

    /** Counts the turn and its calls and keeps what the continuation will need. */
    method Accept(count: nat, next: Continuation, replayed: seq<Manifest>)
      modifies this
      ensures View() == Accepted(old(View()), count, next, replayed)
    {
      providerTurns := providerTurns + 1;
      totalToolCalls := totalToolCalls + count;
      replay := if next.ProviderResponse? then [] else replayed;
      pending := Some(next);
    }

    method Enqueue(calls: seq<Call>)
      modifies this`pendingOrder, this`pendingTools
      ensures View() == Enqueued(old(View()), calls)
    {
      ghost var g := View();
      EnqueuedNothing(g);
      for i := 0 to |calls|
        invariant View() == Enqueued(g, calls[..i])
      {
        EnqueuedNext(g, calls, i);
        pendingOrder := pendingOrder + [calls[i].callId];
        pendingTools := pendingTools[calls[i].callId := calls[i].toolId];
      }
      assert calls[..|calls|] == calls;
    }

    method ObserveResult(outcome: ToolOutcome) returns (r: Result<(), Error>)
      requires Valid()
      modifies this`outputs, this`transfers
      ensures Valid() && (View(), r) == Steps.ObserveResult(old(View()), outcome)
    {
      ObserveResultKeeps(config, View(), outcome);
      if outcome.callId !in pendingTools || outcome.callId in outputs {
        return Err(Conflict);
      }
      if outcome.input.None? {
        return Err(EgressDenied);
      }
      var input := outcome.input.value;
      if !(input.ToolResult? && input.callId == outcome.callId && input.toolId == pendingTools[outcome.callId]) {
        return Err(Conflict);
      }
      outputs := outputs[outcome.callId := input];
      if outcome.manifest.None? {
        return Err(EgressDenied);
      }
      transfers := transfers[outcome.callId := outcome.manifest.value];
      return Ok(());
    }

    static lemma Removing<T>(order: seq<string>, i: nat, m: map<string, T>)
      requires Distinct(order) && i < |order|
      requires forall id :: id in order <==> id in m
      ensures order[i] in m - ToSet(order[..i])
      ensures m - ToSet(order[..i]) - {order[i]} == m - ToSet(order[..i + 1])
      ensures Collect(order, m)[..i + 1] == Collect(order, m)[..i] + [m[order[i]]]
    {
      assert order[i] in order && order[i] !in order[..i];
      assert order[..i + 1] == order[..i] + [order[i]];
    }

    /** Takes outputs and manifests out in call order; none of these lookups can fail. */
    method TakeOutputs() returns (input: seq<Block>, manifests: seq<Manifest>)
      requires Distinct(pendingOrder)
      requires forall id :: id in pendingOrder <==> id in outputs
      requires forall id :: id in pendingOrder <==> id in transfers
      modifies this`outputs, this`transfers
      ensures View() == Taken(old(View()))
      ensures input == Collect(pendingOrder, old(outputs)) && manifests == Collect(pendingOrder, old(transfers))
    {
      input, manifests := [], [];
      var order := pendingOrder;
      for i := 0 to |order|
        invariant outputs == old(outputs) - ToSet(order[..i]) && transfers == old(transfers) - ToSet(order[..i])
        invariant input == Collect(order, old(outputs))[..i] && manifests == Collect(order, old(transfers))[..i]
      {
        var id := order[i];
        Removing(order, i, old(outputs));
        Removing(order, i, old(transfers));
        input := input + [outputs[id]];
        manifests := manifests + [transfers[id]];
        outputs := outputs - {id};
        transfers := transfers - {id};
      }
      assert order[..|order|] == order;
      assert View() == Taken(old(View()));
    }

    /** Forgets the batch and expects the next turn to chain to it. */
    method Advance(next: Next) returns (r: Result<Next, Error>)
      modifies this
      ensures View() == Forgotten(old(View())).(expected := if r.Ok? then Reference(config, next) else old(expected))
      ensures r == if Reference(config, next).Some? then Ok(next) else Err(Conflict)
    {
      pendingOrder, pendingTools, pending, replay := [], map[], None, [];
      var reference := Reference(config, next);
      if reference.None? {
        return Err(Conflict);
      }
      expected := reference;
      return Ok(next);
    }

    /** Hands out the next turn's input, complete and in the provider's call order. */
    method Continue() returns (r: Result<Next, Error>)
      requires Valid()
      modifies this
      ensures Valid() && (View(), r) == Steps.Continue(config, old(View()))
    {
      ContinueKeeps(config, View());
      if pendingOrder == [] || |outputs| != |pendingOrder| || |transfers| != |pendingOrder| || pending.None? {
        return Err(Conflict);
      }
      CompleteBatchCoversEveryCall(config, View());
      var input, manifests := TakeOutputs();
      r := Advance(Next(pending.value, input, manifests, replay));
    }
  }
}
