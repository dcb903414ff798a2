/** The sequencing guard of one claimed run attempt: what each observation does to its state. */
module AgentLoopSteps {
  import opened Wrappers

  /** Session, run, attempt and lease generation of the claim the guard is bound to. */
  datatype Fence = Fence(session: nat, run: nat, attempt: nat, leaseGeneration: int)

  datatype Limits = Limits(maximumProviderTurns: nat, maximumTotalToolCalls: nat)

  type Manifest = nat

  datatype Block =
    | Text(text: string)
    | Json(value: string)
    | Attachment(reference: string)
    | ToolResult(callId: string, toolId: string, output: string)

  /** The stateless conversation is opaque here; `Transcript` looks inside. */
  datatype Continuation = ProviderResponse(responseId: string) | StatelessConversation(conversation: string)

  datatype Error = Conflict | EgressDenied | ProviderFailed

  datatype Call = Call(callId: string, toolId: string)

  datatype TurnResult = TurnResult(
    fence: Fence, previous: Option<string>, calls: seq<Call>, next: Result<Continuation, Error>, replay: seq<Manifest>)

  /** A durable tool result. The tool services attach a manifest whenever they attach model input. */
  datatype ToolOutcome = ToolOutcome(callId: string, input: Option<Block>, manifest: Option<Manifest>)

  datatype Turn = Completed | ToolCalls(index: nat, count: nat)

  datatype Next = Next(continuation: Continuation, input: seq<Block>, transfers: seq<Manifest>, replay: seq<Manifest>)

  datatype Config = Config(fence: Fence, limits: Limits, chain: (Continuation, seq<Block>) -> Option<string>)

  datatype Guard = Guard(
    providerTurns: nat,
    totalToolCalls: nat,
    expected: Option<string>,
    pendingOrder: seq<string>,
    pendingTools: map<string, string>,
    outputs: map<string, Block>,
    transfers: map<string, Manifest>,
    pending: Option<Continuation>,
    replay: seq<Manifest>,
    terminal: bool)

  const FRESH_GUARD := Guard(0, 0, None, [], map[], map[], map[], None, [], false)

  // ---------------------------------------------------------------------------------------------
  // Batches of calls
  // ---------------------------------------------------------------------------------------------

  predicate Distinct(ids: seq<string>) {
    forall i, j :: 0 <= i < j < |ids| ==> ids[i] != ids[j]
  }

  function CallIds(calls: seq<Call>): (ids: seq<string>)
    ensures |ids| == |calls| && forall i :: 0 <= i < |calls| ==> ids[i] == calls[i].callId
  {
    seq(|calls|, i requires 0 <= i < |calls| => calls[i].callId)
  }

  function Tools(calls: seq<Call>): (tools: map<string, string>)
    ensures forall id :: id in tools <==> id in CallIds(calls)
  {
    if calls == [] then map[]
    else
      var last := |calls| - 1;
      assert CallIds(calls) == CallIds(calls[..last]) + [calls[last].callId];
      Tools(calls[..last])[calls[last].callId := calls[last].toolId]
  }

  // ---------------------------------------------------------------------------------------------
  // The invariant
  // ---------------------------------------------------------------------------------------------

  ghost predicate Inv(c: Config, g: Guard) {
    && g.providerTurns <= c.limits.maximumProviderTurns
    && g.totalToolCalls <= c.limits.maximumTotalToolCalls
    && Distinct(g.pendingOrder)
    && (forall id :: id in g.pendingTools <==> id in g.pendingOrder)
    && (forall id :: id in g.outputs ==> id in g.pendingTools && g.outputs[id].ToolResult?
                                         && g.outputs[id].callId == id && g.outputs[id].toolId == g.pendingTools[id])
    && (forall id :: id in g.transfers ==> id in g.outputs)
    && (g.pending.Some? <==> g.pendingOrder != [])
    && (g.terminal ==> g.pendingOrder == [])
  }

  predicate BatchComplete(g: Guard) {
    g.pendingOrder != [] && |g.outputs| == |g.pendingOrder| == |g.transfers| && g.pending.Some?
  }

  function ToSet(ids: seq<string>): (s: set<string>)
    ensures forall id :: id in s <==> id in ids
  {
    set id | id in ids
  }

  lemma {:induction false} DistinctCount(ids: seq<string>)
    requires Distinct(ids)
    ensures |ToSet(ids)| == |ids|
  {
    if ids != [] {
      var last := |ids| - 1;
      DistinctCount(ids[..last]);
      assert ToSet(ids) == ToSet(ids[..last]) + {ids[last]};
    } else {
      assert ToSet(ids) == {};
    }
  }

  lemma SubsetOfSameSize(small: set<string>, big: set<string>)
    requires small <= big && |small| == |big|
    ensures small == big
  {
    if extra :| extra in big && extra !in small {
      SubsetIsSmaller(small, big - {extra});
    } else {
      assert big <= small;
    }
  }

  lemma {:induction false} SubsetIsSmaller(small: set<string>, big: set<string>)
    requires small <= big
    ensures |small| <= |big|
    decreases |small|
  {
    if small != {} {
      var x :| x in small;
      SubsetIsSmaller(small - {x}, big - {x});
    }
  }

  /** The length checks of `continuation` already guarantee that no lookup behind them can fail. */
  lemma CompleteBatchCoversEveryCall(c: Config, g: Guard)
    requires Inv(c, g) && BatchComplete(g)
    ensures forall id :: id in g.pendingOrder <==> id in g.outputs
    ensures forall id :: id in g.pendingOrder <==> id in g.transfers
  {
    DistinctCount(g.pendingOrder);
    var order := ToSet(g.pendingOrder);
    assert |g.outputs.Keys| == |g.outputs| && |g.transfers.Keys| == |g.transfers|;
    SubsetOfSameSize(g.outputs.Keys, order);
    SubsetOfSameSize(g.transfers.Keys, order);
  }

  // ---------------------------------------------------------------------------------------------
  // Observations
  // ---------------------------------------------------------------------------------------------

  predicate TurnExpected(c: Config, g: Guard, r: TurnResult) {
    && !g.terminal && g.pendingOrder == [] && |g.outputs| == 0 && |g.transfers| == 0
    && r.fence == c.fence && r.previous == g.expected
    && g.providerTurns < c.limits.maximumProviderTurns
  }

  function Enqueued(g: Guard, calls: seq<Call>): Guard {
    g.(pendingOrder := g.pendingOrder + CallIds(calls), pendingTools := g.pendingTools + Tools(calls))
  }

  lemma EnqueuedNothing(g: Guard)
    ensures Enqueued(g, []) == g
  {
    assert CallIds([]) == [];
  }

  lemma EnqueuedNext(g: Guard, calls: seq<Call>, i: nat)
    requires i < |calls|
    ensures var before := Enqueued(g, calls[..i]);
            Enqueued(g, calls[..i + 1])
            == before.(pendingOrder := before.pendingOrder + [calls[i].callId],
                       pendingTools := before.pendingTools[calls[i].callId := calls[i].toolId])
  {
    assert calls[..i + 1][..i] == calls[..i];
    assert CallIds(calls[..i + 1]) == CallIds(calls[..i]) + [calls[i].callId];
    assert Tools(calls[..i + 1]) == Tools(calls[..i])[calls[i].callId := calls[i].toolId];
    assert g.pendingOrder + CallIds(calls[..i + 1]) == g.pendingOrder + CallIds(calls[..i]) + [calls[i].callId];
    assert g.pendingTools + Tools(calls[..i + 1])
        == (g.pendingTools + Tools(calls[..i]))[calls[i].callId := calls[i].toolId];
  }

  function Accepted(g: Guard, count: nat, next: Continuation, replay: seq<Manifest>): Guard {
    g.(providerTurns := g.providerTurns + 1, totalToolCalls := g.totalToolCalls + count,
       replay := if next.ProviderResponse? then [] else replay, pending := Some(next))
  }

  function ObserveTurn(c: Config, g: Guard, r: TurnResult): (Guard, Result<Turn, Error>) {
    if !TurnExpected(c, g, r) then (g, Err(Conflict))
    else if r.calls == [] then (g.(providerTurns := g.providerTurns + 1, terminal := true), Ok(Completed))
    else if c.limits.maximumTotalToolCalls < g.totalToolCalls + |r.calls| then (g, Err(Conflict))
    else if r.next.Err? then (g, Err(r.next.error))
    else if !Distinct(CallIds(r.calls)) then (g, Err(Conflict))
    else
      (Accepted(Enqueued(g, r.calls), |r.calls|, r.next.value, r.replay), Ok(ToolCalls(g.providerTurns, |r.calls|)))
  }

  /** The result answers this pending call with input of the right shape. */
  predicate Answers(g: Guard, id: string, o: ToolOutcome) {
    && o.callId == id && id in g.pendingTools
    && o.input.Some? && o.input.value.ToolResult?
    && o.input.value.callId == id && o.input.value.toolId == g.pendingTools[id]
  }

  /** The output is stored before the manifest is asked for. */
  function ObserveResult(g: Guard, o: ToolOutcome): (Guard, Result<(), Error>) {
    if o.callId !in g.pendingTools || o.callId in g.outputs then (g, Err(Conflict))
    else if o.input.None? then (g, Err(EgressDenied))
    else if !Answers(g, o.callId, o) then (g, Err(Conflict))
    else
      var stored := g.(outputs := g.outputs[o.callId := o.input.value]);
      if o.manifest.None? then (stored, Err(EgressDenied))
      else (stored.(transfers := g.transfers[o.callId := o.manifest.value]), Ok(()))
  }

  ghost predicate Covered(g: Guard) {
    (forall id :: id in g.pendingOrder <==> id in g.outputs) && (forall id :: id in g.pendingOrder <==> id in g.transfers)
  }

  function BatchNext(g: Guard): Next
    requires Covered(g) && g.pending.Some?
  {
    Next(g.pending.value, Collect(g.pendingOrder, g.outputs), Collect(g.pendingOrder, g.transfers), g.replay)
  }

  function Taken(g: Guard): Guard {
    g.(outputs := g.outputs - ToSet(g.pendingOrder), transfers := g.transfers - ToSet(g.pendingOrder))
  }

  function Forgotten(g: Guard): Guard {
    g.(pendingOrder := [], pendingTools := map[], pending := None, replay := [])
  }

  function Reference(c: Config, next: Next): Option<string> {
    c.chain(next.continuation, next.input)
  }

  function Continue(c: Config, g: Guard): (Guard, Result<Next, Error>)
    requires Inv(c, g)
  {
    if !BatchComplete(g) then (g, Err(Conflict))
    else
      CompleteBatchCoversEveryCall(c, g);
      var next := BatchNext(g);
      var reference := Reference(c, next);
      if reference.None? then (Forgotten(Taken(g)), Err(Conflict)) else (Forgotten(Taken(g)).(expected := reference), Ok(next))
  }

  /** The values in the order of the keys. */
  function Collect<T>(order: seq<string>, m: map<string, T>): (values: seq<T>)
    requires forall id :: id in order ==> id in m
    ensures |values| == |order| && forall i :: 0 <= i < |order| ==> values[i] == m[order[i]]
  {
    seq(|order|, i requires 0 <= i < |order| => assert order[i] in order; m[order[i]])
  }

  lemma ObserveTurnKeeps(c: Config, g: Guard, r: TurnResult)
    requires Inv(c, g)
    ensures Inv(c, ObserveTurn(c, g, r).0)
  {
    assert [] + CallIds(r.calls) == CallIds(r.calls);
  }

  lemma ObserveResultKeeps(c: Config, g: Guard, o: ToolOutcome)
    requires Inv(c, g)
    ensures Inv(c, ObserveResult(g, o).0)
  {}

  lemma ContinueKeeps(c: Config, g: Guard)
    requires Inv(c, g)
    ensures Inv(c, Continue(c, g).0)
  {}
}
