/** The transcript parser as it runs. */
module TranscriptParser {
  import opened Wrappers
  import opened AgentLoopSteps
  import opened References
  import opened Transcript
  import Grammar = Transcript

  /** Queues the calls of one assistant turn; identifiers are collected in a set. */
  method QueueCalls(calls: seq<ToolCall>, known: set<string>, ghost order: seq<string>)
    returns (ok: bool, ids: set<string>, queued: seq<(nat, ToolCall)>)
    requires Distinct(order) && known == ToSet(order)
    ensures ok <==> (forall c :: c in calls ==> ValidCall(c)) && Distinct(order + Ids(calls))
    ensures ok ==> ids == ToSet(order + Ids(calls)) && queued == Indexed(calls)
  {
    ids, queued := known, [];
    for i := 0 to |calls|
      invariant Distinct(order + Ids(calls)[..i]) && ids == ToSet(order + Ids(calls)[..i])
      invariant forall c :: c in calls[..i] ==> ValidCall(c)
      invariant queued == Indexed(calls)[..i]
    {
      var call := calls[i];
      if !ValidCall(call) {
        assert call in calls;
        return false, ids, queued;
      }
      if call.callId in ids {
        RepeatedId(order, Ids(calls), i);
        return false, ids, queued;
      }
      assert order + Ids(calls)[..i + 1] == (order + Ids(calls)[..i]) + [call.callId];
      ids := ids + {call.callId};
      queued := queued + [(i, call)];
    }
    assert Ids(calls)[..|calls|] == Ids(calls);
    return true, ids, queued;
  }

  lemma RepeatedId(order: seq<string>, ids: seq<string>, i: nat)
    requires i < |ids| && ids[i] in order + ids[..i]
    ensures !Distinct(order + ids)
  {
    var k :| 0 <= k < |order + ids[..i]| && (order + ids[..i])[k] == ids[i];
    assert (order + ids)[k] == ids[i] && (order + ids)[|order| + i] == ids[i];
  }

  /** One message: the opening user turn, an assistant turn, or the next queued call's result. */
  method TakeMessage(turns: nat, pending: seq<(nat, ToolCall)>, tools: seq<Evidence>, ids: set<string>,
                     ghost order: seq<string>, expecting: bool, n: nat, message: Message)
    returns (ok: bool, nextTurns: nat, nextPending: seq<(nat, ToolCall)>, nextTools: seq<Evidence>, nextIds: set<string>,
             ghost nextOrder: seq<string>, nextExpecting: bool)
    requires Distinct(order) && ids == ToSet(order) && (expecting ==> pending == [])
    requires pending != [] ==> 0 < turns && 0 < n
    ensures ok == Step(Parser(turns, pending, tools, order, expecting), n, message).Some?
    ensures ok ==>
              var next := Step(Parser(turns, pending, tools, order, expecting), n, message).value;
              nextTurns == next.turns && nextPending == next.pending && nextTools == next.tools
              && nextExpecting == next.expectingAssistant && nextIds == ToSet(next.ids)
    ensures ok ==> nextOrder == Step(Parser(turns, pending, tools, order, expecting), n, message).value.ids
    ensures ok ==>
              && Distinct(nextOrder) && nextIds == ToSet(nextOrder)
              && (nextExpecting ==> nextPending == []) && (nextPending != [] ==> 0 < nextTurns)
  {
    ok, nextTurns, nextPending, nextTools := false, turns, pending, tools;
    nextIds, nextOrder, nextExpecting := ids, order, expecting;
    match message {
      case User(content) =>
        if n == 0 && ValidUser(content) {
          ok, nextExpecting := true, true;
        }
      case Assistant(text, calls) =>
        if expecting && |text| <= MAXIMUM_BLOCK_BYTES && calls != [] && |calls| <= 64 {
          var queued;
          ok, nextIds, queued := QueueCalls(calls, ids, order);
          nextTurns, nextPending, nextExpecting := turns + 1, pending + queued, false;
          nextOrder := order + Ids(calls);
        }
      case Tool(callId, toolId, providerName, output) =>
        if !expecting && pending != [] {
          var (at, call) := pending[0];
          nextPending := pending[1..];
          if callId == call.callId && toolId == call.toolId && providerName == call.providerName && ValidOutput(output) {
            nextTools := tools + [Evidence(turns - 1, at, call, output)];
            ok, nextExpecting := true, nextPending == [];
          }
        }
    }
  }

  /** `stateless_evidence`: one pass over the messages with a queue of unanswered calls. */
  method StatelessEvidence(instructions: seq<string>, messages: seq<Message>, input: seq<Block>)
    returns (r: Result<Conversation, Error>)
    ensures r == match Grammar.StatelessEvidence(instructions, messages, input)
                 case Some(conversation) => Ok(conversation)
                 case None => Err(Conflict)
  {
    if !WithinLimits(instructions, messages) {
      return Err(Conflict);
    }
    var turns: nat, pending: seq<(nat, ToolCall)>, tools: seq<Evidence>, expecting := 0, [], [], false;
    var ids: set<string>;
    ghost var order: seq<string>;
    ids, order := {}, [];
    assert messages[..0] == [];
    for n := 0 to |messages|
      invariant Distinct(order) && ids == ToSet(order)
      invariant (expecting ==> pending == []) && (pending != [] ==> 0 < turns) && (n == 0 ==> pending == [])
      invariant Parse(messages[..n]) == Some(Parser(turns, pending, tools, order, expecting))
    {
      assert messages[..n + 1][..n] == messages[..n];
      var ok;
      ok, turns, pending, tools, ids, order, expecting :=
        TakeMessage(turns, pending, tools, ids, order, expecting, n, messages[n]);
      if !ok {
        RejectedPrefix(messages, n + 1);
        return Err(Conflict);
      }
    }
    assert messages[..|messages|] == messages;
    r := FinishInput(Parser(turns, pending, tools, order, expecting), turns, pending, tools, expecting, input);
  }

  /** Once refused, a transcript stays refused whatever follows. */
  lemma {:induction false} RejectedPrefix(messages: seq<Message>, n: nat)
    requires n <= |messages| && Parse(messages[..n]).None?
    ensures Parse(messages).None?
    decreases |messages|
  {
    if n == |messages| {
      assert messages[..n] == messages;
    } else {
      assert messages[..|messages| - 1][..n] == messages[..n];
      RejectedPrefix(messages[..|messages| - 1], n);
    }
  }

  /** Pairs the input with the calls still waiting. */
  method FinishInput(ghost p: Parser, turns: nat, pending: seq<(nat, ToolCall)>, recorded: seq<Evidence>,
                     expecting: bool, input: seq<Block>)
    returns (r: Result<Conversation, Error>)
    requires p == Parser(turns, pending, recorded, p.ids, expecting) && (pending != [] ==> 0 < turns)
    ensures r == match Finish(p, input)
                 case Some(conversation) => Ok(conversation)
                 case None => Err(Conflict)
  {
    if expecting || pending == [] || |input| != |pending| {
      return Err(Conflict);
    }
    var current: seq<Evidence> := [];
    for i := 0 to |input|
      invariant |current| == i
      invariant forall k :: 0 <= k < i ==>
                  && input[k].ToolResult? && Answered(pending[k].1, input[k].callId, input[k].toolId, input[k].output)
                  && current[k] == Evidence(turns - 1, pending[k].0, pending[k].1, input[k].output)
    {
      if !input[i].ToolResult? || !Answered(pending[i].1, input[i].callId, input[i].toolId, input[i].output) {
        return Err(Conflict);
      }
      current := current + [Evidence(turns - 1, pending[i].0, pending[i].1, input[i].output)];
    }
    assert current == Current(turns - 1, pending, input);
    if MAXIMUM_ENTRIES < |recorded + current| {
      return Err(Conflict);
    }
    return Ok(Conversation(turns, |pending|, recorded + current));
  }
}
