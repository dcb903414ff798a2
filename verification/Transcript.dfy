/** Stateless tool conversations: the queue-driven parser that re-checks a replayed transcript, and the
    grammar of the transcripts it accepts. Strings stand for their UTF-8 encodings and JSON values for
    their compact text. */
module Transcript {
  import opened Wrappers
  import opened AgentLoopSteps
  import opened References

  const MAXIMUM_BLOCK_BYTES: nat := 16 * 1024 * 1024
  const MAXIMUM_INSTRUCTION_BYTES: nat := 1024 * 1024
  const MAXIMUM_ENTRIES: nat := 256

  datatype ToolCall = ToolCall(callId: string, toolId: string, providerName: string, fingerprint: string, arguments: string)

  datatype Message =
    | User(content: seq<Block>)
    | Assistant(text: string, calls: seq<ToolCall>)
    | Tool(callId: string, toolId: string, providerName: string, output: string)

  /** One resolved call: which turn asked for it, at which place, and what came back. */
  datatype Evidence = Evidence(turn: nat, index: nat, call: ToolCall, output: string)

  datatype Conversation = Conversation(turns: nat, currentCount: nat, tools: seq<Evidence>)

  // ---------------------------------------------------------------------------------------------
  // Field checks
  // ---------------------------------------------------------------------------------------------

  predicate ValidOutput(json: string) { |json| <= MAXIMUM_BLOCK_BYTES }

  predicate ValidCall(c: ToolCall) {
    && ValidReference(c.callId)
    && !Blank(c.toolId) && |c.toolId| <= 200
    && !Blank(c.providerName) && |c.providerName| <= 200
    && !Blank(c.fingerprint) && |c.fingerprint| <= 512
    && c.arguments != "" && c.arguments[0] == '{' && |c.arguments| <= MAXIMUM_BLOCK_BYTES
  }

  predicate ValidUserBlock(b: Block) {
    match b
    case Text(text) => |text| <= MAXIMUM_BLOCK_BYTES
    case Json(value) => |value| <= MAXIMUM_BLOCK_BYTES
    case _ => false
  }

  predicate ValidUser(content: seq<Block>) {
    0 < |content| <= MAXIMUM_ENTRIES && forall b :: b in content ==> ValidUserBlock(b)
  }

  predicate ValidAssistant(text: string, calls: seq<ToolCall>) {
    |text| <= MAXIMUM_BLOCK_BYTES && 0 < |calls| <= 64 && forall c :: c in calls ==> ValidCall(c)
  }

  predicate WithinLimits(instructions: seq<string>, messages: seq<Message>) {
    && |instructions| <= 32 && (forall i :: i in instructions ==> |i| <= MAXIMUM_INSTRUCTION_BYTES)
    && 2 <= |messages| <= MAXIMUM_ENTRIES
  }

  // ---------------------------------------------------------------------------------------------
  // The parser
  // ---------------------------------------------------------------------------------------------

  /** Counters, queue, results and identifiers after some of the messages. */
  datatype Parser = Parser(
    turns: nat, pending: seq<(nat, ToolCall)>, tools: seq<Evidence>, ids: seq<string>, expectingAssistant: bool)

  const START := Parser(0, [], [], [], false)

  function Ids(calls: seq<ToolCall>): (ids: seq<string>)
    ensures |ids| == |calls|
  {
    seq(|calls|, i requires 0 <= i < |calls| => calls[i].callId)
  }

  function Indexed(calls: seq<ToolCall>): (indexed: seq<(nat, ToolCall)>)
    ensures |indexed| == |calls|
  {
    seq(|calls|, i requires 0 <= i < |calls| => (i, calls[i]))
  }

  predicate Answered(call: ToolCall, callId: string, toolId: string, output: string) {
    callId == call.callId && toolId == call.toolId && ValidOutput(output)
  }

  function Step(p: Parser, index: nat, m: Message): Option<Parser> {
    match m
    case User(content) =>
      if index == 0 && ValidUser(content) then Some(p.(expectingAssistant := true)) else None
    case Assistant(text, calls) =>
      if p.expectingAssistant && ValidAssistant(text, calls) && Distinct(p.ids + Ids(calls)) then
        Some(p.(turns := p.turns + 1, pending := p.pending + Indexed(calls), ids := p.ids + Ids(calls),
                expectingAssistant := false))
      else None
    case Tool(callId, toolId, providerName, output) =>
      if p.expectingAssistant || p.pending == [] then None
      else
        var (at, call) := p.pending[0];
        if !Answered(call, callId, toolId, output) || providerName != call.providerName || p.turns == 0 then None
        else
          Some(p.(pending := p.pending[1..], tools := p.tools + [Evidence(p.turns - 1, at, call, output)],
                  expectingAssistant := |p.pending| == 1))
  }

  function Parse(messages: seq<Message>): Option<Parser> {
    if messages == [] then Some(START)
    else
      var n := |messages| - 1;
      var before := Parse(messages[..n]);
      if before.None? then None else Step(before.value, n, messages[n])
  }

  predicate Matches(pending: seq<(nat, ToolCall)>, input: seq<Block>) {
    && |input| == |pending|
    && forall i :: 0 <= i < |input| ==>
         input[i].ToolResult? && Answered(pending[i].1, input[i].callId, input[i].toolId, input[i].output)
  }

  function Current(turn: nat, pending: seq<(nat, ToolCall)>, input: seq<Block>): (tools: seq<Evidence>)
    requires Matches(pending, input)
    ensures |tools| == |input|
  {
    seq(|input|, i requires 0 <= i < |input| => Evidence(turn, pending[i].0, pending[i].1, input[i].output))
  }

  function Finish(p: Parser, input: seq<Block>): Option<Conversation> {
    if p.expectingAssistant || p.pending == [] || p.turns == 0 || !Matches(p.pending, input)
       || MAXIMUM_ENTRIES < |p.tools| + |input|
    then None
    else Some(Conversation(p.turns, |p.pending|, p.tools + Current(p.turns - 1, p.pending, input)))
  }

  function StatelessEvidence(instructions: seq<string>, messages: seq<Message>, input: seq<Block>): Option<Conversation> {
    if !WithinLimits(instructions, messages) || Parse(messages).None? then None
    else Finish(Parse(messages).value, input)
  }

  // ---------------------------------------------------------------------------------------------
  // The grammar
  // ---------------------------------------------------------------------------------------------

  /** One assistant turn with the results of its first calls, in call order. */
  datatype Batch = Batch(text: string, calls: seq<ToolCall>, outputs: seq<string>) {
    predicate Complete() { |outputs| == |calls| }

    predicate Valid() {
      ValidAssistant(text, calls) && |outputs| <= |calls| && forall o :: o in outputs ==> ValidOutput(o)
    }
  }

  function Result(call: ToolCall, output: string): Message {
    Tool(call.callId, call.toolId, call.providerName, output)
  }

  function Results(calls: seq<ToolCall>, outputs: seq<string>): (messages: seq<Message>)
    requires |outputs| <= |calls|
    ensures |messages| == |outputs|
  {
    seq(|outputs|, i requires 0 <= i < |outputs| => Result(calls[i], outputs[i]))
  }

  function Blocks(calls: seq<ToolCall>, outputs: seq<string>): (input: seq<Block>)
    requires |outputs| <= |calls|
    ensures |input| == |outputs|
  {
    seq(|outputs|, i requires 0 <= i < |outputs| => ToolResult(calls[i].callId, calls[i].toolId, outputs[i]))
  }

  predicate AllValid(batches: seq<Batch>) { forall i :: 0 <= i < |batches| ==> batches[i].Valid() }

  /** User (Assistant, its results in order)+ */
  function Render(user: seq<Block>, batches: seq<Batch>): (messages: seq<Message>)
    requires AllValid(batches)
    ensures messages != []
  {
    if batches == [] then [User(user)]
    else
      var last := batches[|batches| - 1];
      Render(user, batches[..|batches| - 1]) + [Assistant(last.text, last.calls)] + Results(last.calls, last.outputs)
  }

  function AllIds(batches: seq<Batch>): seq<string> {
    if batches == [] then [] else AllIds(batches[..|batches| - 1]) + Ids(batches[|batches| - 1].calls)
  }

  function PairBatch(turn: nat, b: Batch): (tools: seq<Evidence>)
    requires |b.outputs| <= |b.calls|
    ensures |tools| == |b.outputs|
  {
    seq(|b.outputs|, j requires 0 <= j < |b.outputs| => Evidence(turn, j, b.calls[j], b.outputs[j]))
  }

  /** Every call with its result, turn by turn and in call order. */
  function Pairing(batches: seq<Batch>): seq<Evidence>
    requires AllValid(batches)
  {
    if batches == [] then []
    else Pairing(batches[..|batches| - 1]) + PairBatch(|batches| - 1, batches[|batches| - 1])
  }

  /** A transcript, of which only the last batch may still lack results. */
  predicate WellFormed(user: seq<Block>, batches: seq<Batch>) {
    && ValidUser(user) && AllValid(batches) && Distinct(AllIds(batches))
    && forall i :: 0 <= i < |batches| - 1 ==> batches[i].Complete()
  }

  /** The last `missing` results taken off. */
  function Cut(batches: seq<Batch>, answered: nat): (cut: seq<Batch>)
    requires batches != [] && answered <= |batches[|batches| - 1].outputs|
  {
    var n := |batches| - 1;
    batches[..n] + [batches[n].(outputs := batches[n].outputs[..answered])]
  }

  /** `messages` followed by `input` is the complete transcript, and `input` a nonempty end of its last batch. */
  predicate Splits(user: seq<Block>, batches: seq<Batch>, answered: nat, messages: seq<Message>, input: seq<Block>) {
    && WellFormed(user, batches) && batches != []
    && var last := batches[|batches| - 1];
    && last.Complete() && answered < |last.calls|
    && AllValid(Cut(batches, answered)) && messages == Render(user, Cut(batches, answered))
    && input == Blocks(last.calls[answered..], last.outputs[answered..])
    && |Pairing(batches)| <= MAXIMUM_ENTRIES
  }

  // ---------------------------------------------------------------------------------------------
  // Parser and grammar agree
  // ---------------------------------------------------------------------------------------------

  /** The parser after a well-formed beginning of a transcript. */
  function StateOf(batches: seq<Batch>): Parser
    requires AllValid(batches)
  {
    if batches == [] then START.(expectingAssistant := true)
    else
      var last := batches[|batches| - 1];
      Parser(|batches|, Indexed(last.calls)[|last.outputs|..], Pairing(batches), AllIds(batches), last.Complete())
  }

  function Shorter(batches: seq<Batch>): (shorter: seq<Batch>)
    requires batches != [] && batches[|batches| - 1].outputs != []
  {
    Cut(batches, |batches[|batches| - 1].outputs| - 1)
  }

  /** Taking the last result off takes one message, one pairing and one answered call off. */
  lemma ShorterTranscript(user: seq<Block>, batches: seq<Batch>)
    requires batches != [] && batches[|batches| - 1].outputs != [] && WellFormed(user, batches)
    ensures var shorter, last, n := Shorter(batches), batches[|batches| - 1], |batches[|batches| - 1].outputs| - 1;
            && WellFormed(user, shorter)
            && Render(user, batches) == Render(user, shorter) + [Result(last.calls[n], last.outputs[n])]
            && Pairing(batches) == Pairing(shorter) + [Evidence(|batches| - 1, n, last.calls[n], last.outputs[n])]
            && AllIds(batches) == AllIds(shorter)
  {
    var k := |batches| - 1;
    var shorter, last, n := Shorter(batches), batches[k], |batches[k].outputs| - 1;
    assert shorter[..k] == batches[..k];
    assert Results(last.calls, last.outputs)
        == Results(last.calls, last.outputs[..n]) + [Result(last.calls[n], last.outputs[n])];
    assert PairBatch(k, last) == PairBatch(k, shorter[k]) + [Evidence(k, n, last.calls[n], last.outputs[n])];
  }

  lemma DistinctPrefix(a: seq<string>, b: seq<string>)
    requires Distinct(a + b)
    ensures Distinct(a)
  {
    forall i, j | 0 <= i < j < |a| ensures a[i] != a[j] {
      assert (a + b)[i] == a[i] && (a + b)[j] == a[j];
    }
  }

  /** An assistant turn takes the parser from one beginning of the transcript to the next. */
  lemma TurnStep(user: seq<Block>, batches: seq<Batch>)
    requires WellFormed(user, batches) && batches != [] && batches[|batches| - 1].outputs == []
    ensures var before, last := batches[..|batches| - 1], batches[|batches| - 1];
            && WellFormed(user, before)
            && Render(user, batches) == Render(user, before) + [Assistant(last.text, last.calls)]
            && Step(StateOf(before), |Render(user, before)|, Assistant(last.text, last.calls)) == Some(StateOf(batches))
  {
    var k := |batches| - 1;
    var before, last := batches[..k], batches[k];
    DistinctPrefix(AllIds(before), Ids(last.calls));
    assert [] + Indexed(last.calls) == Indexed(last.calls)[0..];
    assert Pairing(batches) == Pairing(before);
    if before != [] {
      assert before[k - 1] == batches[k - 1] && before[k - 1].Complete();
      assert StateOf(before).pending == [];
    }
  }

  lemma ResultIsTaken(p: Parser, index: nat, calls: seq<ToolCall>, n: nat, output: string)
    requires n < |calls| && p.pending == Indexed(calls)[n..] && !p.expectingAssistant && 0 < p.turns && ValidOutput(output)
    ensures Step(p, index, Result(calls[n], output))
         == Some(p.(pending := Indexed(calls)[n + 1..], tools := p.tools + [Evidence(p.turns - 1, n, calls[n], output)],
                    expectingAssistant := n + 1 == |calls|))
  {
    assert p.pending[0] == (n, calls[n]);
    assert p.pending[1..] == Indexed(calls)[n + 1..];
  }

  /** So does a result. */
  lemma ResultStep(user: seq<Block>, batches: seq<Batch>, index: nat)
    requires WellFormed(user, batches) && batches != [] && batches[|batches| - 1].outputs != []
    ensures var shorter, last, n := Shorter(batches), batches[|batches| - 1], |batches[|batches| - 1].outputs| - 1;
            && AllValid(shorter)
            && Step(StateOf(shorter), index, Result(last.calls[n], last.outputs[n])) == Some(StateOf(batches))
  {
    ShorterTranscript(user, batches);
    var last, n := batches[|batches| - 1], |batches[|batches| - 1].outputs| - 1;
    assert last.outputs[n] in last.outputs;
    ResultIsTaken(StateOf(Shorter(batches)), index, last.calls, n, last.outputs[n]);
  }

  lemma {:induction false} ParserAcceptsTranscripts(user: seq<Block>, batches: seq<Batch>)
    requires WellFormed(user, batches)
    ensures Parse(Render(user, batches)) == Some(StateOf(batches))
    decreases |batches|, if batches == [] then 0 else |batches[|batches| - 1].outputs|
  {
    var messages := Render(user, batches);
    if batches == [] {
      assert messages[..0] == [];
    } else if batches[|batches| - 1].outputs == [] {
      TurnStep(user, batches);
      var before := batches[..|batches| - 1];
      assert messages[..|messages| - 1] == Render(user, before);
      ParserAcceptsTranscripts(user, before);
    } else {
      ShorterTranscript(user, batches);
      ResultStep(user, batches, |messages| - 1);
      assert messages[..|messages| - 1] == Render(user, Shorter(batches));
      ParserAcceptsTranscripts(user, Shorter(batches));
    }
  }

  /** One more assistant turn. */
  lemma TurnExtends(user: seq<Block>, batches: seq<Batch>, text: string, calls: seq<ToolCall>)
    requires WellFormed(user, batches) && Step(StateOf(batches), |Render(user, batches)|, Assistant(text, calls)).Some?
    ensures var longer := batches + [Batch(text, calls, [])];
            WellFormed(user, longer) && Render(user, longer) == Render(user, batches) + [Assistant(text, calls)]
  {
    var added := Batch(text, calls, []);
    var longer := batches + [added];
    assert Results(calls, []) == [];
    assert longer[..|batches|] == batches && longer[|batches|] == added && added.Valid();
    assert AllIds(longer) == AllIds(batches) + Ids(calls);
    assert AllValid(longer);
    if batches != [] {
      assert batches[|batches| - 1].Complete();
    }
    forall i | 0 <= i < |longer| - 1 ensures longer[i].Complete() {
      assert longer[i] == batches[i];
    }
  }

  /** One more result. */
  lemma ResultExtends(user: seq<Block>, batches: seq<Batch>, callId: string, toolId: string, providerName: string,
                      output: string)
    requires WellFormed(user, batches)
    requires Step(StateOf(batches), |Render(user, batches)|, Tool(callId, toolId, providerName, output)).Some?
    ensures batches != [] && |batches[|batches| - 1].outputs| < |batches[|batches| - 1].calls|
    ensures var longer := Extended(batches, output);
            && WellFormed(user, longer)
            && Render(user, longer) == Render(user, batches) + [Tool(callId, toolId, providerName, output)]
  {
    var k := |batches| - 1;
    var last, longer := batches[k], Extended(batches, output);
    assert Indexed(last.calls)[|last.outputs|..][0] == (|last.outputs|, last.calls[|last.outputs|]);
    assert Shorter(longer) == batches by {
      assert longer[k].outputs[..|last.outputs|] == last.outputs;
    }
    assert AllIds(longer) == AllIds(batches) by { assert longer[..k] == batches[..k]; }
    ShorterTranscript(user, longer);
  }

  function Extended(batches: seq<Batch>, output: string): seq<Batch>
    requires batches != []
  {
    var k := |batches| - 1;
    batches[..k] + [batches[k].(outputs := batches[k].outputs + [output])]
  }

  /** Whatever the parser accepts is the beginning of a transcript, and it can be read back from it. */
  lemma {:induction false} ParserOnlyAcceptsTranscripts(messages: seq<Message>)
    returns (user: seq<Block>, batches: seq<Batch>)
    requires messages != [] && Parse(messages).Some?
    ensures WellFormed(user, batches) && messages == Render(user, batches) && Parse(messages) == Some(StateOf(batches))
    decreases |messages|
  {
    var n := |messages| - 1;
    if n == 0 {
      assert messages[..0] == [];
      user, batches := messages[0].content, [];
    } else {
      user, batches := ParserOnlyAcceptsTranscripts(messages[..n]);
      assert messages == messages[..n] + [messages[n]];
      match messages[n] {
        case Assistant(text, calls) =>
          TurnExtends(user, batches, text, calls);
          batches := batches + [Batch(text, calls, [])];
        case Tool(callId, toolId, providerName, output) =>
          ResultExtends(user, batches, callId, toolId, providerName, output);
          batches := Extended(batches, output);
        case User(_) =>
      }
    }
    ParserAcceptsTranscripts(user, batches);
  }

  // ---------------------------------------------------------------------------------------------
  // What is accepted, and what comes out
  // ---------------------------------------------------------------------------------------------

  function Outputs(input: seq<Block>): (outputs: seq<string>)
    requires forall i :: 0 <= i < |input| ==> input[i].ToolResult?
    ensures |outputs| == |input|
  {
    seq(|input|, i requires 0 <= i < |input| => input[i].output)
  }

  lemma CutIsABeginning(user: seq<Block>, batches: seq<Batch>, answered: nat)
    requires WellFormed(user, batches) && batches != [] && batches[|batches| - 1].Complete()
    requires answered < |batches[|batches| - 1].calls|
    ensures var cut, last := Cut(batches, answered), batches[|batches| - 1];
            && WellFormed(user, cut) && !StateOf(cut).expectingAssistant
            && StateOf(cut).pending == Indexed(last.calls)[answered..]
            && Pairing(batches) == Pairing(cut) + PairBatch(|batches| - 1, last)[answered..]
  {
    var k := |batches| - 1;
    var cut, last := Cut(batches, answered), batches[k];
    assert cut[..k] == batches[..k];
    assert PairBatch(k, last) == PairBatch(k, cut[k]) + PairBatch(k, last)[answered..];
  }

  lemma BlocksAnswerTheirCalls(turn: nat, last: Batch, answered: nat)
    requires last.Valid() && last.Complete() && answered < |last.calls|
    ensures var pending := Indexed(last.calls)[answered..];
            var input := Blocks(last.calls[answered..], last.outputs[answered..]);
            Matches(pending, input) && Current(turn, pending, input) == PairBatch(turn, last)[answered..]
  {
    var pending := Indexed(last.calls)[answered..];
    var input := Blocks(last.calls[answered..], last.outputs[answered..]);
    forall i | 0 <= i < |input|
      ensures input[i].ToolResult? && Answered(pending[i].1, input[i].callId, input[i].toolId, input[i].output)
    {
      assert last.outputs[answered + i] in last.outputs;
    }
  }

  lemma FinishYieldsThePairing(user: seq<Block>, batches: seq<Batch>, answered: nat)
    requires WellFormed(user, batches) && batches != [] && batches[|batches| - 1].Complete()
    requires answered < |batches[|batches| - 1].calls| && |Pairing(batches)| <= MAXIMUM_ENTRIES
    ensures var last := batches[|batches| - 1];
            var input := Blocks(last.calls[answered..], last.outputs[answered..]);
            && WellFormed(user, Cut(batches, answered))
            && Finish(StateOf(Cut(batches, answered)), input) == Some(Conversation(|batches|, |input|, Pairing(batches)))
  {
    CutIsABeginning(user, batches, answered);
    BlocksAnswerTheirCalls(|batches| - 1, batches[|batches| - 1], answered);
  }

  /** A split transcript is accepted, and its evidence is the in-order pairing of all calls and results. */
  lemma TranscriptsYieldTheirPairing(instructions: seq<string>, messages: seq<Message>, input: seq<Block>,
                                     user: seq<Block>, batches: seq<Batch>, answered: nat)
    requires WithinLimits(instructions, messages) && Splits(user, batches, answered, messages, input)
    ensures StatelessEvidence(instructions, messages, input)
         == Some(Conversation(|batches|, |input|, Pairing(batches)))
  {
    FinishYieldsThePairing(user, batches, answered);
    ParserAcceptsTranscripts(user, Cut(batches, answered));
  }

  /** Input that finishes a beginning completes its last batch. */
  lemma FinishCompletes(user: seq<Block>, cut: seq<Batch>, input: seq<Block>)
    requires WellFormed(user, cut) && Finish(StateOf(cut), input).Some?
    ensures cut != [] && |cut[|cut| - 1].outputs| < |cut[|cut| - 1].calls|
    ensures Splits(user, Filled(cut, input), |cut[|cut| - 1].outputs|, Render(user, cut), input)
  {
    var k := |cut| - 1;
    var last, full, batches := cut[k], Filled(cut, input)[k], Filled(cut, input);
    var answered := |last.outputs|;
    assert batches[..k] == cut[..k];
    assert Cut(batches, answered) == cut by { assert full.outputs[..answered] == last.outputs; }
    forall o | o in full.outputs ensures ValidOutput(o) {
      assert o in last.outputs || exists i :: 0 <= i < |input| && o == input[i].output;
    }
    assert AllIds(batches) == AllIds(cut);
    assert input == Blocks(full.calls[answered..], full.outputs[answered..]) by {
      assert full.outputs[answered..] == Outputs(input);
    }
    CutIsABeginning(user, batches, answered);
  }

  function Filled(cut: seq<Batch>, input: seq<Block>): seq<Batch>
    requires cut != [] && forall i :: 0 <= i < |input| ==> input[i].ToolResult?
  {
    var k := |cut| - 1;
    cut[..k] + [cut[k].(outputs := cut[k].outputs + Outputs(input))]
  }

  /** What is accepted is a split transcript. */
  lemma AcceptedIsATranscript(instructions: seq<string>, messages: seq<Message>, input: seq<Block>)
    returns (user: seq<Block>, batches: seq<Batch>, answered: nat)
    requires StatelessEvidence(instructions, messages, input).Some?
    ensures Splits(user, batches, answered, messages, input)
  {
    var cut;
    user, cut := ParserOnlyAcceptsTranscripts(messages);
    FinishCompletes(user, cut, input);
    batches, answered := Filled(cut, input), |cut[|cut| - 1].outputs|;
  }

  ghost predicate IsSplitTranscript(messages: seq<Message>, input: seq<Block>) {
    exists user, batches, answered: nat :: Splits(user, batches, answered, messages, input)
  }

  /** The parser accepts exactly the transcripts of the grammar, split somewhere inside the last batch. */
  lemma AcceptsExactlySplitTranscripts(instructions: seq<string>, messages: seq<Message>, input: seq<Block>)
    ensures StatelessEvidence(instructions, messages, input).Some?
       <==> WithinLimits(instructions, messages) && IsSplitTranscript(messages, input)
  {
    if StatelessEvidence(instructions, messages, input).Some? {
      var user, batches, answered := AcceptedIsATranscript(instructions, messages, input);
    } else if WithinLimits(instructions, messages) && IsSplitTranscript(messages, input) {
      var user, batches, answered: nat :| Splits(user, batches, answered, messages, input);
      TranscriptsYieldTheirPairing(instructions, messages, input, user, batches, answered);
    }
  }

  /** Number of recorded tool results. */
  function ToolMessages(messages: seq<Message>): nat {
    if messages == [] then 0
    else ToolMessages(messages[..|messages| - 1]) + (if messages[|messages| - 1].Tool? then 1 else 0)
  }

  lemma {:induction false} PairingCountsToolMessages(user: seq<Block>, batches: seq<Batch>)
    requires WellFormed(user, batches)
    ensures |Pairing(batches)| == ToolMessages(Render(user, batches))
    decreases |batches|, if batches == [] then 0 else |batches[|batches| - 1].outputs|
  {
    var messages := Render(user, batches);
    if batches == [] {
      assert messages[..0] == [];
    } else if batches[|batches| - 1].outputs == [] {
      TurnStep(user, batches);
      assert messages[..|messages| - 1] == Render(user, batches[..|batches| - 1]);
      PairingCountsToolMessages(user, batches[..|batches| - 1]);
    } else {
      ShorterTranscript(user, batches);
      assert messages[..|messages| - 1] == Render(user, Shorter(batches));
      PairingCountsToolMessages(user, Shorter(batches));
    }
  }

  /** The historical part of the evidence has one entry for every recorded result, and the rest one for
      every input block. */
  lemma HistoricalEvidenceIsWhatWasRecorded(instructions: seq<string>, messages: seq<Message>, input: seq<Block>)
    requires StatelessEvidence(instructions, messages, input).Some?
    ensures var c := StatelessEvidence(instructions, messages, input).value;
            && c.currentCount == |input| && |c.tools| == ToolMessages(messages) + |input|
            && 0 < c.currentCount && |c.tools| <= MAXIMUM_ENTRIES
  {
    var user, batches, answered := AcceptedIsATranscript(instructions, messages, input);
    TranscriptsYieldTheirPairing(instructions, messages, input, user, batches, answered);
    CutIsABeginning(user, batches, answered);
    PairingCountsToolMessages(user, Cut(batches, answered));
  }
}
