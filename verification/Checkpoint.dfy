/** Checkpoints of a continuation: written as a JSON object, read back field by field, and accepted only
    when the transcript they carry checks out again. */
module Checkpoint {
  import opened Wrappers
  import opened AgentLoopSteps
  import opened References
  import opened Transcript
  import Grammar = Transcript

  datatype Transfer = Transfer(id: nat, isToolResult: bool)

  datatype Replay = Retained(responseId: string) | Stateless(instructions: seq<string>, messages: seq<Message>)

  datatype Saved = Saved(replay: Replay, input: seq<Block>, transfers: seq<Transfer>, replayTransfers: seq<Transfer>)

  datatype Snapshot = Snapshot(formatVersion: nat, saved: Saved)

  /** A JSON value as far as the checkpoint's types look into it. `Opaque` is the text of a value that
      nobody looks into, `Manifest` the complete encoding of one egress manifest. */
  datatype JsonValue =
    | Number(number: nat)
    | String(text: string)
    | List(items: seq<JsonValue>)
    | Object(fields: map<string, JsonValue>)
    | Opaque(value: string)
    | Manifest(transfer: Transfer)

  // ---------------------------------------------------------------------------------------------
  // Lists and fields
  // ---------------------------------------------------------------------------------------------

  function EncodeAll<T>(xs: seq<T>, encode: T -> JsonValue): (items: seq<JsonValue>)
    ensures |items| == |xs| && forall i :: 0 <= i < |xs| ==> items[i] == encode(xs[i])
  {
    seq(|xs|, i requires 0 <= i < |xs| => encode(xs[i]))
  }

  function DecodeAll<T>(items: seq<JsonValue>, decode: JsonValue -> Option<T>): Option<seq<T>> {
    if items == [] then Some([])
    else
      match (decode(items[0]), DecodeAll(items[1..], decode))
      case (Some(x), Some(rest)) => Some([x] + rest)
      case _ => None
  }

  lemma {:induction false} AllRoundTrip<T>(xs: seq<T>, encode: T -> JsonValue, decode: JsonValue -> Option<T>)
    requires forall x :: x in xs ==> decode(encode(x)) == Some(x)
    ensures DecodeAll(EncodeAll(xs, encode), decode) == Some(xs)
  {
    if xs != [] {
      var items := EncodeAll(xs, encode);
      assert items[1..] == EncodeAll(xs[1..], encode);
      AllRoundTrip(xs[1..], encode, decode);
      assert xs[0] in xs && decode(items[0]) == Some(xs[0]);
      assert xs == [xs[0]] + xs[1..];
    }
  }

  function Field(j: JsonValue, name: string): Option<JsonValue> {
    if j.Object? && name in j.fields then Some(j.fields[name]) else None
  }

  function StringField(j: JsonValue, name: string): Option<string> {
    match Field(j, name) case Some(String(text)) => Some(text) case _ => None
  }

  function ValueField(j: JsonValue, name: string): Option<string> {
    match Field(j, name) case Some(Opaque(value)) => Some(value) case _ => None
  }

  function ListField<T>(j: JsonValue, name: string, decode: JsonValue -> Option<T>): Option<seq<T>> {
    match Field(j, name) case Some(List(items)) => DecodeAll(items, decode) case _ => None
  }

  function EncodeString(text: string): JsonValue { String(text) }

  function DecodeString(j: JsonValue): Option<string> { if j.String? then Some(j.text) else None }

  function EncodeTransfer(t: Transfer): JsonValue { Manifest(t) }

  function DecodeTransfer(j: JsonValue): Option<Transfer> { if j.Manifest? then Some(j.transfer) else None }

  // ---------------------------------------------------------------------------------------------
  // Blocks, messages and continuations, each tagged with its kind
  // ---------------------------------------------------------------------------------------------

  function EncodeBlock(b: Block): JsonValue {
    match b
    case Text(text) => Object(map["type" := String("text"), "text" := String(text)])
    case Attachment(reference) => Object(map["type" := String("attachment"), "reference" := String(reference)])
    case Json(value) => Object(map["type" := String("json"), "value" := Opaque(value)])
    case ToolResult(callId, toolId, output) =>
      Object(map["type" := String("tool_result"), "call_id" := String(callId), "tool_id" := String(toolId),
                 "output" := Opaque(output)])
  }

  function DecodeBlock(j: JsonValue): Option<Block> {
    match StringField(j, "type")
    case None => None
    case Some(kind) =>
      if kind == "text" then
        match StringField(j, "text") case Some(text) => Some(Text(text)) case None => None
      else if kind == "attachment" then
        match StringField(j, "reference") case Some(reference) => Some(Attachment(reference)) case None => None
      else if kind == "json" then
        match ValueField(j, "value") case Some(value) => Some(Block.Json(value)) case None => None
      else if kind == "tool_result" then
        match (StringField(j, "call_id"), StringField(j, "tool_id"), ValueField(j, "output"))
        case (Some(callId), Some(toolId), Some(output)) => Some(ToolResult(callId, toolId, output))
        case _ => None
      else None
  }

  function EncodeCall(c: ToolCall): JsonValue {
    Object(map["call_id" := String(c.callId), "tool_id" := String(c.toolId), "provider_name" := String(c.providerName),
               "tool_fingerprint" := String(c.fingerprint), "arguments" := Opaque(c.arguments)])
  }

  function DecodeCall(j: JsonValue): Option<ToolCall> {
    match (StringField(j, "call_id"), StringField(j, "tool_id"), StringField(j, "provider_name"),
           StringField(j, "tool_fingerprint"), ValueField(j, "arguments"))
    case (Some(callId), Some(toolId), Some(name), Some(fingerprint), Some(arguments)) =>
      Some(ToolCall(callId, toolId, name, fingerprint, arguments))
    case _ => None
  }

  function EncodeMessage(m: Message): JsonValue {
    match m
    case User(content) => Object(map["role" := String("user"), "content" := List(EncodeAll(content, EncodeBlock))])
    case Assistant(text, calls) =>
      Object(map["role" := String("assistant"), "content" := String(text),
                 "tool_calls" := List(EncodeAll(calls, EncodeCall))])
    case Tool(callId, toolId, providerName, output) =>
      Object(map["role" := String("tool"), "call_id" := String(callId), "tool_id" := String(toolId),
                 "provider_name" := String(providerName), "output" := Opaque(output)])
  }

  function DecodeMessage(j: JsonValue): Option<Message> {
    match StringField(j, "role")
    case None => None
    case Some(role) =>
      if role == "user" then
        match ListField(j, "content", DecodeBlock) case Some(content) => Some(User(content)) case None => None
      else if role == "assistant" then
        match (StringField(j, "content"), ListField(j, "tool_calls", DecodeCall))
        case (Some(text), Some(calls)) => Some(Assistant(text, calls))
        case _ => None
      else if role == "tool" then
        match (StringField(j, "call_id"), StringField(j, "tool_id"), StringField(j, "provider_name"), ValueField(j, "output"))
        case (Some(callId), Some(toolId), Some(name), Some(output)) => Some(Tool(callId, toolId, name, output))
        case _ => None
      else None
  }

  function EncodeReplay(r: Replay): JsonValue {
    match r
    case Retained(responseId) => Object(map["type" := String("provider_response"), "response_id" := String(responseId)])
    case Stateless(instructions, messages) =>
      Object(map["type" := String("stateless_conversation"), "instructions" := List(EncodeAll(instructions, EncodeString)),
                 "messages" := List(EncodeAll(messages, EncodeMessage))])
  }

  function DecodeReplay(j: JsonValue): Option<Replay> {
    match StringField(j, "type")
    case None => None
    case Some(kind) =>
      if kind == "provider_response" then
        match StringField(j, "response_id") case Some(responseId) => Some(Retained(responseId)) case None => None
      else if kind == "stateless_conversation" then
        match (ListField(j, "instructions", DecodeString), ListField(j, "messages", DecodeMessage))
        case (Some(instructions), Some(messages)) => Some(Stateless(instructions, messages))
        case _ => None
      else None
  }

  lemma BlockRoundTrip(b: Block)
    ensures DecodeBlock(EncodeBlock(b)) == Some(b)
  {
    match b
    case Text(_) =>
    case Attachment(_) =>
    case Json(_) =>
    case ToolResult(_, _, _) =>
  }

  lemma BlocksRoundTrip(content: seq<Block>)
    ensures DecodeAll(EncodeAll(content, EncodeBlock), DecodeBlock) == Some(content)
  {
    forall b | b in content ensures DecodeBlock(EncodeBlock(b)) == Some(b) { BlockRoundTrip(b); }
    AllRoundTrip(content, EncodeBlock, DecodeBlock);
  }

  lemma CallRoundTrip(c: ToolCall)
    ensures DecodeCall(EncodeCall(c)) == Some(c)
  {}

  lemma CallsRoundTrip(calls: seq<ToolCall>)
    ensures DecodeAll(EncodeAll(calls, EncodeCall), DecodeCall) == Some(calls)
  {
    forall c | c in calls ensures DecodeCall(EncodeCall(c)) == Some(c) { CallRoundTrip(c); }
    AllRoundTrip(calls, EncodeCall, DecodeCall);
  }

  lemma MessageRoundTrip(m: Message)
    ensures DecodeMessage(EncodeMessage(m)) == Some(m)
  {
    match m
    case User(content) => BlocksRoundTrip(content);
    case Assistant(_, calls) => CallsRoundTrip(calls);
    case Tool(_, _, _, _) =>
  }

  lemma MessagesRoundTrip(messages: seq<Message>)
    ensures DecodeAll(EncodeAll(messages, EncodeMessage), DecodeMessage) == Some(messages)
  {
    forall m | m in messages ensures DecodeMessage(EncodeMessage(m)) == Some(m) { MessageRoundTrip(m); }
    AllRoundTrip(messages, EncodeMessage, DecodeMessage);
  }

  lemma StringsRoundTrip(texts: seq<string>)
    ensures DecodeAll(EncodeAll(texts, EncodeString), DecodeString) == Some(texts)
  {
    AllRoundTrip(texts, EncodeString, DecodeString);
  }

  lemma ReplayRoundTrip(r: Replay)
    ensures DecodeReplay(EncodeReplay(r)) == Some(r)
  {
    if r.Stateless? {
      StringsRoundTrip(r.instructions);
      MessagesRoundTrip(r.messages);
    }
  }

  // ---------------------------------------------------------------------------------------------
  // Checkpoints
  // ---------------------------------------------------------------------------------------------

  const U32_MAX: nat := 0xFFFF_FFFF

  const FIELDS: set<string> := {"formatVersion", "continuation", "input", "transfers", "replayTransfers"}

  /** `checkpoint_value`. */
  function CheckpointValue(s: Saved): JsonValue {
    Object(map["formatVersion" := Number(2), "continuation" := EncodeReplay(s.replay),
               "input" := List(EncodeAll(s.input, EncodeBlock)),
               "transfers" := List(EncodeAll(s.transfers, EncodeTransfer)),
               "replayTransfers" := List(EncodeAll(s.replayTransfers, EncodeTransfer))])
  }

  /** Every field must be there and no other; only the replay transfers may be missing, as version 1 wrote it. */
  function ReadSnapshot(j: JsonValue): Option<Snapshot> {
    if !j.Object? || !(j.fields.Keys <= FIELDS) || Field(j, "continuation").None? then None
    else
      var replayTransfers :=
        if "replayTransfers" in j.fields then ListField(j, "replayTransfers", DecodeTransfer) else Some([]);
      match (Field(j, "formatVersion"), DecodeReplay(j.fields["continuation"]), ListField(j, "input", DecodeBlock),
             ListField(j, "transfers", DecodeTransfer), replayTransfers)
      case (Some(Number(version)), Some(replay), Some(input), Some(transfers), Some(replayed)) =>
        if version <= U32_MAX then Some(Snapshot(version, Saved(replay, input, transfers, replayed))) else None
      case _ => None
  }

  predicate ValidInput(b: Block, t: Transfer) {
    && b.ToolResult? && ValidReference(b.callId) && !Blank(b.toolId) && |b.toolId| <= 1024 && t.isToolResult
  }

  predicate ValidInputs(input: seq<Block>, transfers: seq<Transfer>) {
    && 0 < |input| <= MAXIMUM_ENTRIES && |input| == |transfers|
    && (forall i :: 0 <= i < |input| ==> ValidInput(input[i], transfers[i]))
    && forall i, j :: 0 <= i < j < |input| ==> input[i].callId != input[j].callId
  }

  /** `chainable` says that the conversation can be hashed. Both counts of the results are compared: the
      recorded messages first, then the evidence. */
  predicate ValidReplay(formatVersion: nat, s: Saved, chainable: bool) {
    match s.replay
    case Retained(responseId) => ValidReference(responseId) && s.replayTransfers == []
    case Stateless(instructions, messages) =>
      && formatVersion == 2 && chainable
      && ToolMessages(messages) == |s.replayTransfers|
      && (forall t :: t in s.replayTransfers ==> t.isToolResult)
      && var evidence := Grammar.StatelessEvidence(instructions, messages, s.input);
         && evidence.Some? && evidence.value.currentCount <= |evidence.value.tools|
         && |evidence.value.tools| - evidence.value.currentCount == |s.replayTransfers|
         && evidence.value.currentCount == |s.transfers|
  }

  function Checked(snapshot: Snapshot, chainable: bool): Option<Saved> {
    if (snapshot.formatVersion != 1 && snapshot.formatVersion != 2)
       || !ValidInputs(snapshot.saved.input, snapshot.saved.transfers)
       || !ValidReplay(snapshot.formatVersion, snapshot.saved, chainable)
    then None
    else Some(snapshot.saved)
  }

  /** Exactly what is accepted, said outright: one to 256 distinct results of tools, each with the manifest
      of a tool result, and either a valid retained response, or, from version 2 on, the messages that
      these results complete to a transcript, with one replayed manifest for every recorded result. */
  lemma AcceptedExactlyWhen(snapshot: Snapshot, chainable: bool)
    ensures var s := snapshot.saved;
            Checked(snapshot, chainable) == Some(s) || Checked(snapshot, chainable) == None
    ensures var s := snapshot.saved;
            Checked(snapshot, chainable).Some? <==>
              && (snapshot.formatVersion == 1 || snapshot.formatVersion == 2)
              && 1 <= |s.input| <= 256 && |s.transfers| == |s.input|
              && (forall i :: 0 <= i < |s.input| ==>
                    && s.input[i].ToolResult? && s.transfers[i].isToolResult
                    && ValidReference(s.input[i].callId) && !Blank(s.input[i].toolId) && |s.input[i].toolId| <= 1024)
              && (forall i, j :: 0 <= i < j < |s.input| ==> s.input[i].callId != s.input[j].callId)
              && match s.replay {
                   case Retained(responseId) => ValidReference(responseId) && s.replayTransfers == []
                   case Stateless(instructions, messages) =>
                     && snapshot.formatVersion == 2 && chainable
                     && WithinLimits(instructions, messages) && IsSplitTranscript(messages, s.input)
                     && ToolMessages(messages) == |s.replayTransfers|
                     && forall t :: t in s.replayTransfers ==> t.isToolResult
                 }
  {
    var s := snapshot.saved;
    if s.replay.Stateless? {
      EvidenceCountsNeverDisagree(snapshot, chainable);
      AcceptsExactlySplitTranscripts(s.replay.instructions, s.replay.messages, s.input);
    }
    if |s.input| == |s.transfers| { InputsAreResults(s.input, s.transfers); }
  }

  lemma InputsAreResults(input: seq<Block>, transfers: seq<Transfer>)
    requires |input| == |transfers|
    ensures (forall i :: 0 <= i < |input| ==> ValidInput(input[i], transfers[i])) <==>
              forall i :: 0 <= i < |input| ==>
                && input[i].ToolResult? && transfers[i].isToolResult
                && ValidReference(input[i].callId) && !Blank(input[i].toolId) && |input[i].toolId| <= 1024
  {
    if forall i :: 0 <= i < |input| ==>
         && input[i].ToolResult? && transfers[i].isToolResult
         && ValidReference(input[i].callId) && !Blank(input[i].toolId) && |input[i].toolId| <= 1024
    {
      assert forall i :: 0 <= i < |input| ==> ValidInput(input[i], transfers[i]);
    }
  }

  datatype Restored = Restored(saved: Saved) | Unreadable | Refused

  /** `from_checkpoint_value`. */
  function FromCheckpointValue(j: JsonValue, chainable: bool): Restored {
    match ReadSnapshot(j)
    case None => Unreadable
    case Some(snapshot) =>
      match Checked(snapshot, chainable)
      case None => Refused
      case Some(saved) => Restored(saved)
  }

  /** A checkpoint is read back as exactly what it was written from. */
  lemma CheckpointIsRead(s: Saved)
    ensures ReadSnapshot(CheckpointValue(s)) == Some(Snapshot(2, s))
  {
    ReplayRoundTrip(s.replay);
    BlocksRoundTrip(s.input);
    AllRoundTrip(s.transfers, EncodeTransfer, DecodeTransfer);
    AllRoundTrip(s.replayTransfers, EncodeTransfer, DecodeTransfer);
  }

  /** The checkpoint of any continuation can be read; it restores that continuation and no other, exactly
      when its inputs and its transcript check out. */
  lemma CheckpointRestoresExactly(s: Saved, chainable: bool)
    ensures FromCheckpointValue(CheckpointValue(s), chainable)
            == if ValidInputs(s.input, s.transfers) && ValidReplay(2, s, chainable) then Restored(s) else Refused
  {
    CheckpointIsRead(s);
  }

  /** Whatever any JSON value restores, of whichever version and with whatever it left out, is restored
      unchanged from its own checkpoint. */
  lemma CheckpointRoundTrip(j: JsonValue, chainable: bool)
    requires FromCheckpointValue(j, chainable).Restored?
    ensures var saved := FromCheckpointValue(j, chainable).saved;
            FromCheckpointValue(CheckpointValue(saved), chainable) == Restored(saved)
  {
    CheckpointIsRead(FromCheckpointValue(j, chainable).saved);
  }

  /** The final comparison of the evidence with the transfers never decides: once the recorded results are
      as many as the replay transfers and the inputs as many as their transfers, it agrees. */
  lemma EvidenceCountsNeverDisagree(snapshot: Snapshot, chainable: bool)
    requires snapshot.saved.replay.Stateless?
    ensures var s := snapshot.saved;
            Checked(snapshot, chainable).Some? <==>
              && snapshot.formatVersion == 2 && chainable
              && ValidInputs(s.input, s.transfers)
              && ToolMessages(s.replay.messages) == |s.replayTransfers|
              && (forall t :: t in s.replayTransfers ==> t.isToolResult)
              && Grammar.StatelessEvidence(s.replay.instructions, s.replay.messages, s.input).Some?
  {
    var s := snapshot.saved;
    if Grammar.StatelessEvidence(s.replay.instructions, s.replay.messages, s.input).Some? {
      HistoricalEvidenceIsWhatWasRecorded(s.replay.instructions, s.replay.messages, s.input);
    }
  }
}
