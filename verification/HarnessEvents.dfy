/** The event automaton of a local harness, and the traces it accepts. */
module HarnessEvents {
  import opened References
  import opened Wrappers

  const MAXIMUM_CALLS: nat := 64

  datatype Event =
    | ResponseStarted(responseId: Option<string>)
    | TextDelta(text: string)
    | ToolCallStarted(callId: string, toolId: string)
    | ToolArgumentsDelta(callId: string, delta: string)
    | ToolCallCompleted(callId: string, isObject: bool)
    | Usage(inputTokens: nat, outputTokens: nat, cachedInputTokens: nat)
    | ResponseCompleted(responseId: Option<string>)
    | OtherEvent

  datatype Bounds = Bounds(maximumInputTokens: nat, maximumOutputTokens: nat, offered: set<string>)

  /** Call identifiers map to whether their call is complete. */
  datatype State = State(started: bool, usage: bool, completed: bool, calls: map<string, bool>)

  const INITIAL := State(false, false, false, map[])

  predicate InBounds(b: Bounds, e: Event) {
    && e.Usage?
    && e.inputTokens <= b.maximumInputTokens && e.outputTokens <= b.maximumOutputTokens
    && e.cachedInputTokens <= e.inputTokens
  }

  function Accept(b: Bounds, s: State, e: Event): Option<State> {
    var open := s.started && !s.usage && !s.completed;
    match e
    case ResponseStarted(id) =>
      if id.None? && !s.started && !s.usage && !s.completed then Some(s.(started := true)) else None
    case TextDelta(_) => if open then Some(s) else None
    case ToolCallStarted(callId, toolId) =>
      if open && ValidReference(callId) && toolId in b.offered && |s.calls| < MAXIMUM_CALLS && callId !in s.calls
      then Some(s.(calls := s.calls[callId := false])) else None
    case ToolArgumentsDelta(callId, _) =>
      if open && callId in s.calls && !s.calls[callId] then Some(s) else None
    case ToolCallCompleted(callId, isObject) =>
      if open && isObject && callId in s.calls && !s.calls[callId] then Some(s.(calls := s.calls[callId := true])) else None
    case Usage(_, _, _) =>
      if open && InBounds(b, e) && (forall id :: id in s.calls ==> s.calls[id]) then Some(s.(usage := true)) else None
    case ResponseCompleted(id) =>
      if id.None? && s.started && s.usage && !s.completed then Some(s.(completed := true)) else None
    case OtherEvent => None
  }

  function Run(b: Bounds, events: seq<Event>): Option<State> {
    if events == [] then Some(INITIAL)
    else
      var n := |events| - 1;
      var before := Run(b, events[..n]);
      if before.None? then None else Accept(b, before.value, events[n])
  }

  predicate IsComplete(s: State) { s.started && s.usage && s.completed }

  predicate AcceptedAndComplete(b: Bounds, events: seq<Event>) {
    Run(b, events).Some? && IsComplete(Run(b, events).value)
  }

  // ---------------------------------------------------------------------------------------------
  // The grammar of traces
  // ---------------------------------------------------------------------------------------------

  predicate Starts(body: seq<Event>, i: nat, id: string)
    requires i < |body|
  {
    body[i].ToolCallStarted? && body[i].callId == id
  }

  predicate Completes(body: seq<Event>, i: nat, id: string)
    requires i < |body|
  {
    body[i].ToolCallCompleted? && body[i].callId == id
  }

  predicate HasStart(body: seq<Event>, id: string) {
    exists i :: 0 <= i < |body| && Starts(body, i, id)
  }

  predicate HasCompletion(body: seq<Event>, id: string) {
    exists i :: 0 <= i < |body| && Completes(body, i, id)
  }

  function StartCount(body: seq<Event>): nat {
    if body == [] then 0
    else StartCount(body[..|body| - 1]) + (if body[|body| - 1].ToolCallStarted? then 1 else 0)
  }

  predicate BodyEvent(b: Bounds, e: Event) {
    || e.TextDelta?
    || (e.ToolCallStarted? && ValidReference(e.callId) && e.toolId in b.offered)
    || e.ToolArgumentsDelta?
    || (e.ToolCallCompleted? && e.isObject)
  }

  predicate StartsOnce(body: seq<Event>) {
    forall i, j :: 0 <= i < j < |body| && body[i].ToolCallStarted? ==> !Starts(body, j, body[i].callId)
  }

  predicate CompletesOnce(body: seq<Event>) {
    forall i, j :: 0 <= i < j < |body| && body[i].ToolCallCompleted? ==> !Completes(body, j, body[i].callId)
  }

  predicate AfterStart(body: seq<Event>) {
    forall i :: 0 <= i < |body| && (body[i].ToolArgumentsDelta? || body[i].ToolCallCompleted?) ==>
      HasStart(body[..i], body[i].callId)
  }

  predicate DeltasBeforeCompletion(body: seq<Event>) {
    forall i :: 0 <= i < |body| && body[i].ToolArgumentsDelta? ==> !HasCompletion(body[..i], body[i].callId)
  }

  /** Text and tool events: no call starts or completes twice, and everything about a call lies between
      its start and its completion. */
  predicate Disciplined(b: Bounds, body: seq<Event>) {
    && (forall i :: 0 <= i < |body| ==> BodyEvent(b, body[i]))
    && StartsOnce(body) && CompletesOnce(body) && AfterStart(body) && DeltasBeforeCompletion(body)
    && StartCount(body) <= MAXIMUM_CALLS
  }

  predicate AllCompleted(body: seq<Event>) {
    forall i :: 0 <= i < |body| && body[i].ToolCallStarted? ==> HasCompletion(body, body[i].callId)
  }

  /** ResponseStarted, a disciplined body whose calls are all completed, one usage in bounds, ResponseCompleted. */
  predicate CompleteTrace(b: Bounds, events: seq<Event>) {
    && 3 <= |events|
    && var n := |events|;
       && events[0] == ResponseStarted(None)
       && Disciplined(b, events[1..n - 2]) && AllCompleted(events[1..n - 2])
       && InBounds(b, events[n - 2])
       && events[n - 1] == ResponseCompleted(None)
  }

  // ---------------------------------------------------------------------------------------------
  // Automaton and grammar agree
  // ---------------------------------------------------------------------------------------------

  /** The call map is exactly the history of the body. */
  ghost predicate Tracks(body: seq<Event>, calls: map<string, bool>) {
    && (forall id :: id in calls <==> HasStart(body, id))
    && (forall id :: HasCompletion(body, id) <==> id in calls && calls[id])
    && |calls| == StartCount(body)
  }

  /** What the next event must satisfy, in terms of the history. */
  predicate Fits(b: Bounds, body: seq<Event>, e: Event) {
    && BodyEvent(b, e)
    && (e.ToolCallStarted? ==> !HasStart(body, e.callId) && StartCount(body) < MAXIMUM_CALLS)
    && (e.ToolArgumentsDelta? || e.ToolCallCompleted? ==> HasStart(body, e.callId) && !HasCompletion(body, e.callId))
  }

  lemma HistoryOfOneMore(body: seq<Event>, e: Event, id: string)
    ensures HasStart(body + [e], id) <==> HasStart(body, id) || (e.ToolCallStarted? && e.callId == id)
    ensures HasCompletion(body + [e], id) <==> HasCompletion(body, id) || (e.ToolCallCompleted? && e.callId == id)
    ensures StartCount(body + [e]) == StartCount(body) + (if e.ToolCallStarted? then 1 else 0)
  {
    var longer := body + [e];
    var n := |body|;
    assert longer[..n] == body;
    if i :| 0 <= i < n && Starts(body, i, id) { assert Starts(longer, i, id); }
    if i :| 0 <= i < |longer| && Starts(longer, i, id) && i < n { assert Starts(body, i, id); }
    if i :| 0 <= i < n && Completes(body, i, id) { assert Completes(longer, i, id); }
    if i :| 0 <= i < |longer| && Completes(longer, i, id) && i < n { assert Completes(body, i, id); }
    if e.ToolCallStarted? { assert Starts(longer, n, e.callId); }
    if e.ToolCallCompleted? { assert Completes(longer, n, e.callId); }
  }

  lemma OnceOfOneMore(body: seq<Event>, e: Event)
    ensures StartsOnce(body + [e]) <==> StartsOnce(body) && (e.ToolCallStarted? ==> !HasStart(body, e.callId))
    ensures CompletesOnce(body + [e]) <==> CompletesOnce(body) && (e.ToolCallCompleted? ==> !HasCompletion(body, e.callId))
  {
    var longer, n := body + [e], |body|;
    assert longer[n] == e && forall i :: 0 <= i < n ==> longer[i] == body[i];
    if e.ToolCallStarted? && HasStart(body, e.callId) {
      var i :| 0 <= i < n && Starts(body, i, e.callId);
      assert Starts(longer, n, longer[i].callId);
    }
    if e.ToolCallCompleted? && HasCompletion(body, e.callId) {
      var i :| 0 <= i < n && Completes(body, i, e.callId);
      assert Completes(longer, n, longer[i].callId);
    }
    if StartsOnce(longer) {
      forall i, j | 0 <= i < j < n && body[i].ToolCallStarted? ensures !Starts(body, j, body[i].callId) {
        assert !Starts(longer, j, longer[i].callId);
      }
    } else {
      var i, j :| 0 <= i < j < |longer| && longer[i].ToolCallStarted? && Starts(longer, j, longer[i].callId);
      assert if j < n then Starts(body, j, body[i].callId) else Starts(body, i, e.callId);
    }
    if CompletesOnce(longer) {
      forall i, j | 0 <= i < j < n && body[i].ToolCallCompleted? ensures !Completes(body, j, body[i].callId) {
        assert !Completes(longer, j, longer[i].callId);
      }
    } else {
      var i, j :| 0 <= i < j < |longer| && longer[i].ToolCallCompleted? && Completes(longer, j, longer[i].callId);
      assert if j < n then Completes(body, j, body[i].callId) else Completes(body, i, e.callId);
    }
  }

  lemma OrderOfOneMore(body: seq<Event>, e: Event)
    ensures AfterStart(body + [e])
       <==> AfterStart(body) && (e.ToolArgumentsDelta? || e.ToolCallCompleted? ==> HasStart(body, e.callId))
    ensures DeltasBeforeCompletion(body + [e])
       <==> DeltasBeforeCompletion(body) && (e.ToolArgumentsDelta? ==> !HasCompletion(body, e.callId))
  {
    var longer, n := body + [e], |body|;
    assert longer[n] == e && longer[..n] == body;
    assert forall i :: 0 <= i < n ==> longer[i] == body[i] && longer[..i] == body[..i];
  }

  lemma DisciplineOfOneMore(b: Bounds, body: seq<Event>, e: Event)
    ensures Disciplined(b, body + [e]) <==> Disciplined(b, body) && Fits(b, body, e)
  {
    var longer, n := body + [e], |body|;
    assert longer[n] == e && forall i :: 0 <= i < n ==> longer[i] == body[i];
    HistoryOfOneMore(body, e, "");
    OnceOfOneMore(body, e);
    OrderOfOneMore(body, e);
  }

  /** One step of the automaton inside the body. */
  lemma BodyStep(b: Bounds, body: seq<Event>, calls: map<string, bool>, e: Event)
    requires Tracks(body, calls) && StartCount(body) <= MAXIMUM_CALLS
    requires !e.ResponseStarted? && !e.Usage? && !e.ResponseCompleted?
    ensures var next := Accept(b, State(true, false, false, calls), e);
            && (next.Some? <==> Fits(b, body, e))
            && (next.Some? ==>
                  next.value == State(true, false, false, next.value.calls) && Tracks(body + [e], next.value.calls))
  {
    forall id
      ensures HasStart(body + [e], id) <==> HasStart(body, id) || (e.ToolCallStarted? && e.callId == id)
      ensures HasCompletion(body + [e], id) <==> HasCompletion(body, id) || (e.ToolCallCompleted? && e.callId == id)
    {
      HistoryOfOneMore(body, e, id);
    }
    HistoryOfOneMore(body, e, "");
  }

  predicate Between(events: seq<Event>) {
    forall i :: 0 <= i < |events| ==> !events[i].ResponseStarted? && !events[i].Usage? && !events[i].ResponseCompleted?
  }

  /** The automaton after an opening and a disciplined body, and no other body. */
  lemma {:induction false} BodyRuns(b: Bounds, body: seq<Event>)
    requires Between(body)
    ensures var run := Run(b, [ResponseStarted(None)] + body);
            && (run.Some? <==> Disciplined(b, body))
            && (run.Some? ==> run.value == State(true, false, false, run.value.calls) && Tracks(body, run.value.calls))
    decreases |body|
  {
    var opening := [ResponseStarted(None)];
    if body == [] {
      assert opening + body == opening && opening[..0] == [];
      assert Run(b, []) == Some(INITIAL);
      assert |INITIAL.calls| == 0;
    } else {
      var n := |body| - 1;
      assert (opening + body)[..|opening + body| - 1] == opening + body[..n];
      assert body == body[..n] + [body[n]];
      BodyRuns(b, body[..n]);
      DisciplineOfOneMore(b, body[..n], body[n]);
      var before := Run(b, opening + body[..n]);
      if before.Some? {
        BodyStep(b, body[..n], before.value.calls, body[n]);
      }
    }
  }

  lemma AllCompletedAsTracked(body: seq<Event>, calls: map<string, bool>)
    requires Tracks(body, calls)
    ensures AllCompleted(body) <==> forall id :: id in calls ==> calls[id]
  {
    if AllCompleted(body) {
      forall id | id in calls ensures calls[id] {
        var i :| 0 <= i < |body| && Starts(body, i, id);
      }
    } else {
      var i :| 0 <= i < |body| && body[i].ToolCallStarted? && !HasCompletion(body, body[i].callId);
      assert Starts(body, i, body[i].callId);
    }
  }

  /** What has been accepted so far is the beginning of a complete trace. */
  ghost predicate Shape(b: Bounds, events: seq<Event>, s: State) {
    var n := |events|;
    if !s.started then events == [] && s == INITIAL
    else if !s.usage then
      && !s.completed && 1 <= n && events[0] == ResponseStarted(None) && Between(events[1..])
    else if !s.completed then
      && 2 <= n && events[0] == ResponseStarted(None) && Between(events[1..n - 1])
      && Disciplined(b, events[1..n - 1]) && AllCompleted(events[1..n - 1]) && InBounds(b, events[n - 1])
    else CompleteTrace(b, events)
  }

  /** Usage is only accepted behind a disciplined body whose calls are all complete. */
  lemma UsageEndsTheBody(b: Bounds, body: seq<Event>, before: State, e: Event)
    requires Between(body) && Run(b, [ResponseStarted(None)] + body) == Some(before)
    requires e.Usage? && Accept(b, before, e).Some?
    ensures Disciplined(b, body) && AllCompleted(body) && InBounds(b, e)
  {
    BodyRuns(b, body);
    AllCompletedAsTracked(body, before.calls);
  }

  lemma ShapeFromBody(b: Bounds, events: seq<Event>, before: State, e: Event)
    requires Run(b, events) == Some(before) && Shape(b, events, before) && before.started && !before.usage
    requires Accept(b, before, e).Some?
    ensures Shape(b, events + [e], Accept(b, before, e).value)
  {
    var body := events[1..];
    assert events == [ResponseStarted(None)] + body;
    var longer := events + [e];
    if e.Usage? {
      UsageEndsTheBody(b, body, before, e);
      assert longer[1..|longer| - 1] == body;
    } else {
      assert longer[1..] == body + [e];
    }
  }

  lemma ShapeFromUsage(b: Bounds, events: seq<Event>, before: State, e: Event)
    requires Shape(b, events, before) && before.started && before.usage && Accept(b, before, e).Some?
    ensures Shape(b, events + [e], Accept(b, before, e).value)
  {
    var longer := events + [e];
    assert longer[1..|longer| - 2] == events[1..|events| - 1];
  }

  lemma ShapeStep(b: Bounds, events: seq<Event>, before: State, e: Event)
    requires Run(b, events) == Some(before) && Shape(b, events, before) && Accept(b, before, e).Some?
    ensures Run(b, events + [e]) == Accept(b, before, e)
    ensures Shape(b, events + [e], Accept(b, before, e).value)
  {
    RunOneMore(b, events, e);
    if !before.started {
      assert events + [e] == [ResponseStarted(None)];
    } else if !before.usage {
      ShapeFromBody(b, events, before, e);
    } else {
      ShapeFromUsage(b, events, before, e);
    }
  }

  lemma {:induction false} AcceptedHasShape(b: Bounds, events: seq<Event>)
    requires Run(b, events).Some?
    ensures Shape(b, events, Run(b, events).value)
    decreases |events|
  {
    if events != [] {
      var front, e := events[..|events| - 1], events[|events| - 1];
      assert front + [e] == events;
      AcceptedHasShape(b, front);
      ShapeStep(b, front, Run(b, front).value, e);
    }
  }

  lemma DisciplinedIsBetween(b: Bounds, body: seq<Event>)
    requires Disciplined(b, body)
    ensures Between(body)
  {}

  lemma ThreeParts(events: seq<Event>)
    requires 3 <= |events|
    ensures var n := |events|;
            events == [events[0]] + events[1..n - 2] + [events[n - 2]] + [events[n - 1]]
  {}

  lemma CompleteTraceIsAccepted(b: Bounds, events: seq<Event>)
    requires CompleteTrace(b, events)
    ensures AcceptedAndComplete(b, events)
  {
    var n := |events|;
    var body := events[1..n - 2];
    DisciplinedIsBetween(b, body);
    BodyRuns(b, body);
    var calls := Run(b, [ResponseStarted(None)] + body).value.calls;
    AllCompletedAsTracked(body, calls);
    ClosingRuns(b, [ResponseStarted(None)] + body, calls, events[n - 2]);
    ThreeParts(events);
  }

  lemma ClosingRuns(b: Bounds, events: seq<Event>, calls: map<string, bool>, usage: Event)
    requires Run(b, events) == Some(State(true, false, false, calls)) && InBounds(b, usage)
    requires forall id :: id in calls ==> calls[id]
    ensures AcceptedAndComplete(b, events + [usage] + [ResponseCompleted(None)])
  {
    RunOneMore(b, events, usage);
    RunOneMore(b, events + [usage], ResponseCompleted(None));
  }

  lemma RunOneMore(b: Bounds, events: seq<Event>, e: Event)
    ensures Run(b, events + [e]) == if Run(b, events).None? then None else Accept(b, Run(b, events).value, e)
  {
    assert (events + [e])[..|events|] == events;
  }

  /** A trace is accepted and complete exactly when the grammar says so. */
  lemma AcceptsExactlyCompleteTraces(b: Bounds, events: seq<Event>)
    ensures AcceptedAndComplete(b, events) <==> CompleteTrace(b, events)
  {
    if AcceptedAndComplete(b, events) {
      AcceptedHasShape(b, events);
    } else if CompleteTrace(b, events) {
      CompleteTraceIsAccepted(b, events);
    }
  }

  /** In a complete trace every call has one start, then one completion, and its deltas lie between them. */
  lemma EveryCallIsOneBlock(b: Bounds, body: seq<Event>, s: nat) returns (c: nat)
    requires Disciplined(b, body) && AllCompleted(body) && s < |body| && body[s].ToolCallStarted?
    ensures s < c < |body| && Completes(body, c, body[s].callId)
    ensures forall i :: 0 <= i < |body| && i != s ==> !Starts(body, i, body[s].callId)
    ensures forall i :: 0 <= i < |body| && i != c ==> !Completes(body, i, body[s].callId)
    ensures forall i :: 0 <= i < |body| && body[i].ToolArgumentsDelta? && body[i].callId == body[s].callId ==> s < i < c
  {
    var id := body[s].callId;
    c :| 0 <= c < |body| && Completes(body, c, id);
    assert HasStart(body[..c], id);
    var k :| 0 <= k < |body[..c]| && Starts(body[..c], k, id);
    assert Starts(body, k, id) && Starts(body, s, id);
    forall i | 0 <= i < |body| && body[i].ToolArgumentsDelta? && body[i].callId == id ensures s < i < c {
      var j :| 0 <= j < |body[..i]| && Starts(body[..i], j, id);
      assert Starts(body, j, id);
      if c < i {
        CompletionIsSeen(body, i, c, id);
      }
    }
  }

  lemma CompletionIsSeen(body: seq<Event>, i: nat, c: nat, id: string)
    requires c < i <= |body| && Completes(body, c, id)
    ensures HasCompletion(body[..i], id)
  {
    assert Completes(body[..i], c, id);
  }
}
