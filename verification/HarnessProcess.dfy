/** The normalized process stream as it runs: a byte buffer that is drained in place, counters, and the
    event state it feeds. */
module HarnessProcess {
  import opened Arithmetic
  import opened HarnessEvents
  import opened HarnessFraming
  import opened HarnessTraces
  import opened References
  import opened Utf8
  import opened Wrappers
  import Events = HarnessEvents
  import Framing = HarnessFraming

  class HarnessEventState {
    const bounds: Bounds
    var started: bool
    var usage: bool
    var completed: bool
    var toolCalls: map<string, bool>

    constructor (bounds: Bounds)
      ensures this.bounds == bounds && View() == INITIAL
    {
      this.bounds := bounds;
      started, usage, completed, toolCalls := false, false, false, map[];
    }

    function View(): State
      reads this
    {
      State(started, usage, completed, toolCalls)
    }

    method Accept(event: Event) returns (ok: bool)
      modifies this
      ensures var next := Events.Accept(bounds, old(View()), event);
              ok == next.Some? && View() == if ok then next.value else old(View())
    {
      if completed { return false; }
      match event
      case ResponseStarted(id) =>
        if id.Some? || started || usage { return false; }
        started := true;
        return true;
      case ResponseCompleted(id) =>
        if id.Some? || !started || !usage { return false; }
        completed := true;
        return true;
      case _ =>
        if !started || usage { return false; }
        ok := AcceptOpen(event);
    }

    /** Events between the opening and the usage report. */
    method AcceptOpen(event: Event) returns (ok: bool)
      requires started && !usage && !completed && !event.ResponseStarted? && !event.ResponseCompleted?
      modifies this`toolCalls, this`usage
      ensures var next := Events.Accept(bounds, old(View()), event);
              ok == next.Some? && View() == if ok then next.value else old(View())
    {
      match event
      case TextDelta(_) => return true;
      case ToolCallStarted(callId, toolId) =>
        if !ValidReference(callId) || toolId !in bounds.offered || MAXIMUM_CALLS <= |toolCalls| || callId in toolCalls {
          return false;
        }
        toolCalls := toolCalls[callId := false];
        return true;
      case ToolArgumentsDelta(callId, _) => return callId in toolCalls && !toolCalls[callId];
      case ToolCallCompleted(callId, isObject) =>
        if !isObject || callId !in toolCalls || toolCalls[callId] { return false; }
        toolCalls := toolCalls[callId := true];
        return true;
      case Usage(_, _, _) =>
        if !InBounds(bounds, event) || exists id :: id in toolCalls && !toolCalls[id] { return false; }
        usage := true;
        return true;
      case _ => return false;
    }

    predicate Complete()
      reads this
    {
      started && usage && completed
    }
  }

  class ProcessStream {
    const config: Config
    const state: HarnessEventState
    var buffer: seq<Byte>
    var totalOutputBytes: nat
    var stderrBytes: nat
    var frameCount: nat
    /** The events handed to the caller. */
    var events: seq<Event>

    constructor (config: Config)
      ensures this.config == config && fresh(state) && state.bounds == config.bounds && View() == START
    {
      this.config := config;
      state := new HarnessEventState(config.bounds);
      buffer, totalOutputBytes, stderrBytes, frameCount, events := [], 0, 0, 0, [];
    }

    function Done(): Progress
      reads this, state
    {
      Progress(frameCount, state.View(), events)
    }

    function View(): Stream
      reads this, state
    {
      Stream(buffer, totalOutputBytes, stderrBytes, Done())
    }

    /** Decodes one complete line and hands its event on. */
    method TakeLine(line: seq<Byte>) returns (ok: bool)
      requires state.bounds == config.bounds
      modifies this`frameCount, this`events, state
      ensures var taken := Framing.TakeLine(config, old(Done()), line);
              ok == taken.Some? && (ok ==> Done() == taken.value)
    {
      var frame := line;
      if frame != [] && frame[|frame| - 1] == CARRIAGE_RETURN {
        frame := frame[..|frame| - 1];
      }
      frameCount := SaturatingAdd(frameCount, 1);
      if frame == [] || config.limits.frameBytes < |frame| || config.limits.frames < frameCount {
        return false;
      }
      var event := Decoded(config, frame);
      if event.None? {
        return false;
      }
      ok := state.Accept(event.value);
      if ok {
        events := events + [event.value];
      }
    }

    /** Takes line after line out of the buffer until only an unfinished one is left. */
    method DrainLines() returns (ok: bool)
      requires state.bounds == config.bounds
      modifies this`buffer, this`frameCount, this`events, state
      ensures var drained := Drain(config, old(Done()), old(buffer));
              ok == drained.Some? && (ok ==> buffer == drained.value.rest && Done() == drained.value.progress)
    {
      var newline := NewlineAt(buffer);
      while newline < |buffer|
        invariant newline == NewlineAt(buffer)
        invariant Drain(config, Done(), buffer) == Drain(config, old(Done()), old(buffer))
        decreases |buffer|
      {
        var line := buffer[..newline];
        buffer := buffer[newline + 1..];
        var taken := TakeLine(line);
        if !taken { return false; }
        newline := NewlineAt(buffer);
      }
      ok := |buffer| <= config.limits.frameBytes;
    }

    method OnStdout(chunk: seq<Byte>) returns (ok: bool)
      requires state.bounds == config.bounds
      modifies this, state
      ensures var fed := FeedStdout(config, old(View()), chunk);
              ok == fed.Some? && (ok ==> View() == fed.value)
    {
      totalOutputBytes := SaturatingAdd(totalOutputBytes, |chunk|);
      if config.limits.totalBytes < totalOutputBytes {
        return false;
      }
      buffer := buffer + chunk;
      ok := DrainLines();
    }

    method OnStderr(chunk: seq<Byte>) returns (ok: bool)
      modifies this`stderrBytes
      ensures var fed := FeedStderr(config, old(View()), chunk);
              ok == fed.Some? && (ok ==> View() == fed.value)
    {
      stderrBytes := SaturatingAdd(stderrBytes, |chunk|);
      ok := stderrBytes <= config.limits.stderrBytes;
    }

    /** Reads a process to its exit; an early refusal stops it. */
    method ReadToExit(outputs: seq<Output>, success: bool) returns (accepted: bool)
      requires state.bounds == config.bounds && View() == START
      modifies this, state
      ensures accepted == Succeeds(FeedAll(config, outputs), success)
      ensures accepted ==> events == FeedAll(config, outputs).value.progress.events
      ensures accepted && ValidLimits(config.limits) ==>
                && CompleteTrace(config.bounds, events)
                && exists lines, frames :: StdoutOf(outputs) == Join(lines) && Reads(config, lines, frames, events)
    {
      assert outputs[..0] == [];
      for n := 0 to |outputs|
        invariant FeedAll(config, outputs[..n]) == Some(View())
      {
        assert outputs[..n + 1][..n] == outputs[..n];
        var ok;
        match outputs[n] {
          case Stdout(chunk) => ok := OnStdout(chunk);
          case Stderr(chunk) => ok := OnStderr(chunk);
        }
        if !ok {
          RefusedPrefix(config, outputs, n + 1);
          return false;
        }
      }
      assert outputs[..|outputs|] == outputs;
      accepted := success && buffer == [] && state.Complete();
      if accepted && ValidLimits(config.limits) {
        ghost var lines, frames := SuccessIsACompleteTrace(config, outputs);
        assert Join(lines) + [] == Join(lines);
      }
    }
  }

  lemma {:induction false} RefusedPrefix(c: Config, outputs: seq<Output>, n: nat)
    requires n <= |outputs| && FeedAll(c, outputs[..n]).None?
    ensures FeedAll(c, outputs).None?
    decreases |outputs|
  {
    if n == |outputs| {
      assert outputs[..n] == outputs;
    } else {
      assert outputs[..|outputs| - 1][..n] == outputs[..n];
      RefusedPrefix(c, outputs[..|outputs| - 1], n);
    }
  }
}
