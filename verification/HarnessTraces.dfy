/** What an accepted process output says: its lines, taken apart on their own, decoded one by one and in
    order, are the events that are handed on, and the events are a run of the automaton. */
module HarnessTraces {
  import opened Arithmetic
  import opened HarnessEvents
  import opened HarnessFraming
  import opened Utf8
  import opened Wrappers

  // ---------------------------------------------------------------------------------------------
  // Lines and frames
  // ---------------------------------------------------------------------------------------------

  /** The lines, each closed by a newline. */
  function Join(lines: seq<seq<Byte>>): seq<Byte> {
    if lines == [] then [] else lines[0] + [NEWLINE] + Join(lines[1..])
  }

  /** These are the complete lines of the output, and this is what comes after them. */
  predicate IsSplit(bytes: seq<Byte>, lines: seq<seq<Byte>>, rest: seq<Byte>) {
    bytes == Join(lines) + rest && (forall i :: 0 <= i < |lines| ==> NEWLINE !in lines[i]) && NEWLINE !in rest
  }

  /** A line is a frame, with or without a carriage return behind it. */
  predicate FrameOf(line: seq<Byte>, frame: seq<Byte>) {
    line == frame + [CARRIAGE_RETURN]
    || (line == frame && (frame == [] || frame[|frame| - 1] != CARRIAGE_RETURN))
  }

  /** Line by line, the frames are nonempty and within the limit, and decode to the events. */
  predicate Reads(c: Config, lines: seq<seq<Byte>>, frames: seq<seq<Byte>>, events: seq<Event>) {
    && |frames| == |lines| && |events| == |lines|
    && forall i :: 0 <= i < |lines| ==>
         FrameOf(lines[i], frames[i]) && 0 < |frames[i]| <= c.limits.frameBytes && c.decode(frames[i]) == Some(events[i])
  }

  /** Every output has exactly one such splitting. */
  lemma {:induction false} SplitExists(bytes: seq<Byte>) returns (lines: seq<seq<Byte>>, rest: seq<Byte>)
    ensures IsSplit(bytes, lines, rest)
    decreases |bytes|
  {
    if NewlineAt(bytes) == |bytes| {
      lines, rest := [], bytes;
    } else {
      var line, tail := FirstLine(bytes);
      var more;
      more, rest := SplitExists(tail);
      lines := [line] + more;
      assert lines[1..] == more;
      assert line + [NEWLINE] + (Join(more) + rest) == line + [NEWLINE] + Join(more) + rest;
      forall i | 0 <= i < |lines| ensures NEWLINE !in lines[i] {
        assert i > 0 ==> lines[i] == more[i - 1];
      }
    }
  }

  lemma FirstOfSplit(lines: seq<seq<Byte>>, rest: seq<Byte>)
    requires lines != [] && NEWLINE !in lines[0]
    ensures Join(lines) + rest == lines[0] + [NEWLINE] + (Join(lines[1..]) + rest)
    ensures NewlineAt(lines[0]) == |lines[0]| && NewlineAt(Join(lines) + rest) == |lines[0]|
  {
    var line, tail := lines[0], Join(lines[1..]) + rest;
    assert Join(lines) + rest == line + [NEWLINE] + tail == line + ([NEWLINE] + tail);
    NewlineInPrefix(line, [NEWLINE] + tail);
  }

  lemma NewlineWhenThereAreLines(lines: seq<seq<Byte>>, rest: seq<Byte>)
    requires IsSplit(Join(lines) + rest, lines, rest)
    ensures if lines == [] then Join(lines) + rest == rest else NEWLINE in Join(lines) + rest
  {
    if lines != [] { FirstOfSplit(lines, rest); }
  }

  lemma {:induction false} SplitIsUnique(
      lines: seq<seq<Byte>>, rest: seq<Byte>, lines': seq<seq<Byte>>, rest': seq<Byte>)
    requires IsSplit(Join(lines) + rest, lines, rest) && IsSplit(Join(lines) + rest, lines', rest')
    ensures lines == lines' && rest == rest'
    decreases |lines|
  {
    var bytes := Join(lines) + rest;
    NewlineWhenThereAreLines(lines, rest);
    NewlineWhenThereAreLines(lines', rest');
    if lines != [] {
      FirstOfSplit(lines, rest);
      FirstOfSplit(lines', rest');
      var i := NewlineAt(bytes);
      assert lines[0] == bytes[..i] == lines'[0];
      assert Join(lines[1..]) + rest == bytes[i + 1..] == Join(lines'[1..]) + rest';
      SplitIsUnique(lines[1..], rest, lines'[1..], rest');
    }
  }

  // ---------------------------------------------------------------------------------------------
  // One line after the other
  // ---------------------------------------------------------------------------------------------

  /** The progress is that of the events so far: their number, and the state they lead to. */
  predicate Follows(c: Config, p: Progress) {
    p.frames == |p.events| <= c.limits.frames && Run(c.bounds, p.events) == Some(p.state)
  }

  lemma LineReads(c: Config, p: Progress, line: seq<Byte>) returns (frame: seq<Byte>, event: Event)
    requires ValidLimits(c.limits) && Follows(c, p) && TakeLine(c, p, line).Some?
    ensures FrameOf(line, frame) && 0 < |frame| <= c.limits.frameBytes && c.decode(frame) == Some(event)
    ensures var next := TakeLine(c, p, line).value;
            Follows(c, next) && next.events == p.events + [event]
  {
    frame := WithoutReturn(line);
    event := c.decode(frame).value;
    RunOneMore(c.bounds, p.events, event);
  }

  lemma ReadLineIsTaken(c: Config, p: Progress, line: seq<Byte>, frame: seq<Byte>, event: Event)
    requires ValidLimits(c.limits) && Follows(c, p) && p.frames < c.limits.frames
    requires FrameOf(line, frame) && 0 < |frame| <= c.limits.frameBytes && c.decode(frame) == Some(event)
    requires Run(c.bounds, p.events + [event]).Some?
    ensures TakeLine(c, p, line).Some? && TakeLine(c, p, line).value.events == p.events + [event]
  {
    assert WithoutReturn(line) == frame;
    RunOneMore(c.bounds, p.events, event);
  }

  lemma NothingLeftToDrain(c: Config, p: Progress, rest: seq<Byte>)
    requires NEWLINE !in rest
    ensures Drain(c, p, rest) == if c.limits.frameBytes < |rest| then None else Some(Drained(p, rest))
  {
    assert NewlineAt(rest) == |rest|;
  }

  /** Draining a split output reads its lines in order. */
  lemma {:induction false} DrainReads(c: Config, p: Progress, lines: seq<seq<Byte>>, rest: seq<Byte>)
    returns (frames: seq<seq<Byte>>, events: seq<Event>)
    requires ValidLimits(c.limits) && Follows(c, p) && Drain(c, p, Join(lines) + rest).Some?
    requires (forall i :: 0 <= i < |lines| ==> NEWLINE !in lines[i]) && NEWLINE !in rest
    ensures Reads(c, lines, frames, events)
    ensures var d := Drain(c, p, Join(lines) + rest).value;
            d.rest == rest && Follows(c, d.progress) && d.progress.events == p.events + events
    decreases |lines|
  {
    hide Drain, TakeLine, Run;
    if lines == [] {
      frames, events := [], [];
      assert Join(lines) + rest == rest;
      NothingLeftToDrain(c, p, rest);
      assert p.events + [] == p.events;
    } else {
      FirstOfSplit(lines, rest);
      DrainLine(c, p, lines[0], Join(lines[1..]) + rest);
      var next := TakeLine(c, p, lines[0]).value;
      var frame, event := LineReads(c, p, lines[0]);
      var frames', events' := DrainReads(c, next, lines[1..], rest);
      frames, events := [frame] + frames', [event] + events';
      assert p.events + [event] + events' == p.events + events;
      forall i | 0 <= i < |lines|
        ensures FrameOf(lines[i], frames[i]) && 0 < |frames[i]| <= c.limits.frameBytes && c.decode(frames[i]) == Some(events[i])
      {
        assert i > 0 ==> lines[i] == lines[1..][i - 1] && frames[i] == frames'[i - 1] && events[i] == events'[i - 1];
      }
    }
  }

  lemma {:induction false} RunPrefix(b: Bounds, front: seq<Event>, more: seq<Event>)
    requires Run(b, front + more).Some?
    ensures Run(b, front).Some?
    decreases |more|
  {
    if more == [] {
      assert front + more == front;
    } else {
      var n := |more| - 1;
      assert front + more == front + more[..n] + [more[n]];
      RunOneMore(b, front + more[..n], more[n]);
      RunPrefix(b, front, more[..n]);
    }
  }

  /** And lines that read as a run of the automaton are drained. */
  lemma {:induction false} ReadLinesAreDrained(c: Config, p: Progress, lines: seq<seq<Byte>>, rest: seq<Byte>,
                                               frames: seq<seq<Byte>>, events: seq<Event>)
    requires ValidLimits(c.limits) && Follows(c, p) && Reads(c, lines, frames, events)
    requires (forall i :: 0 <= i < |lines| ==> NEWLINE !in lines[i]) && NEWLINE !in rest
    requires p.frames + |lines| <= c.limits.frames && |rest| <= c.limits.frameBytes
    requires Run(c.bounds, p.events + events).Some?
    ensures Drain(c, p, Join(lines) + rest).Some?
    decreases |lines|
  {
    hide Drain, TakeLine, Run;
    if lines == [] {
      assert Join(lines) + rest == rest;
      NothingLeftToDrain(c, p, rest);
    } else {
      assert p.events + events == p.events + [events[0]] + events[1..];
      RunPrefix(c.bounds, p.events + [events[0]], events[1..]);
      ReadLineIsTaken(c, p, lines[0], frames[0], events[0]);
      var frame, event := LineReads(c, p, lines[0]);
      FirstOfSplit(lines, rest);
      DrainLine(c, p, lines[0], Join(lines[1..]) + rest);
      ReadLinesAreDrained(c, TakeLine(c, p, lines[0]).value, lines[1..], rest, frames[1..], events[1..]);
    }
  }

  // ---------------------------------------------------------------------------------------------
  // Whole outputs
  // ---------------------------------------------------------------------------------------------

  lemma NothingFollowsTheStart(c: Config)
    ensures Follows(c, NO_PROGRESS)
  {}

  /** Accepted in one piece, exactly: within the limits, every line read, and the events a run of the
      automaton; and then these are the events, in this order. */
  lemma WholeReadsExactly(c: Config, bytes: seq<Byte>, lines: seq<seq<Byte>>, rest: seq<Byte>)
    requires ValidLimits(c.limits) && IsSplit(bytes, lines, rest)
    ensures Whole(c, bytes).Some? <==>
              && |bytes| <= c.limits.totalBytes && |lines| <= c.limits.frames && |rest| <= c.limits.frameBytes
              && exists frames, events :: Reads(c, lines, frames, events) && Run(c.bounds, events).Some?
    ensures Whole(c, bytes).Some? ==>
              var s := Whole(c, bytes).value;
              && s.buffer == rest && s.total == |bytes| && s.progress.frames == |lines|
              && Run(c.bounds, s.progress.events) == Some(s.progress.state)
              && exists frames :: Reads(c, lines, frames, s.progress.events)
  {
    hide Drain, TakeLine, Run;
    WholeIsTheReference(c, bytes);
    NothingFollowsTheStart(c);
    if Whole(c, bytes).Some? {
      var frames, events := DrainReads(c, NO_PROGRESS, lines, rest);
      assert [] + events == events;
      NothingLeftToDrain(c, NO_PROGRESS, rest);
      RestFits(c, NO_PROGRESS, lines, rest);
    } else if |bytes| <= c.limits.totalBytes && |lines| <= c.limits.frames && |rest| <= c.limits.frameBytes {
      forall frames, events | Reads(c, lines, frames, events) && Run(c.bounds, events).Some? ensures false {
        assert NO_PROGRESS.events + events == events;
        ReadLinesAreDrained(c, NO_PROGRESS, lines, rest, frames, events);
      }
    }
  }

  lemma {:induction false} RestFits(c: Config, p: Progress, lines: seq<seq<Byte>>, rest: seq<Byte>)
    requires Drain(c, p, Join(lines) + rest).Some?
    requires (forall i :: 0 <= i < |lines| ==> NEWLINE !in lines[i]) && NEWLINE !in rest
    ensures |rest| <= c.limits.frameBytes
    decreases |lines|
  {
    hide Drain, TakeLine;
    if lines == [] {
      assert Join(lines) + rest == rest;
      NothingLeftToDrain(c, p, rest);
    } else {
      FirstOfSplit(lines, rest);
      DrainLine(c, p, lines[0], Join(lines[1..]) + rest);
      RestFits(c, TakeLine(c, p, lines[0]).value, lines[1..], rest);
    }
  }

  /** However it was delivered: what is accepted hands on the events of its lines, in order, and they lead
      to the state that is reached. */
  lemma AcceptedEventsAreTheLines(c: Config, outputs: seq<Output>)
    returns (lines: seq<seq<Byte>>, frames: seq<seq<Byte>>)
    requires ValidLimits(c.limits) && FeedAll(c, outputs).Some?
    ensures var s := FeedAll(c, outputs).value;
            && IsSplit(StdoutOf(outputs), lines, s.buffer) && Reads(c, lines, frames, s.progress.events)
            && s.progress.frames == |lines| && Run(c.bounds, s.progress.events) == Some(s.progress.state)
  {
    var rest;
    AcceptedChunksAreTheWhole(c, outputs);
    lines, rest := SplitExists(StdoutOf(outputs));
    NothingFollowsTheStart(c);
    var events;
    frames, events := DrainReads(c, NO_PROGRESS, lines, rest);
    assert [] + events == events;
  }

  /** A process that exits well has written whole lines and nothing else, and their events are a complete trace. */
  lemma SuccessIsACompleteTrace(c: Config, outputs: seq<Output>)
    returns (lines: seq<seq<Byte>>, frames: seq<seq<Byte>>)
    requires ValidLimits(c.limits) && Succeeds(FeedAll(c, outputs), true)
    ensures var events := FeedAll(c, outputs).value.progress.events;
            && IsSplit(StdoutOf(outputs), lines, []) && Reads(c, lines, frames, events) && CompleteTrace(c.bounds, events)
  {
    lines, frames := AcceptedEventsAreTheLines(c, outputs);
    AcceptsExactlyCompleteTraces(c.bounds, FeedAll(c, outputs).value.progress.events);
  }

  /** When every line fits, that is all there is to it, whatever the cuts. */
  lemma FittingOutputSucceedsExactly(c: Config, outputs: seq<Output>, success: bool, lines: seq<seq<Byte>>, rest: seq<Byte>)
    requires ValidLimits(c.limits) && IsSplit(StdoutOf(outputs), lines, rest)
    requires LinesFit(c.limits.frameBytes, StdoutOf(outputs)) && StderrBytes(outputs) <= c.limits.stderrBytes
    ensures Succeeds(FeedAll(c, outputs), success) <==>
              && success && rest == []
              && |StdoutOf(outputs)| <= c.limits.totalBytes && |lines| <= c.limits.frames
              && exists frames, events :: Reads(c, lines, frames, events) && CompleteTrace(c.bounds, events)
  {
    var bytes := StdoutOf(outputs);
    WholeIsTheReference(c, bytes);
    WholeReadsExactly(c, bytes, lines, rest);
    if Whole(c, bytes).Some? { FittingChunksAreAccepted(c, outputs); }
    if FeedAll(c, outputs).Some? {
      AcceptedChunksAreTheWhole(c, outputs);
      SameEvents(c, outputs, success, lines, rest);
    } else {
      forall frames, events | Reads(c, lines, frames, events) && CompleteTrace(c.bounds, events)
        ensures Run(c.bounds, events).Some?
      {
        AcceptsExactlyCompleteTraces(c.bounds, events);
      }
    }
  }

  lemma SameEvents(c: Config, outputs: seq<Output>, success: bool, lines: seq<seq<Byte>>, rest: seq<Byte>)
    requires ValidLimits(c.limits) && IsSplit(StdoutOf(outputs), lines, rest) && FeedAll(c, outputs).Some?
    ensures Succeeds(FeedAll(c, outputs), success) <==>
              && success && rest == [] && exists frames, events :: Reads(c, lines, frames, events) && CompleteTrace(c.bounds, events)
  {
    var s := FeedAll(c, outputs).value;
    var lines', frames := AcceptedEventsAreTheLines(c, outputs);
    SplitIsUnique(lines, rest, lines', s.buffer);
    AcceptsExactlyCompleteTraces(c.bounds, s.progress.events);
    forall frames', events | Reads(c, lines, frames', events) ensures events == s.progress.events {
      ReadsIsUnique(c, lines, frames, s.progress.events, frames', events);
    }
  }

  lemma FrameIsUnique(line: seq<Byte>, frame: seq<Byte>, frame': seq<Byte>)
    requires FrameOf(line, frame) && FrameOf(line, frame')
    ensures frame == frame'
  {
    if line == frame + [CARRIAGE_RETURN] && line == frame' + [CARRIAGE_RETURN] {
      assert frame == line[..|line| - 1] == frame';
    }
  }

  lemma ReadsIsUnique(c: Config, lines: seq<seq<Byte>>, frames: seq<seq<Byte>>, events: seq<Event>,
                      frames': seq<seq<Byte>>, events': seq<Event>)
    requires Reads(c, lines, frames, events) && Reads(c, lines, frames', events')
    ensures frames == frames' && events == events'
  {
    forall i | 0 <= i < |lines| ensures frames[i] == frames'[i] && events[i] == events'[i] {
      FrameIsUnique(lines[i], frames[i], frames'[i]);
    }
  }
}
