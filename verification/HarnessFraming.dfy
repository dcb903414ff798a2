/** JSON-lines framing of a harness process: what a stream of output chunks decodes to, and how far
    that depends on where the chunks are cut. */
module HarnessFraming {
  import opened Arithmetic
  import opened HarnessEvents
  import opened Utf8
  import opened Wrappers

  const NEWLINE: Byte := 10
  const CARRIAGE_RETURN: Byte := 13
  const MAXIMUM_FRAME_BYTES: nat := 16 * 1024 * 1024
  const MAXIMUM_TOTAL_OUTPUT_BYTES: nat := 64 * 1024 * 1024
  const MAXIMUM_STDERR_BYTES: nat := 64 * 1024
  const MAXIMUM_FRAMES: nat := 65_536

  datatype Limits = Limits(frameBytes: nat, totalBytes: nat, stderrBytes: nat, frames: nat)

  predicate ValidLimits(l: Limits) {
    && 0 < l.frameBytes <= MAXIMUM_FRAME_BYTES
    && l.frameBytes <= l.totalBytes <= MAXIMUM_TOTAL_OUTPUT_BYTES
    && 0 < l.stderrBytes <= MAXIMUM_STDERR_BYTES
    && 0 < l.frames <= MAXIMUM_FRAMES
  }

  datatype Config = Config(limits: Limits, bounds: Bounds, decode: seq<Byte> -> Option<Event>)

  /** What the complete lines so far came to. */
  datatype Progress = Progress(frames: nat, state: State, events: seq<Event>)

  datatype Drained = Drained(progress: Progress, rest: seq<Byte>)

  datatype Stream = Stream(buffer: seq<Byte>, total: nat, stderr: nat, progress: Progress)

  const NO_PROGRESS := Progress(0, INITIAL, [])
  const START := Stream([], 0, 0, NO_PROGRESS)

  datatype Output = Stdout(chunk: seq<Byte>) | Stderr(chunk: seq<Byte>)

  function Decoded(c: Config, frame: seq<Byte>): Option<Event> { c.decode(frame) }

  /** Position of the first newline; the length when there is none. */
  function NewlineAt(bytes: seq<Byte>): (i: nat)
    ensures i <= |bytes|
    ensures i < |bytes| ==> bytes[i] == NEWLINE
    ensures forall k :: 0 <= k < i ==> bytes[k] != NEWLINE
  {
    if bytes == [] then 0 else if bytes[0] == NEWLINE then 0 else 1 + NewlineAt(bytes[1..])
  }

  function WithoutReturn(line: seq<Byte>): seq<Byte> {
    if line != [] && line[|line| - 1] == CARRIAGE_RETURN then line[..|line| - 1] else line
  }

  /** One complete line, without its newline. `None` stops the process. */
  function TakeLine(c: Config, p: Progress, line: seq<Byte>): Option<Progress> {
    var frame := WithoutReturn(line);
    var frames := SaturatingAdd(p.frames, 1);
    if frame == [] || c.limits.frameBytes < |frame| || c.limits.frames < frames then None
    else
      var event := Decoded(c, frame);
      if event.None? then None
      else
        var state := Accept(c.bounds, p.state, event.value);
        if state.None? then None else Some(Progress(frames, state.value, p.events + [event.value]))
  }

  /** Takes every complete line out of the buffer. */
  function Drain(c: Config, p: Progress, buffer: seq<Byte>): Option<Drained>
    decreases |buffer|
  {
    var i := NewlineAt(buffer);
    if i == |buffer| then
      if c.limits.frameBytes < |buffer| then None else Some(Drained(p, buffer))
    else
      var taken := TakeLine(c, p, buffer[..i]);
      if taken.None? then None else Drain(c, taken.value, buffer[i + 1..])
  }

  function FeedStdout(c: Config, s: Stream, chunk: seq<Byte>): Option<Stream> {
    var total := SaturatingAdd(s.total, |chunk|);
    if c.limits.totalBytes < total then None
    else
      var drained := Drain(c, s.progress, s.buffer + chunk);
      if drained.None? then None else Some(Stream(drained.value.rest, total, s.stderr, drained.value.progress))
  }

  function FeedStderr(c: Config, s: Stream, chunk: seq<Byte>): Option<Stream> {
    var stderr := SaturatingAdd(s.stderr, |chunk|);
    if c.limits.stderrBytes < stderr then None else Some(s.(stderr := stderr))
  }

  function Feed(c: Config, s: Stream, output: Output): Option<Stream> {
    match output
    case Stdout(chunk) => FeedStdout(c, s, chunk)
    case Stderr(chunk) => FeedStderr(c, s, chunk)
  }

  /** The stream after a sequence of observations. */
  function FeedAll(c: Config, outputs: seq<Output>): Option<Stream> {
    if outputs == [] then Some(START)
    else
      var before := FeedAll(c, outputs[..|outputs| - 1]);
      if before.None? then None else Feed(c, before.value, outputs[|outputs| - 1])
  }

  /** What the exit of the process makes of it. */
  predicate Succeeds(s: Option<Stream>, success: bool) {
    s.Some? && success && s.value.buffer == [] && IsComplete(s.value.progress.state)
  }

  // ---------------------------------------------------------------------------------------------
  // Chunking
  // ---------------------------------------------------------------------------------------------

  function StdoutOf(outputs: seq<Output>): seq<Byte> {
    if outputs == [] then []
    else
      var last := outputs[|outputs| - 1];
      StdoutOf(outputs[..|outputs| - 1]) + (if last.Stdout? then last.chunk else [])
  }

  function StderrBytes(outputs: seq<Output>): nat {
    if outputs == [] then 0
    else
      var last := outputs[|outputs| - 1];
      StderrBytes(outputs[..|outputs| - 1]) + (if last.Stderr? then |last.chunk| else 0)
  }

  /** The reference: all of stdout at once. */
  function Whole(c: Config, bytes: seq<Byte>): Option<Stream> {
    FeedStdout(c, START, bytes)
  }

  /** Every line, counting a trailing carriage return, fits the frame limit. */
  predicate LinesFit(limit: nat, bytes: seq<Byte>)
    decreases |bytes|
  {
    var i := NewlineAt(bytes);
    i <= limit && (i == |bytes| || LinesFit(limit, bytes[i + 1..]))
  }

  lemma NewlineInPrefix(a: seq<Byte>, b: seq<Byte>)
    ensures NewlineAt(a) < |a| ==> NewlineAt(a + b) == NewlineAt(a)
    ensures NewlineAt(a) == |a| ==> NewlineAt(a + b) == |a| + NewlineAt(b)
  {
    var n := NewlineAt(a + b);
    assert forall k :: 0 <= k < |a| ==> (a + b)[k] == a[k];
    assert forall k :: 0 <= k < |b| ==> (a + b)[|a| + k] == b[k];
    if NewlineAt(a) < |a| {
      assert (a + b)[NewlineAt(a)] == NEWLINE;
    } else if NewlineAt(b) < |b| {
      assert (a + b)[|a| + NewlineAt(b)] == NEWLINE;
    }
  }

  /** The first line of a buffer, and draining from there on. */
  lemma DrainLine(c: Config, p: Progress, line: seq<Byte>, rest: seq<Byte>)
    requires NewlineAt(line) == |line|
    ensures NewlineAt(line + [NEWLINE] + rest) == |line|
    ensures var taken := TakeLine(c, p, line);
            Drain(c, p, line + [NEWLINE] + rest) == if taken.None? then None else Drain(c, taken.value, rest)
  {
    var buffer := line + [NEWLINE] + rest;
    assert buffer == line + ([NEWLINE] + rest);
    NewlineInPrefix(line, [NEWLINE] + rest);
    assert buffer[..|line|] == line && buffer[|line| + 1..] == rest;
  }

  lemma FirstLine(bytes: seq<Byte>) returns (line: seq<Byte>, rest: seq<Byte>)
    requires NewlineAt(bytes) < |bytes|
    ensures bytes == line + [NEWLINE] + rest && NewlineAt(line) == |line| == NewlineAt(bytes)
    ensures line == bytes[..NewlineAt(bytes)] && rest == bytes[NewlineAt(bytes) + 1..]
  {
    var i := NewlineAt(bytes);
    line, rest := bytes[..i], bytes[i + 1..];
  }

  lemma NothingToDrain(c: Config, p: Progress, buffer: seq<Byte>)
    requires NewlineAt(buffer) == |buffer| && Drain(c, p, buffer).Some?
    ensures Drain(c, p, buffer).value == Drained(p, buffer)
  {}

  /** Draining what is there first makes no difference when it succeeds. */
  lemma {:induction false} DrainInTwo(c: Config, p: Progress, buffer: seq<Byte>, more: seq<Byte>)
    requires Drain(c, p, buffer).Some?
    ensures var first := Drain(c, p, buffer).value;
            Drain(c, p, buffer + more) == Drain(c, first.progress, first.rest + more)
    decreases |buffer|
  {
    hide Drain, TakeLine;
    if NewlineAt(buffer) == |buffer| {
      NothingToDrain(c, p, buffer);
    } else {
      var line, rest := FirstLine(buffer);
      DrainLine(c, p, line, rest);
      var taken := TakeLine(c, p, line).value;
      assert Drain(c, p, buffer + more) == Drain(c, taken, rest + more) by {
        assert buffer + more == line + [NEWLINE] + (rest + more);
        DrainLine(c, p, line, rest + more);
      }
      DrainInTwo(c, taken, rest, more);
    }
  }

  lemma FitsAfterFirst(limit: nat, line: seq<Byte>, rest: seq<Byte>)
    requires NewlineAt(line) == |line|
    ensures LinesFit(limit, line + [NEWLINE] + rest) <==> |line| <= limit && LinesFit(limit, rest)
  {
    var bytes := line + [NEWLINE] + rest;
    assert bytes == line + ([NEWLINE] + rest);
    NewlineInPrefix(line, [NEWLINE] + rest);
    assert bytes[|line| + 1..] == rest;
  }

  /** Draining a prefix succeeds when the whole does and its lines fit. */
  lemma {:induction false} DrainPrefix(c: Config, p: Progress, buffer: seq<Byte>, more: seq<Byte>)
    requires Drain(c, p, buffer + more).Some? && LinesFit(c.limits.frameBytes, buffer + more)
    ensures Drain(c, p, buffer).Some?
    decreases |buffer|
  {
    if NewlineAt(buffer) == |buffer| {
      NewlineInPrefix(buffer, more);
    } else {
      var line, rest := FirstLine(buffer);
      DrainLine(c, p, line, rest);
      DrainLine(c, p, line, rest + more);
      assert buffer + more == line + [NEWLINE] + (rest + more);
      FitsAfterFirst(c.limits.frameBytes, line, rest + more);
      DrainPrefix(c, TakeLine(c, p, line).value, rest, more);
    }
  }

  /** Where a line is too long, there is a place to cut that the process does not survive. */
  lemma {:induction false} FatalCut(c: Config, p: Progress, buffer: seq<Byte>) returns (k: nat)
    requires Drain(c, p, buffer).Some? && !LinesFit(c.limits.frameBytes, buffer)
    ensures k <= |buffer| && Drain(c, p, buffer[..k]).None?
    decreases |buffer|
  {
    hide TakeLine;
    var line, rest := FirstLine(buffer);
    DrainLine(c, p, line, rest);
    FitsAfterFirst(c.limits.frameBytes, line, rest);
    if c.limits.frameBytes < |line| {
      k := |line|;
    } else {
      var j := FatalCut(c, TakeLine(c, p, line).value, rest);
      k := |line| + 1 + j;
      assert buffer[..k] == line + [NEWLINE] + rest[..j];
      DrainLine(c, p, line, rest[..j]);
    }
  }

  /** The stream that a drained buffer and the two byte counts come to. */
  function StreamOf(c: Config, drained: Option<Drained>, total: nat, stderr: nat): Option<Stream> {
    if c.limits.totalBytes < total || drained.None? then None
    else Some(Stream(drained.value.rest, total, stderr, drained.value.progress))
  }

  /** What the reference leaves, with the given amount of stderr. */
  function Reference(c: Config, bytes: seq<Byte>, stderr: nat): Option<Stream> {
    StreamOf(c, Drain(c, NO_PROGRESS, bytes), |bytes|, stderr)
  }

  lemma FeedsAs(c: Config, s: Stream, chunk: seq<Byte>, drained: Option<Drained>)
    requires ValidLimits(c.limits) && s.total <= c.limits.totalBytes && Drain(c, s.progress, s.buffer + chunk) == drained
    ensures FeedStdout(c, s, chunk) == StreamOf(c, drained, s.total + |chunk|, s.stderr)
  {
    hide Drain;
  }

  lemma WholeIsTheReference(c: Config, bytes: seq<Byte>)
    requires ValidLimits(c.limits)
    ensures Whole(c, bytes) == Reference(c, bytes, 0)
  {
    assert [] + bytes == bytes;
  }

  /** One more chunk continues the reference exactly. */
  lemma ChunkContinuesTheReference(c: Config, bytes: seq<Byte>, chunk: seq<Byte>, stderr: nat)
    requires ValidLimits(c.limits) && Reference(c, bytes, stderr).Some?
    ensures FeedStdout(c, Reference(c, bytes, stderr).value, chunk) == Reference(c, bytes + chunk, stderr)
  {
    hide Drain;
    var before := Reference(c, bytes, stderr).value;
    DrainInTwo(c, NO_PROGRESS, bytes, chunk);
    FeedsAs(c, before, chunk, Drain(c, NO_PROGRESS, bytes + chunk));
  }

  /** Stderr only counts. */
  lemma StderrOnlyCounts(c: Config, bytes: seq<Byte>, stderr: nat, chunk: seq<Byte>)
    requires ValidLimits(c.limits) && Reference(c, bytes, stderr).Some?
    ensures FeedStderr(c, Reference(c, bytes, stderr).value, chunk)
         == if c.limits.stderrBytes < stderr + |chunk| then None else Reference(c, bytes, stderr + |chunk|)
  {}

  lemma OutputContinuesTheReference(c: Config, bytes: seq<Byte>, stderr: nat, output: Output)
    requires ValidLimits(c.limits) && Reference(c, bytes, stderr).Some?
    requires Feed(c, Reference(c, bytes, stderr).value, output).Some?
    ensures output.Stdout? ==> Feed(c, Reference(c, bytes, stderr).value, output) == Reference(c, bytes + output.chunk, stderr)
    ensures output.Stderr? ==>
              && stderr + |output.chunk| <= c.limits.stderrBytes
              && Feed(c, Reference(c, bytes, stderr).value, output) == Reference(c, bytes, stderr + |output.chunk|)
  {
    match output
    case Stdout(chunk) => ChunkContinuesTheReference(c, bytes, chunk, stderr);
    case Stderr(chunk) => StderrOnlyCounts(c, bytes, stderr, chunk);
  }

  lemma OneMoreOutput(c: Config, front: seq<Output>, last: Output)
    ensures var outputs := front + [last];
            && StdoutOf(outputs) == (if last.Stdout? then StdoutOf(front) + last.chunk else StdoutOf(front))
            && StderrBytes(outputs) == StderrBytes(front) + (if last.Stderr? then |last.chunk| else 0)
            && FeedAll(c, outputs) == if FeedAll(c, front).None? then None else Feed(c, FeedAll(c, front).value, last)
  {
    assert (front + [last])[..|front|] == front;
    assert StdoutOf(front) + [] == StdoutOf(front);
  }

  predicate AgreesWithTheReference(c: Config, outputs: seq<Output>) {
    && StderrBytes(outputs) <= c.limits.stderrBytes
    && FeedAll(c, outputs) == Reference(c, StdoutOf(outputs), StderrBytes(outputs))
  }

  lemma OneMoreAgrees(c: Config, front: seq<Output>, last: Output)
    requires ValidLimits(c.limits) && FeedAll(c, front + [last]).Some? && AgreesWithTheReference(c, front)
    ensures AgreesWithTheReference(c, front + [last])
  {
    OneMoreOutput(c, front, last);
    OutputContinuesTheReference(c, StdoutOf(front), StderrBytes(front), last);
  }

  /** However stdout is cut and stderr mixed in, what is accepted is what the reference accepts. */
  lemma {:induction false} AcceptedChunksAreTheWhole(c: Config, outputs: seq<Output>)
    requires ValidLimits(c.limits) && FeedAll(c, outputs).Some?
    ensures AgreesWithTheReference(c, outputs)
    decreases |outputs|
  {
    if outputs == [] {
      NothingAgrees(c);
    } else {
      var front, last := outputs[..|outputs| - 1], outputs[|outputs| - 1];
      assert front + [last] == outputs;
      assert FeedAll(c, front).Some? by { OneMoreOutput(c, front, last); }
      AcceptedChunksAreTheWhole(c, front);
      OneMoreAgrees(c, front, last);
    }
  }

  lemma NothingAgrees(c: Config)
    ensures AgreesWithTheReference(c, [])
  {
    assert Drain(c, NO_PROGRESS, []) == Some(Drained(NO_PROGRESS, []));
  }

  lemma {:induction false} PrefixFits(limit: nat, a: seq<Byte>, b: seq<Byte>)
    requires LinesFit(limit, a + b)
    ensures LinesFit(limit, a)
    decreases |a|
  {
    if NewlineAt(a) == |a| {
      NewlineInPrefix(a, b);
    } else {
      var line, rest := FirstLine(a);
      assert a + b == line + [NEWLINE] + (rest + b);
      FitsAfterFirst(limit, line, rest + b);
      PrefixFits(limit, rest, b);
      FitsAfterFirst(limit, line, rest);
    }
  }

  lemma ReferencePrefix(c: Config, bytes: seq<Byte>, chunk: seq<Byte>)
    requires Reference(c, bytes + chunk, 0).Some? && LinesFit(c.limits.frameBytes, bytes + chunk)
    ensures Reference(c, bytes, 0).Some? && LinesFit(c.limits.frameBytes, bytes)
  {
    DrainPrefix(c, NO_PROGRESS, bytes, chunk);
    PrefixFits(c.limits.frameBytes, bytes, chunk);
  }

  /** When every line fits, nothing depends on the cuts. */
  lemma {:induction false} FittingChunksAreAccepted(c: Config, outputs: seq<Output>)
    requires ValidLimits(c.limits) && LinesFit(c.limits.frameBytes, StdoutOf(outputs))
    requires Reference(c, StdoutOf(outputs), 0).Some? && StderrBytes(outputs) <= c.limits.stderrBytes
    ensures FeedAll(c, outputs).Some?
    decreases |outputs|
  {
    if outputs != [] {
      var front, last := outputs[..|outputs| - 1], outputs[|outputs| - 1];
      match last {
        case Stdout(chunk) => ReferencePrefix(c, StdoutOf(front), chunk);
        case Stderr(_) => assert StdoutOf(outputs) == StdoutOf(front);
      }
      FittingChunksAreAccepted(c, front);
      AcceptedChunksAreTheWhole(c, front);
      if last.Stdout? {
        ChunkContinuesTheReference(c, StdoutOf(front), last.chunk, StderrBytes(front));
      }
    }
  }

  /** For a stdout whose lines all fit, any two ways to deliver it, with any admissible stderr between,
      end alike at a given exit and yield the same events. */
  lemma ChunkingDoesNotMatter(c: Config, one: seq<Output>, other: seq<Output>, success: bool)
    requires ValidLimits(c.limits) && StdoutOf(one) == StdoutOf(other)
    requires LinesFit(c.limits.frameBytes, StdoutOf(one))
    requires StderrBytes(one) <= c.limits.stderrBytes && StderrBytes(other) <= c.limits.stderrBytes
    ensures FeedAll(c, one).Some? <==> FeedAll(c, other).Some?
    ensures Succeeds(FeedAll(c, one), success) <==> Succeeds(FeedAll(c, other), success)
    ensures FeedAll(c, one).Some? ==> FeedAll(c, one).value.progress == FeedAll(c, other).value.progress
  {
    if Reference(c, StdoutOf(one), 0).Some? {
      FittingChunksAreAccepted(c, one);
      FittingChunksAreAccepted(c, other);
    }
    if FeedAll(c, one).Some? { AcceptedChunksAreTheWhole(c, one); }
    if FeedAll(c, other).Some? { AcceptedChunksAreTheWhole(c, other); }
  }

  /** The cuts of a stdout that is accepted in one piece. */
  ghost predicate EveryChunkingAccepted(c: Config, bytes: seq<Byte>) {
    forall outputs :: StdoutOf(outputs) == bytes && StderrBytes(outputs) <= c.limits.stderrBytes ==> FeedAll(c, outputs).Some?
  }

  lemma TwoChunks(c: Config, a: seq<Byte>, b: seq<Byte>)
    ensures StdoutOf([Stdout(a), Stdout(b)]) == a + b && StderrBytes([Stdout(a), Stdout(b)]) == 0
    ensures Whole(c, a).None? ==> FeedAll(c, [Stdout(a), Stdout(b)]).None?
  {
    assert [Stdout(a), Stdout(b)][..1] == [Stdout(a)];
    OneChunk(c, a);
  }

  /** The two pieces themselves do not matter to the caller. */
  lemma FatalPair(c: Config, a: seq<Byte>, b: seq<Byte>) returns (outputs: seq<Output>)
    requires Whole(c, a).None?
    ensures StdoutOf(outputs) == a + b && StderrBytes(outputs) == 0 && FeedAll(c, outputs).None?
  {
    TwoChunks(c, a, b);
    outputs := [Stdout(a), Stdout(b)];
  }

  lemma OneChunk(c: Config, a: seq<Byte>)
    ensures StdoutOf([Stdout(a)]) == a && StderrBytes([Stdout(a)]) == 0
    ensures FeedAll(c, [Stdout(a)]) == Whole(c, a)
  {
    assert [Stdout(a)][..0] == [];
    assert StdoutOf([]) == [] && StderrBytes([]) == 0 && FeedAll(c, []) == Some(START);
  }

  lemma FatalPrefix(c: Config, bytes: seq<Byte>) returns (k: nat)
    requires ValidLimits(c.limits) && Whole(c, bytes).Some? && !LinesFit(c.limits.frameBytes, bytes)
    ensures k <= |bytes| && Whole(c, bytes[..k]).None?
  {
    WholeIsTheReference(c, bytes);
    k := FatalCut(c, NO_PROGRESS, bytes);
    WholeIsTheReference(c, bytes[..k]);
  }

  /** A line that does not fit has a cut that is fatal. */
  lemma FatalChunks(c: Config, bytes: seq<Byte>) returns (outputs: seq<Output>)
    requires ValidLimits(c.limits) && Whole(c, bytes).Some? && !LinesFit(c.limits.frameBytes, bytes)
    ensures StdoutOf(outputs) == bytes && StderrBytes(outputs) == 0 && FeedAll(c, outputs).None?
  {
    hide Drain;
    var k := FatalPrefix(c, bytes);
    outputs := FatalCutAt(c, bytes, bytes[..k], bytes[k..]);
  }

  lemma FatalCutAt(c: Config, bytes: seq<Byte>, a: seq<Byte>, b: seq<Byte>) returns (outputs: seq<Output>)
    requires bytes == a + b && Whole(c, a).None?
    ensures StdoutOf(outputs) == bytes && StderrBytes(outputs) == 0 && FeedAll(c, outputs).None?
  {
    outputs := FatalPair(c, a, b);
  }

  /** A stdout that is accepted in one piece is accepted in all pieces exactly when every line fits with
      its carriage return; otherwise one more cut makes the difference. */
  lemma ChunkingMattersExactlyWhenALineIsTooLong(c: Config, bytes: seq<Byte>)
    requires ValidLimits(c.limits) && Whole(c, bytes).Some?
    ensures EveryChunkingAccepted(c, bytes) <==> LinesFit(c.limits.frameBytes, bytes)
  {
    if LinesFit(c.limits.frameBytes, bytes) {
      WholeIsTheReference(c, bytes);
      forall outputs | StdoutOf(outputs) == bytes && StderrBytes(outputs) <= c.limits.stderrBytes
        ensures FeedAll(c, outputs).Some?
      {
        FittingChunksAreAccepted(c, outputs);
      }
    } else {
      var outputs := FatalChunks(c, bytes);
    }
  }

  /** The shortest such stdout: a frame of exactly the limit, closed by carriage return and newline. */
  lemma CarriageReturnDecides(c: Config, frame: seq<Byte>, event: Event)
    requires ValidLimits(c.limits) && |frame| == c.limits.frameBytes && |frame| + 2 <= c.limits.totalBytes
    requires NewlineAt(frame) == |frame| && frame[|frame| - 1] != CARRIAGE_RETURN
    requires Decoded(c, frame) == Some(event) && Accept(c.bounds, INITIAL, event).Some?
    ensures var line := frame + [CARRIAGE_RETURN];
            && FeedAll(c, [Stdout(line + [NEWLINE]), Stdout([])]).Some?
            && FeedAll(c, [Stdout(line), Stdout([NEWLINE])]).None?
  {
    var line := frame + [CARRIAGE_RETURN];
    NewlineInPrefix(frame, [CARRIAGE_RETURN]);
    assert line + [NEWLINE] + [] == line + [NEWLINE];
    assert WithoutReturn(line) == frame;
    DrainLine(c, NO_PROGRESS, line, []);
    WholeIsTheReference(c, line + [NEWLINE]);
    WholeIsTheReference(c, line);
    TwoChunks(c, line, [NEWLINE]);
    WholeThenNothing(c, line + [NEWLINE]);
  }

  lemma WholeThenNothing(c: Config, bytes: seq<Byte>)
    requires ValidLimits(c.limits) && Whole(c, bytes).Some?
    ensures FeedAll(c, [Stdout(bytes), Stdout([])]).Some?
  {
    assert [Stdout(bytes), Stdout([])][..1] == [Stdout(bytes)];
    OneChunk(c, bytes);
    WholeIsTheReference(c, bytes);
    assert bytes + [] == bytes;
    ChunkContinuesTheReference(c, bytes, [], 0);
  }
}
