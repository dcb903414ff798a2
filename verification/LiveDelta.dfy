/** Coalescing of live provider text into bounded batches. The coalescer remembers, as history, what it
    was given and what it handed out; its invariant ties the two together over any run of calls. */
module LiveDelta {
  import opened Arithmetic
  import opened Utf8
  import opened Wrappers

  const MILLISECOND: int := 1_000_000

  datatype Kind = VisibleText | ReasoningSummary

  datatype Event = TextDelta(text: seq<Byte>) | ReasoningSummaryDelta(text: seq<Byte>) | OtherEvent

  datatype Batch = Batch(sequence: int, kind: Kind, text: seq<Byte>)

  /** Text waiting for a batch; times are in nanoseconds of a monotonic clock. */
  datatype Pending = Pending(text: seq<Byte>, startedAt: nat, firstFragmentOrder: int)

  datatype Limits = Limits(maximumDelay: int, maximumBytes: nat)

  datatype Error = ProviderFailed

  predicate ValidLimits(l: Limits) {
    MILLISECOND <= l.maximumDelay <= 50 * MILLISECOND && 4 <= l.maximumBytes <= 4096
  }

  // ---------------------------------------------------------------------------------------------
  // What batches and buffers spell
  // ---------------------------------------------------------------------------------------------

  type Letter = (Kind, Byte)

  function Tagged(kind: Kind, text: seq<Byte>): (letters: seq<Letter>)
    ensures |letters| == |text|
  {
    seq(|text|, i requires 0 <= i < |text| => (kind, text[i]))
  }

  function TaggedPending(kind: Kind, p: Option<Pending>): seq<Letter> {
    if p.None? then [] else Tagged(kind, p.value.text)
  }

  function Waiting(text: Option<Pending>, reasoning: Option<Pending>): seq<Letter> {
    if text.None? then TaggedPending(ReasoningSummary, reasoning)
    else if reasoning.None? then TaggedPending(VisibleText, text)
    else TaggedPending(VisibleText, text) + TaggedPending(ReasoningSummary, reasoning)
  }

  function TaggedEvent(e: Event): seq<Letter> {
    match e
    case TextDelta(text) => Tagged(VisibleText, text)
    case ReasoningSummaryDelta(text) => Tagged(ReasoningSummary, text)
    case OtherEvent => []
  }

  /** The letters of the batches in sequence order. */
  function Spelled(batches: seq<Batch>): seq<Letter> {
    if batches == [] then []
    else Spelled(batches[..|batches| - 1]) + Tagged(batches[|batches| - 1].kind, batches[|batches| - 1].text)
  }

  lemma SpelledNext(batches: seq<Batch>, b: Batch)
    ensures Spelled(batches + [b]) == Spelled(batches) + Tagged(b.kind, b.text)
  {
    assert (batches + [b])[..|batches|] == batches;
  }

  /** With one kind waiting, its text is all that waits. */
  lemma OneKindWaits(kind: Kind, p: Pending, text: Option<Pending>, reasoning: Option<Pending>)
    requires text.None? || reasoning.None?
    requires if kind == VisibleText then text == Some(p) else reasoning == Some(p)
    ensures Waiting(text, reasoning) == Tagged(kind, p.text)
  {}

  /** When only one kind may wait, what waits of it is all that waits. */
  lemma OnlyKindWaits(kind: Kind, p: Option<Pending>, text: Option<Pending>, reasoning: Option<Pending>)
    requires if kind == VisibleText then text == p && reasoning.None? else reasoning == p && text.None?
    ensures Waiting(text, reasoning) == TaggedPending(kind, p)
  {}

  /** What is accounted for once the fragment is used up. */
  lemma NothingRemains(kind: Kind, spelled: seq<Letter>, waiting: seq<Letter>)
    ensures spelled + waiting + Tagged(kind, []) == spelled + waiting
  {
    assert Tagged(kind, []) == [];
  }

  lemma NothingWaits(spelled: seq<Letter>)
    ensures spelled + Waiting(None, None) == spelled
  {}

  predicate WholeBatch(b: Batch, maximumBytes: nat) {
    b.text != [] && |b.text| <= maximumBytes && Utf8.Valid(b.text)
  }

  predicate Buffered(p: Option<Pending>, maximumBytes: nat) {
    p.Some? ==> p.value.text != [] && |p.value.text| < maximumBytes && Utf8.Valid(p.value.text)
  }

  predicate IsDue(p: Option<Pending>, now: nat, delay: int) {
    p.Some? && delay <= (if p.value.startedAt <= now then now - p.value.startedAt else 0)
  }

  /** Due exactly when it began to wait the maximum delay ago or earlier. */
  lemma DueExactlyWhen(p: Option<Pending>, now: nat, delay: int)
    requires 0 < delay
    ensures IsDue(p, now, delay) <==> p.Some? && p.value.startedAt + delay <= now
  {}

  /** Batches the ceiling forced out: at most three octets short of it. */
  ghost predicate AtCeiling(batches: seq<Batch>, maximumBytes: nat) {
    forall i :: 0 <= i < |batches| ==> maximumBytes <= |batches[i].text| + 3
  }

  /** The first batch may instead be exactly what waited when the call began. */
  ghost predicate Explained(batches: seq<Batch>, rest: seq<Letter>, maximumBytes: nat) {
    || AtCeiling(batches, maximumBytes)
    || (batches != [] && AtCeiling(batches[1..], maximumBytes)
        && rest != [] && Tagged(batches[0].kind, batches[0].text) == rest)
  }

  lemma Associate(a: seq<Batch>, b: seq<Batch>, c: seq<Batch>)
    ensures (a + b) + c == a + (b + c)
  {}

  lemma ExplainedByBoth(flushed: seq<Batch>, filled: seq<Batch>, rest: seq<Letter>, maximumBytes: nat)
    requires |flushed| <= 1 && AtCeiling(filled, maximumBytes)
    requires flushed != [] ==> rest != [] && Tagged(flushed[0].kind, flushed[0].text) == rest
    ensures Explained(flushed + filled, rest, maximumBytes)
  {
    if flushed == [] {
      assert flushed + filled == filled;
    } else {
      assert (flushed + filled)[1..] == filled;
    }
  }

  class Coalescer {
    const limits: Limits
    var text: Option<Pending>
    var reasoning: Option<Pending>
    var nextFragmentOrder: int
    var nextBatchSequence: int
    /** History: everything accepted and everything handed out. */
    ghost var input: seq<Letter>
    ghost var output: seq<Batch>

    constructor (limits: Limits)
      requires ValidLimits(limits)
      ensures this.limits == limits && Valid() && input == [] && output == [] && Rest() == []
    {
      this.limits := limits;
      text, reasoning, nextFragmentOrder, nextBatchSequence := None, None, 0, 0;
      input, output := [], [];
    }

    /** The letters that are still waiting. */
    function Rest(): seq<Letter>
      reads this
    {
      Waiting(text, reasoning)
    }

    /** Sequence numbers are 0, 1, 2, ... and every batch is a whole-character string within the ceiling. */
    ghost predicate Numbered()
      reads this
    {
      && ValidLimits(limits)
      && nextBatchSequence == |output| && 0 <= nextFragmentOrder <= U64_MAX && nextBatchSequence <= U64_MAX
      && forall i :: 0 <= i < |output| ==> output[i].sequence == i && WholeBatch(output[i], limits.maximumBytes)
    }

    /** Nothing is lost, invented, reordered or split inside a character, and only one kind waits. */
    ghost predicate Valid()
      reads this
    {
      && Numbered()
      && Buffered(text, limits.maximumBytes) && Buffered(reasoning, limits.maximumBytes)
      && (text.None? || reasoning.None?)
      && Spelled(output) + Rest() == input
    }

    /** What waits began to wait less than the maximum delay ago. */
    predicate InTime(now: nat)
      reads this
    {
      && (text.Some? ==> now < text.value.startedAt + limits.maximumDelay)
      && (reasoning.Some? ==> now < reasoning.value.startedAt + limits.maximumDelay)
    }

    /** Numbers one batch. */
    method MakeBatch(kind: Kind, pending: Pending) returns (r: Result<Batch, Error>)
      requires Numbered()
      requires pending.text != [] && |pending.text| <= limits.maximumBytes && Utf8.Valid(pending.text)
      modifies this`nextBatchSequence, this`output
      ensures r.Err? ==> nextBatchSequence == U64_MAX && output == old(output)
      ensures r.Ok? ==>
                && Numbered() && output == old(output) + [r.value]
                && r.value == Batch(old(nextBatchSequence), kind, pending.text)
                && Spelled(output) == old(Spelled(output)) + Tagged(kind, pending.text)
    {
      var sequence := nextBatchSequence;
      if sequence == U64_MAX {
        return Err(ProviderFailed);
      }
      nextBatchSequence := sequence + 1;
      var batch := Batch(sequence, kind, pending.text);
      SpelledNext(output, batch);
      output := output + [batch];
      return Ok(batch);
    }

    /** Numbers a taken buffer when nothing else is left waiting. */
    method HandOut(kind: Kind, pending: Pending) returns (r: Result<Batch, Error>)
      requires Numbered() && text.None? && reasoning.None?
      requires Buffered(Some(pending), limits.maximumBytes)
      requires input == Spelled(output) + Tagged(kind, pending.text)
      modifies this`nextBatchSequence, this`output
      ensures r.Err? ==> nextBatchSequence == U64_MAX
      ensures r.Ok? ==>
                && Valid() && output == old(output) + [r.value] && Spelled(output) == input
                && r.value.kind == kind && r.value.text == pending.text
    {
      r := MakeBatch(kind, pending);
      NothingWaits(Spelled(output));
    }

    /** Numbers the taken buffers. There is never more than one, so the order by first fragment is settled. */
    method MakeBatches(taken: seq<(Kind, Pending)>) returns (r: Result<seq<Batch>, Error>)
      requires |taken| <= 1 && (taken == [] ==> Valid())
      requires taken != [] ==>
                 && Numbered() && text.None? && reasoning.None?
                 && Buffered(Some(taken[0].1), limits.maximumBytes)
                 && input == Spelled(output) + Tagged(taken[0].0, taken[0].1.text)
      modifies this`nextBatchSequence, this`output
      ensures r.Err? ==> nextBatchSequence == U64_MAX
      ensures r.Ok? ==>
                && Valid() && output == old(output) + r.value && |r.value| == |taken|
                && (taken != [] ==>
                      && Spelled(output) == input
                      && r.value[0].kind == taken[0].0 && r.value[0].text == taken[0].1.text)
    {
      if taken == [] {
        return Ok([]);
      }
      var made := HandOut(taken[0].0, taken[0].1);
      if made.Err? { return Err(ProviderFailed); }
      return Ok([made.value]);
    }

    /** Hands out what has waited for the maximum delay. */
    method FlushDue(now: nat) returns (r: Result<seq<Batch>, Error>)
      requires Valid()
      modifies this
      ensures input == old(input) && nextFragmentOrder == old(nextFragmentOrder)
      ensures r.Err? ==> nextBatchSequence == U64_MAX
      ensures r.Ok? ==>
                && Valid() && output == old(output) + r.value
                && !IsDue(text, now, limits.maximumDelay) && !IsDue(reasoning, now, limits.maximumDelay)
                && |r.value| <= 1
                && text == (if IsDue(old(text), now, limits.maximumDelay) then None else old(text))
                && reasoning == (if IsDue(old(reasoning), now, limits.maximumDelay) then None else old(reasoning))
                && (if r.value == [] then Rest() == old(Rest())
                    else Rest() == [] && old(Rest()) != [] && Tagged(r.value[0].kind, r.value[0].text) == old(Rest()))
    {
      var due: seq<(Kind, Pending)> := [];
      if IsDue(text, now, limits.maximumDelay) {
        OneKindWaits(VisibleText, text.value, text, reasoning);
        due := due + [(VisibleText, text.value)];
        text := None;
      }
      if IsDue(reasoning, now, limits.maximumDelay) {
        OneKindWaits(ReasoningSummary, reasoning.value, text, reasoning);
        due := due + [(ReasoningSummary, reasoning.value)];
        reasoning := None;
      }
      r := MakeBatches(due);
    }

    /** Hands out everything that waits. */
    method FlushAll() returns (r: Result<seq<Batch>, Error>)
      requires Valid()
      modifies this
      ensures input == old(input)
      ensures r.Err? ==> nextBatchSequence == U64_MAX
      ensures r.Ok? ==> Valid() && output == old(output) + r.value && |r.value| <= 1
      ensures r.Ok? ==> Rest() == [] && Spelled(output) == input
    {
      var pending: seq<(Kind, Pending)> := [];
      if text.Some? {
        OneKindWaits(VisibleText, text.value, text, reasoning);
        pending := pending + [(VisibleText, text.value)];
        text := None;
      }
      if reasoning.Some? {
        OneKindWaits(ReasoningSummary, reasoning.value, text, reasoning);
        pending := pending + [(ReasoningSummary, reasoning.value)];
        reasoning := None;
      }
      NothingWaits(Spelled(output));
      r := MakeBatches(pending);
    }

    /** Everything accepted so far, given what the loop still holds. */
    ghost function Accounted(kind: Kind, pending: Option<Pending>, remainder: seq<Byte>): seq<Letter>
      reads this
    {
      Spelled(output) + TaggedPending(kind, pending) + Tagged(kind, remainder)
    }

    /** Appends as many whole characters as fit; a buffer that is full or takes no more becomes a batch. */
    method FillOnce(kind: Kind, pending: Option<Pending>, remainder: seq<Byte>, now: nat)
      returns (r: Result<Option<Batch>, Error>, pending': Option<Pending>, remainder': seq<Byte>)
      requires Numbered() && Buffered(pending, limits.maximumBytes) && Utf8.Valid(remainder) && remainder != []
      modifies this`nextFragmentOrder, this`nextBatchSequence, this`output
      ensures r.Err? ==> nextBatchSequence == U64_MAX || nextFragmentOrder == U64_MAX
      ensures r.Ok? ==>
                && Numbered() && Buffered(pending', limits.maximumBytes) && Utf8.Valid(remainder')
                && output == old(output) + (if r.value.Some? then [r.value.value] else [])
                && Accounted(kind, pending', remainder') == old(Accounted(kind, pending, remainder))
                && (r.value.Some? ==> limits.maximumBytes <= |r.value.value.text| + 3)
                && (r.value.None? <==> pending'.Some?)
                && (pending'.Some? ==> pending'.value.startedAt == if pending.Some? then pending.value.startedAt else now)
                && (|remainder'| < |remainder| || (|remainder'| == |remainder| && pending.Some? && pending'.None?))
    {
      var buffer := if pending.Some? then pending.value else Pending([], now, nextFragmentOrder);
      if buffer.text == [] {
        if nextFragmentOrder == U64_MAX { return Err(ProviderFailed), None, remainder; }
        nextFragmentOrder := nextFragmentOrder + 1;
      }
      var split := PrefixLength(remainder, limits.maximumBytes - |buffer.text|);
      if split == 0 {
        r := Complete(kind, buffer, remainder);
        return r, None, remainder;
      }
      CutOff(kind, Spelled(output), buffer.text, remainder, split);
      ConcatIsValid(buffer.text, remainder[..split]);
      buffer := buffer.(text := buffer.text + remainder[..split]);
      if |buffer.text| < limits.maximumBytes {
        return Ok(None), Some(buffer), remainder[split..];
      }
      r := Complete(kind, buffer, remainder[split..]);
      return r, None, remainder[split..];
    }

    /** Turns a buffer that takes no more into a batch; every letter stays accounted for. */
    method Complete(kind: Kind, buffer: Pending, ghost remainder: seq<Byte>) returns (r: Result<Option<Batch>, Error>)
      requires Numbered()
      requires buffer.text != [] && |buffer.text| <= limits.maximumBytes && Utf8.Valid(buffer.text)
      modifies this`nextBatchSequence, this`output
      ensures r.Err? ==> nextBatchSequence == U64_MAX
      ensures r.Ok? ==>
                && Numbered() && r.value.Some? && output == old(output) + [r.value.value]
                && r.value.value.text == buffer.text
                && Accounted(kind, None, remainder) == old(Accounted(kind, Some(buffer), remainder))
    {
      var made := MakeBatch(kind, buffer);
      if made.Err? { return Err(ProviderFailed); }
      assert Spelled(output) + [] == Spelled(output);
      r := Ok(Some(made.value));
    }

    /** Cuts a fragment into batches at the ceiling, never inside a character; what is left over waits. */
    method Fill(kind: Kind, waiting: Option<Pending>, fragment: seq<Byte>, now: nat)
      returns (r: Result<seq<Batch>, Error>, pending: Option<Pending>)
      requires Numbered() && Buffered(waiting, limits.maximumBytes) && Utf8.Valid(fragment)
      modifies this`nextFragmentOrder, this`nextBatchSequence, this`output
      ensures r.Err? ==> nextBatchSequence == U64_MAX || nextFragmentOrder == U64_MAX
      ensures r.Ok? ==>
                && Numbered() && output == old(output) + r.value && Buffered(pending, limits.maximumBytes)
                && Accounted(kind, pending, []) == old(Accounted(kind, waiting, fragment))
                && AtCeiling(r.value, limits.maximumBytes)
                && AsOldAs(pending, waiting, r.value == [], now)
    {
      pending := waiting;
      var batches: seq<Batch> := [];
      var remainder := fragment;
      while remainder != []
        invariant Numbered() && output == old(output) + batches
        invariant Buffered(pending, limits.maximumBytes) && Utf8.Valid(remainder)
        invariant Accounted(kind, pending, remainder) == old(Accounted(kind, waiting, fragment))
        invariant AtCeiling(batches, limits.maximumBytes)
        invariant AsOldAs(pending, waiting, batches == [], now)
        invariant batches == [] && waiting.Some? ==> pending.Some?
        decreases |remainder|, if pending.Some? then 1 else 0
      {
        var step;
        step, pending, remainder := FillOnce(kind, pending, remainder, now);
        if step.Err? { return Err(ProviderFailed), None; }
        if step.value.Some? {
          batches := batches + [step.value.value];
        }
      }
      r := Ok(batches);
    }

    /** A buffer is as old as its first fragment: as what waited before, unless that has been handed out. */
    static predicate AsOldAs(pending: Option<Pending>, waiting: Option<Pending>, nothingMade: bool, now: nat) {
      pending.Some? ==>
        pending.value.startedAt == if nothingMade && waiting.Some? then waiting.value.startedAt else now
    }

    /** Moving a prefix of the remainder into the buffer moves no letter. */
    static lemma CutOff(kind: Kind, spelled: seq<Letter>, buffer: seq<Byte>, remainder: seq<Byte>, split: nat)
      requires split <= |remainder|
      ensures spelled + Tagged(kind, buffer) + Tagged(kind, remainder)
           == spelled + Tagged(kind, buffer + remainder[..split]) + Tagged(kind, remainder[split..])
    {
      var head, tail := Tagged(kind, remainder[..split]), Tagged(kind, remainder[split..]);
      assert Tagged(kind, remainder) == head + tail;
      assert Tagged(kind, buffer + remainder[..split]) == Tagged(kind, buffer) + head;
      assert spelled + Tagged(kind, buffer) + (head + tail) == spelled + (Tagged(kind, buffer) + head) + tail;
    }

    /** Accepts one provider event: time first, then the other kind, then the ceiling. */
    method PushEvent(event: Event, now: nat) returns (r: Result<seq<Batch>, Error>)
      requires Valid()
      requires event.TextDelta? || event.ReasoningSummaryDelta? ==> Utf8.Valid(event.text)
      modifies this
      ensures r.Err? ==> nextBatchSequence == U64_MAX || nextFragmentOrder == U64_MAX
      ensures r.Ok? ==>
                && Valid() && input == old(input) + TaggedEvent(event) && output == old(output) + r.value
                && !IsDue(text, now, limits.maximumDelay) && !IsDue(reasoning, now, limits.maximumDelay)
                && InTime(now) && Explained(r.value, old(Rest()), limits.maximumBytes)
                && (old(InTime(now)) && event.OtherEvent? ==> r.value == [])
                && AsOldAs(text, old(text), r.value == [], now) && AsOldAs(reasoning, old(reasoning), r.value == [], now)
    {
      DueExactlyWhen(text, now, limits.maximumDelay);
      DueExactlyWhen(reasoning, now, limits.maximumDelay);
      r := FlushDue(now);
      if r.Err? { return; }
      var batches := r.value;
      if event.OtherEvent? || event.text == [] {
        assert TaggedEvent(event) == [] && input + [] == input;
        if batches != [] {
          ExplainedByBoth(batches, [], old(Rest()), limits.maximumBytes);
          assert batches + [] == batches;
        }
        return;
      }
      var pushed := PushFragment(if event.TextDelta? then VisibleText else ReasoningSummary, event.text, now);
      if pushed.Err? { return Err(ProviderFailed); }
      if batches == [] {
        assert batches + pushed.value == pushed.value;
      } else {
        ExplainedByBoth(batches, pushed.value, old(Rest()), limits.maximumBytes);
      }
      Associate(old(output), batches, pushed.value);
      DueExactlyWhen(text, now, limits.maximumDelay);
      DueExactlyWhen(reasoning, now, limits.maximumDelay);
      r := Ok(batches + pushed.value);
    }

    method PushFragment(kind: Kind, fragment: seq<Byte>, now: nat) returns (r: Result<seq<Batch>, Error>)
      requires Valid() && Utf8.Valid(fragment)
      requires !IsDue(text, now, limits.maximumDelay) && !IsDue(reasoning, now, limits.maximumDelay)
      modifies this
      ensures r.Err? ==> nextBatchSequence == U64_MAX || nextFragmentOrder == U64_MAX
      ensures r.Ok? ==>
                && Valid() && input == old(input) + Tagged(kind, fragment) && output == old(output) + r.value
                && !IsDue(text, now, limits.maximumDelay) && !IsDue(reasoning, now, limits.maximumDelay)
                && Explained(r.value, old(Rest()), limits.maximumBytes)
                && AsOldAs(text, old(text), r.value == [], now) && AsOldAs(reasoning, old(reasoning), r.value == [], now)
    {
      var preceding := FlushOther(kind);
      if preceding.Err? { return Err(ProviderFailed); }
      var filled := Append(kind, fragment, now);
      if filled.Err? { return Err(ProviderFailed); }
      ExplainedByBoth(preceding.value, filled.value, old(Rest()), limits.maximumBytes);
      Associate(old(output), preceding.value, filled.value);
      r := Ok(preceding.value + filled.value);
    }

    /** Adds a fragment to what waits of its own kind. */
    method Append(kind: Kind, fragment: seq<Byte>, now: nat) returns (r: Result<seq<Batch>, Error>)
      requires Valid() && Utf8.Valid(fragment) && Rest() == TaggedPending(kind, Of(kind))
      requires (text.None? || kind == VisibleText) && (reasoning.None? || kind == ReasoningSummary)
      requires !IsDue(text, now, limits.maximumDelay) && !IsDue(reasoning, now, limits.maximumDelay)
      modifies this
      ensures r.Err? ==> nextBatchSequence == U64_MAX || nextFragmentOrder == U64_MAX
      ensures r.Ok? ==>
                && Valid() && input == old(input) + Tagged(kind, fragment) && output == old(output) + r.value
                && !IsDue(text, now, limits.maximumDelay) && !IsDue(reasoning, now, limits.maximumDelay)
                && AtCeiling(r.value, limits.maximumBytes)
                && AsOldAs(Of(kind), old(Of(kind)), r.value == [], now)
                && (kind == VisibleText ==> reasoning == old(reasoning)) && (kind == ReasoningSummary ==> text == old(text))
    {
      ghost var accepted := input + Tagged(kind, fragment);
      var waiting := Take(kind);
      assert Accounted(kind, waiting, fragment) == accepted;
      var filled, pending := Fill(kind, waiting, fragment, now);
      if filled.Err? { return Err(ProviderFailed); }
      NothingRemains(kind, Spelled(output), TaggedPending(kind, pending));
      PutBack(kind, pending, accepted);
      r := filled;
    }

    /** What is left over of a fragment waits; with it everything accepted is accounted for. */
    method PutBack(kind: Kind, pending: Option<Pending>, ghost accepted: seq<Letter>)
      requires Numbered() && text.None? && reasoning.None? && Buffered(pending, limits.maximumBytes)
      requires Spelled(output) + TaggedPending(kind, pending) == accepted
      modifies this`text, this`reasoning, this`input
      ensures Valid() && input == accepted
      ensures if kind == VisibleText then text == pending && reasoning.None? else reasoning == pending && text.None?
    {
      Put(kind, pending);
      OnlyKindWaits(kind, pending, text, reasoning);
      input := accepted;
    }

    function Of(kind: Kind): Option<Pending>
      reads this
    {
      if kind == VisibleText then text else reasoning
    }

    /** A change of kind hands out what waits of the other kind, so that the order of events is kept. */
    method FlushOther(kind: Kind) returns (r: Result<seq<Batch>, Error>)
      requires Valid()
      modifies this`text, this`reasoning, this`nextBatchSequence, this`output
      ensures r.Err? ==> nextBatchSequence == U64_MAX
      ensures r.Ok? ==>
                && Valid() && output == old(output) + r.value
                && Of(kind) == old(Of(kind)) && Rest() == TaggedPending(kind, Of(kind))
                && (text.None? || kind == VisibleText) && (reasoning.None? || kind == ReasoningSummary)
                && |r.value| <= 1 && (old(Rest()) == [] ==> r.value == [])
                && (r.value != [] ==> old(Rest()) == Tagged(r.value[0].kind, r.value[0].text))
    {
      var preceding := TakeOther(kind);
      if preceding.None? { return Ok([]); }
      var other := if kind == VisibleText then ReasoningSummary else VisibleText;
      OneKindWaits(other, preceding.value, old(text), old(reasoning));
      var made := HandOut(other, preceding.value);
      if made.Err? { return Err(ProviderFailed); }
      r := Ok([made.value]);
    }

    method TakeOther(kind: Kind) returns (p: Option<Pending>)
      modifies this`text, this`reasoning
      ensures if kind == VisibleText then p == old(reasoning) && reasoning == None && text == old(text)
              else p == old(text) && text == None && reasoning == old(reasoning)
    {
      match kind
      case VisibleText => p, reasoning := reasoning, None;
      case ReasoningSummary => p, text := text, None;
    }

    method Take(kind: Kind) returns (p: Option<Pending>)
      modifies this`text, this`reasoning
      ensures if kind == VisibleText then p == old(text) && text == None && reasoning == old(reasoning)
              else p == old(reasoning) && reasoning == None && text == old(text)
    {
      match kind
      case VisibleText => p, text := text, None;
      case ReasoningSummary => p, reasoning := reasoning, None;
    }

    method Put(kind: Kind, p: Option<Pending>)
      modifies this`text, this`reasoning
      ensures if kind == VisibleText then text == p && reasoning == old(reasoning) else reasoning == p && text == old(text)
    {
      match kind
      case VisibleText => text := p;
      case ReasoningSummary => reasoning := p;
    }
  }
}
