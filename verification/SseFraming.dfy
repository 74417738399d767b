/**
 The byte-level event framer of the SSE proxy: boundary search, per-event budget and the
 chunk loop that feeds a bounded parser buffer.

 The independent reference is `Split`, which cuts the whole byte stream at the earliest
 blank line, knowing neither chunks nor a budget.
 */
module SseFraming {
  import opened Common

  const LF: Byte := 10
  const CR: Byte := 13
  const SSE_EVENT_SEPARATOR_MAX_BYTES: nat := 4

  // ---------------------------------------------------------------- boundary search

  predicate LfAt(buf: Bytes, i: nat) {
    i + 2 <= |buf| && buf[i] == LF && buf[i + 1] == LF
  }

  predicate CrlfAt(buf: Bytes, i: nat) {
    i + 4 <= |buf| && buf[i] == CR && buf[i + 1] == LF && buf[i + 2] == CR && buf[i + 3] == LF
  }

  /** First two-byte window equal to LF LF, at or after `from`. */
  function PositionLf(buf: Bytes, from: nat): (r: Option<nat>)
    ensures r.Some? ==> from <= r.value && LfAt(buf, r.value)
    decreases |buf| - from
  {
    if from + 2 > |buf| then None
    else if LfAt(buf, from) then Some(from)
    else PositionLf(buf, from + 1)
  }

  /** First four-byte window equal to CR LF CR LF, at or after `from`. */
  function PositionCrlf(buf: Bytes, from: nat): (r: Option<nat>)
    ensures r.Some? ==> from <= r.value && CrlfAt(buf, r.value)
    decreases |buf| - from
  {
    if from + 4 > |buf| then None
    else if CrlfAt(buf, from) then Some(from)
    else PositionCrlf(buf, from + 1)
  }

  lemma {:induction false} PositionLfIsFirst(buf: Bytes, from: nat, i: nat)
    requires from <= i && LfAt(buf, i)
    ensures PositionLf(buf, from).Some? && PositionLf(buf, from).value <= i
    decreases i - from
  {
    if from < i && !LfAt(buf, from) {
      PositionLfIsFirst(buf, from + 1, i);
    }
  }

  lemma {:induction false} PositionCrlfIsFirst(buf: Bytes, from: nat, i: nat)
    requires from <= i && CrlfAt(buf, i)
    ensures PositionCrlf(buf, from).Some? && PositionCrlf(buf, from).value <= i
    decreases i - from
  {
    if from < i && !CrlfAt(buf, from) {
      PositionCrlfIsFirst(buf, from + 1, i);
    }
  }

  datatype Boundary = Boundary(position: nat, separator: nat)

  /** An event of `b.position` bytes is ended by the `b.separator` delimiter bytes that follow it. */
  predicate BoundaryAt(buf: Bytes, b: Boundary) {
    (b.separator == 2 && LfAt(buf, b.position)) || (b.separator == 4 && CrlfAt(buf, b.position))
  }

  function FindEventBoundary(buf: Bytes): (r: Option<Boundary>)
    ensures r.Some? ==> BoundaryAt(buf, r.value)
  {
    match (PositionLf(buf, 0), PositionCrlf(buf, 0))
    case (Some(lf), Some(crlf)) => if lf <= crlf then Some(Boundary(lf, 2)) else Some(Boundary(crlf, 4))
    case (Some(lf), None) => Some(Boundary(lf, 2))
    case (None, Some(crlf)) => Some(Boundary(crlf, 4))
    case (None, None) => None
  }

  /** The search finds a boundary whenever there is one, and never passes over an earlier one. */
  lemma FindsEarliest(buf: Bytes, c: Boundary)
    requires BoundaryAt(buf, c)
    ensures FindEventBoundary(buf).Some?
    ensures FindEventBoundary(buf) == Some(c) || FindEventBoundary(buf).value.position < c.position
  {
    if c.separator == 2 {
      PositionLfIsFirst(buf, 0, c.position);
    } else {
      PositionCrlfIsFirst(buf, 0, c.position);
    }
  }

  /** A boundary found in a buffer is still the first boundary of every extension of it. */
  lemma BoundaryIsStable(buf: Bytes, more: Bytes)
    requires FindEventBoundary(buf).Some?
    ensures FindEventBoundary(buf + more) == FindEventBoundary(buf)
  {
    var b := FindEventBoundary(buf).value;
    assert BoundaryAt(buf + more, b);
    FindsEarliest(buf + more, b);
    var c := FindEventBoundary(buf + more).value;
    // A delimiter starting before b ends no later than b's own last byte.
    assert c.position <= b.position ==> BoundaryAt(buf, c);
    FindsEarliest(buf, c);
  }

  /** A boundary that appears when bytes are appended ends among those bytes. */
  lemma NewBoundaryEndsInNewBytes(buf: Bytes, more: Bytes)
    requires FindEventBoundary(buf).None? && FindEventBoundary(buf + more).Some?
    ensures var b := FindEventBoundary(buf + more).value; |buf| < b.position + b.separator <= |buf + more|
  {
    var b := FindEventBoundary(buf + more).value;
    if b.position + b.separator <= |buf| {
      FindsEarliest(buf, b);
    }
  }

  // ---------------------------------------------------------------- whole-stream reference

  datatype Frame = Frame(payload: Bytes, separator: nat)
  datatype Framing = Framing(frames: seq<Frame>, tail: Bytes)

  /** The whole stream cut at the earliest blank line, again and again. */
  function Split(s: Bytes): Framing
    decreases |s|
  {
    match FindEventBoundary(s)
    case None => Framing([], s)
    case Some(b) =>
      var rest := Split(s[b.position + b.separator..]);
      Framing([Frame(s[..b.position], b.separator)] + rest.frames, rest.tail)
  }

  lemma SplitAtBoundary(s: Bytes, more: Bytes, b: Boundary)
    requires FindEventBoundary(s) == Some(b)
    ensures var n := b.position + b.separator;
            && Split(s + more).frames == [Frame(s[..b.position], b.separator)] + Split(s[n..] + more).frames
            && Split(s + more).tail == Split(s[n..] + more).tail
  {
    BoundaryIsStable(s, more);
    assert (s + more)[b.position + b.separator..] == s[b.position + b.separator..] + more;
    assert (s + more)[..b.position] == s[..b.position];
  }

  ghost predicate Resumes(s: Bytes, more: Bytes) {
    var part := Split(s);
    var next := Split(part.tail + more);
    Split(s + more) == Framing(part.frames + next.frames, next.tail)
  }

  lemma ResumesFrom(s: Bytes, more: Bytes, b: Boundary, rest: Bytes)
    requires FindEventBoundary(s) == Some(b) && rest == s[b.position + b.separator..]
    requires Resumes(rest, more)
    ensures Resumes(s, more)
  {
    SplitAtBoundary(s, more, b);
    var frame, part := Frame(s[..b.position], b.separator), Split(rest);
    assert Split(s) == Framing([frame] + part.frames, part.tail);
    var next := Split(part.tail + more);
    AppendAssociates([frame], part.frames, next.frames);
  }

  /** Splitting may be suspended anywhere and resumed from the unfinished tail. */
  lemma {:induction false} SplitExtend(s: Bytes, more: Bytes)
    ensures Resumes(s, more)
    decreases |s|
  {
    var found := FindEventBoundary(s);
    if found.Some? {
      var rest := s[found.value.position + found.value.separator..];
      SplitExtend(rest, more);
      ResumesFrom(s, more, found.value, rest);
    } else {
      assert Split(s) == Framing([], s);
      assert [] + Split(s + more).frames == Split(s + more).frames;
    }
  }

  lemma {:induction false} TailHasNoBoundary(s: Bytes)
    ensures FindEventBoundary(Split(s).tail).None?
    decreases |s|
  {
    match FindEventBoundary(s)
    case None =>
    case Some(b) => TailHasNoBoundary(s[b.position + b.separator..]);
  }

  // ---------------------------------------------------------------- budgeted draining

  datatype Take = Event(frame: Frame, rest: Bytes) | Incomplete | OverBudget(observed: nat)

  function TakeNext(buffer: Bytes, limit: nat): (r: Take)
    ensures r.Event? ==> |r.rest| < |buffer| && |r.frame.payload| <= limit
    ensures r.OverBudget? ==> limit < r.observed <= |buffer|
    ensures r.Incomplete? ==> |buffer| <= limit && FindEventBoundary(buffer).None?
  {
    match FindEventBoundary(buffer)
    case Some(b) =>
      if b.position > limit then OverBudget(b.position)
      else Event(Frame(buffer[..b.position], b.separator), buffer[b.position + b.separator..])
    case None => if |buffer| > limit then OverBudget(|buffer|) else Incomplete
  }

  /** What the parser has emitted, and either the buffered tail or the size that broke the budget. */
  datatype Progress =
    | Live(frames: seq<Frame>, buffer: Bytes)
    | Breach(frames: seq<Frame>, observed: nat)

  function Prepend(frames: seq<Frame>, p: Progress): Progress {
    match p
    case Live(more, buffer) => Live(frames + more, buffer)
    case Breach(more, observed) => Breach(frames + more, observed)
  }

  /** The inner loop: take complete events until none is left or one is over budget. */
  function Drain(buffer: Bytes, limit: nat): (p: Progress)
    ensures p.Live? ==> |p.buffer| <= limit && |p.buffer| <= |buffer|
    ensures p.Breach? ==> limit < p.observed <= |buffer|
    ensures forall f :: f in p.frames ==> |f.payload| <= limit
    decreases |buffer|
  {
    match TakeNext(buffer, limit)
    case Event(frame, rest) => Prepend([frame], Drain(rest, limit))
    case Incomplete => Live([], buffer)
    case OverBudget(observed) => Breach([], observed)
  }

  /** One network chunk, copied into a buffer that never grows past limit + 4. */
  function FeedChunk(buffer: Bytes, chunk: Bytes, limit: nat): (p: Progress)
    requires |buffer| <= limit
    ensures p.Live? ==> |p.buffer| <= limit
    ensures p.Breach? ==> limit < p.observed <= limit + SSE_EVENT_SEPARATOR_MAX_BYTES
    ensures forall f :: f in p.frames ==> |f.payload| <= limit
    decreases |chunk|
  {
    if chunk == [] then Live([], buffer)
    else
      var available := limit + SSE_EVENT_SEPARATOR_MAX_BYTES - |buffer|;
      var take := if available < |chunk| then available else |chunk|;
      var drained := Drain(buffer + chunk[..take], limit);
      match drained
      case Breach(_, _) => drained
      case Live(frames, rest) => Prepend(frames, FeedChunk(rest, chunk[take..], limit))
  }

  /** The whole attempt: chunks in order until the stream ends or the budget is broken. */
  function Run(chunks: seq<Bytes>, limit: nat): (p: Progress)
    ensures p.Live? ==> |p.buffer| <= limit
    ensures p.Breach? ==> limit < p.observed <= limit + SSE_EVENT_SEPARATOR_MAX_BYTES
    ensures forall f :: f in p.frames ==> |f.payload| <= limit
  {
    if chunks == [] then Live([], [])
    else
      var before := Run(chunks[..|chunks| - 1], limit);
      match before
      case Breach(_, _) => before
      case Live(frames, buffer) => Prepend(frames, FeedChunk(buffer, chunks[|chunks| - 1], limit))
  }

  // ---------------------------------------------------------------- the imperative chunk loop

  method TakeNextSseEvent(buffer: Bytes, limit: nat) returns (result: Take, rest: Bytes)
    ensures result == TakeNext(buffer, limit)
    ensures rest == if result.Event? then result.rest else buffer
  {
    var boundary := FindEventBoundary(buffer);
    rest := buffer;
    if boundary.Some? {
      if boundary.value.position > limit {
        return OverBudget(boundary.value.position), rest;
      }
      var payload := buffer[..boundary.value.position];
      rest := buffer[boundary.value.position + boundary.value.separator..];
      return Event(Frame(payload, boundary.value.separator), rest), rest;
    }
    if |buffer| > limit {
      return OverBudget(|buffer|), rest;
    }
    result := Incomplete;
  }

  lemma PrependTwice(a: seq<Frame>, b: seq<Frame>, p: Progress)
    ensures Prepend(a, Prepend(b, p)) == Prepend(a + b, p)
  {
    AppendAssociates(a, b, p.frames);
  }

  /** Draining on after one more event. */
  lemma DrainOn(frames: seq<Frame>, buffer: Bytes, limit: nat)
    requires TakeNext(buffer, limit).Event?
    ensures var next := TakeNext(buffer, limit);
            Prepend(frames + [next.frame], Drain(next.rest, limit)) == Prepend(frames, Drain(buffer, limit))
  {
    var next := TakeNext(buffer, limit);
    PrependTwice(frames, [next.frame], Drain(next.rest, limit));
  }

  method DrainBuffer(pending: Bytes, limit: nat) returns (p: Progress)
    ensures p == Drain(pending, limit)
  {
    var frames: seq<Frame> := [];
    var buffer := pending;
    while true
      invariant Prepend(frames, Drain(buffer, limit)) == Drain(pending, limit)
      decreases |buffer|
    {
      var result, rest := TakeNextSseEvent(buffer, limit);
      if result.OverBudget? {
        return Breach(frames, result.observed);
      }
      if result.Incomplete? {
        return Live(frames, buffer);
      }
      DrainOn(frames, buffer, limit);
      frames, buffer := frames + [result.frame], rest;
    }
  }

  /** Copy as much of the chunk as the parser buffer may hold, then drain. The source leaves
      with a breach when there is no space left; the assertion shows that there always is. */
  method ReadPiece(buffer: Bytes, chunk: Bytes, offset: nat, limit: nat) returns (drained: Progress, next: nat)
    requires |buffer| <= limit && offset < |chunk|
    ensures offset < next <= |chunk| && |buffer| + (next - offset) <= limit + SSE_EVENT_SEPARATOR_MAX_BYTES
    ensures drained.Live? ==> |drained.buffer| <= limit
    ensures FeedChunk(buffer, chunk[offset..], limit) ==
            if drained.Breach? then drained
            else Prepend(drained.frames, FeedChunk(drained.buffer, chunk[next..], limit))
  {
    var available := limit + SSE_EVENT_SEPARATOR_MAX_BYTES - |buffer|;
    assert available > 0;
    var take := if available < |chunk| - offset then available else |chunk| - offset;
    next := offset + take;
    ghost var rest := chunk[offset..];
    assert chunk[offset..next] == rest[..take] && chunk[next..] == rest[take..];
    drained := DrainBuffer(buffer + chunk[offset..next], limit);
  }

  method ReadChunk(pending: Bytes, chunk: Bytes, limit: nat) returns (p: Progress)
    requires |pending| <= limit
    ensures p == FeedChunk(pending, chunk, limit)
  {
    var frames: seq<Frame> := [];
    var buffer, offset := pending, 0;
    assert chunk[0..] == chunk;
    while offset < |chunk|
      invariant 0 <= offset <= |chunk| && |buffer| <= limit
      invariant Prepend(frames, FeedChunk(buffer, chunk[offset..], limit)) == FeedChunk(pending, chunk, limit)
    {
      var drained, next := ReadPiece(buffer, chunk, offset, limit);
      if drained.Breach? {
        return Prepend(frames, drained);
      }
      PrependTwice(frames, drained.frames, FeedChunk(drained.buffer, chunk[next..], limit));
      frames, buffer, offset := frames + drained.frames, drained.buffer, next;
    }
    p := Live(frames, buffer);
  }

  method ReadAttempt(chunks: seq<Bytes>, limit: nat) returns (p: Progress)
    ensures p == Run(chunks, limit)
  {
    p := Live([], []);
    var next := 0;
    while next < |chunks|
      invariant 0 <= next <= |chunks| && p.Live?
      invariant p == Run(chunks[..next], limit)
    {
      var read := ReadChunk(p.buffer, chunks[next], limit);
      assert chunks[..next + 1][..next] == chunks[..next];
      p, next := Prepend(p.frames, read), next + 1;
      if p.Breach? {
        BreachEndsRun(chunks, limit, next);
        return;
      }
    }
    assert chunks[..next] == chunks;
  }

  lemma {:induction false} BreachEndsRun(chunks: seq<Bytes>, limit: nat, k: nat)
    requires k <= |chunks| && Run(chunks[..k], limit).Breach?
    ensures Run(chunks, limit) == Run(chunks[..k], limit)
    decreases |chunks|
  {
    if k == |chunks| {
      assert chunks[..k] == chunks;
    } else {
      var init := chunks[..|chunks| - 1];
      assert init[..k] == chunks[..k];
      BreachEndsRun(init, limit, k);
    }
  }

  // ---------------------------------------------------------------- soundness

  ghost predicate AllWithin(frames: seq<Frame>, limit: nat) {
    forall f :: f in frames ==> |f.payload| <= limit
  }

  lemma {:induction false} DrainIsSplit(buffer: Bytes, limit: nat)
    ensures Drain(buffer, limit).Live? <==> AllWithin(Split(buffer).frames, limit) && |Split(buffer).tail| <= limit
    ensures Drain(buffer, limit).Live? ==> Drain(buffer, limit) == Live(Split(buffer).frames, Split(buffer).tail)
    ensures Drain(buffer, limit).frames <= Split(buffer).frames
    decreases |buffer|
  {
    match FindEventBoundary(buffer)
    case None =>
    case Some(b) =>
      var frame := Frame(buffer[..b.position], b.separator);
      var rest := buffer[b.position + b.separator..];
      assert Split(buffer).frames == [frame] + Split(rest).frames;
      assert frame in Split(buffer).frames;
      DrainIsSplit(rest, limit);
  }

  /** A parser that is still live has found everything; one in breach, the leading events. */
  ghost predicate Agrees(p: Progress, whole: Framing) {
    (p.Live? ==> p == Live(whole.frames, whole.tail)) && p.frames <= whole.frames
  }

  lemma AgreesAfter(frames: seq<Frame>, p: Progress, next: Framing)
    requires Agrees(p, next)
    ensures Agrees(Prepend(frames, p), Framing(frames + next.frames, next.tail))
  {
  }

  /** What is found in the first bytes is found in all of them. */
  lemma DrainThenMore(head: Bytes, more: Bytes, limit: nat)
    ensures Drain(head, limit).Breach? ==> Agrees(Drain(head, limit), Split(head + more))
    ensures Drain(head, limit).Live? ==>
              var next := Split(Drain(head, limit).buffer + more);
              && Split(head + more) == Framing(Drain(head, limit).frames + next.frames, next.tail)
              && FindEventBoundary(Drain(head, limit).buffer).None?
  {
    DrainIsSplit(head, limit);
    SplitExtend(head, more);
    TailHasNoBoundary(head);
  }

  lemma {:induction false} FeedIsSplit(buffer: Bytes, chunk: Bytes, limit: nat)
    requires |buffer| <= limit && FindEventBoundary(buffer).None?
    ensures Agrees(FeedChunk(buffer, chunk, limit), Split(buffer + chunk))
    decreases |chunk|
  {
    if chunk == [] {
      assert buffer + chunk == buffer;
    } else {
      var head, more := FirstPiece(buffer, chunk, limit);
      DrainThenMore(head, more, limit);
      var drained := Drain(head, limit);
      if drained.Live? {
        FeedIsSplit(drained.buffer, more, limit);
        AgreesAfter(drained.frames, FeedChunk(drained.buffer, more, limit), Split(drained.buffer + more));
      }
    }
  }

  /** The bytes drained first, and those fed afterwards. */
  lemma FirstPiece(buffer: Bytes, chunk: Bytes, limit: nat) returns (head: Bytes, more: Bytes)
    requires |buffer| <= limit && chunk != []
    ensures head + more == buffer + chunk && |more| < |chunk|
    ensures var drained := Drain(head, limit);
            FeedChunk(buffer, chunk, limit) ==
            if drained.Breach? then drained else Prepend(drained.frames, FeedChunk(drained.buffer, more, limit))
  {
    var available := limit + SSE_EVENT_SEPARATOR_MAX_BYTES - |buffer|;
    var take := if available < |chunk| then available else |chunk|;
    head, more := buffer + chunk[..take], chunk[take..];
  }

  /** Whatever the chunking, the emitted events are the leading events of the whole-stream
      split, and an attempt that ends without a breach emitted all of them. */
  lemma {:induction false} RunIsSplit(chunks: seq<Bytes>, limit: nat)
    ensures var p, whole := Run(chunks, limit), Split(Concat(chunks));
            && p.frames <= whole.frames
            && (p.Live? ==> p == Live(whole.frames, whole.tail))
    decreases |chunks|
  {
    if chunks != [] {
      var init, last := chunks[..|chunks| - 1], chunks[|chunks| - 1];
      RunIsSplit(init, limit);
      SplitExtend(Concat(init), last);
      TailHasNoBoundary(Concat(init));
      if Run(init, limit).Live? {
        FeedIsSplit(Split(Concat(init)).tail, last, limit);
      }
    }
  }

  /** Every stream with an event or an unfinished tail over the limit ends in a breach,
      however it is chunked, and the over-limit event is not emitted. */
  lemma OverLimitAlwaysBreaches(chunks: seq<Bytes>, limit: nat)
    requires var whole := Split(Concat(chunks)); !AllWithin(whole.frames, limit) || |whole.tail| > limit
    ensures Run(chunks, limit).Breach?
    ensures AllWithin(Run(chunks, limit).frames, limit) && Run(chunks, limit).frames <= Split(Concat(chunks)).frames
  {
    RunIsSplit(chunks, limit);
  }

  // ---------------------------------------------------------------- the exact margin

  /** A half-arrived delimiter is charged to the event it ends, so all of an event and all but
      the last byte of its delimiter must fit. */
  ghost predicate HasMargin(s: Bytes, limit: nat) {
    && (forall f :: f in Split(s).frames ==> |f.payload| + f.separator - 1 <= limit)
    && |Split(s).tail| <= limit
  }

  /** The margin of a stream holds at every prefix of it. */
  lemma {:induction false} MarginOfPrefix(s: Bytes, more: Bytes, limit: nat)
    requires HasMargin(s + more, limit)
    ensures HasMargin(s, limit)
    ensures AllWithin(Split(s).frames, limit)
    ensures HasMargin(Split(s).tail + more, limit)
  {
    SplitExtend(s, more);
    var whole, part, next := Split(s + more), Split(s), Split(Split(s).tail + more);
    assert forall f :: f in part.frames ==> f in whole.frames;
    assert forall f :: f in next.frames ==> f in whole.frames;
    SeparatorsOf(s);
    TailHasNoBoundary(s);
    if FindEventBoundary(part.tail + more).Some? {
      var b := FindEventBoundary(part.tail + more).value;
      assert next.frames[0] == Frame((part.tail + more)[..b.position], b.separator);
      NewBoundaryEndsInNewBytes(part.tail, more);
    }
  }

  lemma {:induction false} SeparatorsOf(s: Bytes)
    ensures forall f :: f in Split(s).frames ==> f.separator == 2 || f.separator == 4
    decreases |s|
  {
    match FindEventBoundary(s)
    case None =>
    case Some(b) => SeparatorsOf(s[b.position + b.separator..]);
  }

  lemma {:induction false} FeedWithinMargin(buffer: Bytes, chunk: Bytes, limit: nat)
    requires |buffer| <= limit && HasMargin(buffer + chunk, limit)
    ensures FeedChunk(buffer, chunk, limit).Live?
    decreases |chunk|
  {
    if chunk != [] {
      var available := limit + SSE_EVENT_SEPARATOR_MAX_BYTES - |buffer|;
      var take := if available < |chunk| then available else |chunk|;
      var head := buffer + chunk[..take];
      assert buffer + chunk == head + chunk[take..];
      MarginOfPrefix(head, chunk[take..], limit);
      DrainIsSplit(head, limit);
      FeedWithinMargin(Split(head).tail, chunk[take..], limit);
    }
  }

  lemma {:induction false} RunWithinMargin(chunks: seq<Bytes>, limit: nat)
    requires HasMargin(Concat(chunks), limit)
    ensures Run(chunks, limit) == Live(Split(Concat(chunks)).frames, Split(Concat(chunks)).tail)
    decreases |chunks|
  {
    RunIsSplit(chunks, limit);
    if chunks != [] {
      var init, last := chunks[..|chunks| - 1], chunks[|chunks| - 1];
      MarginOfPrefix(Concat(init), last, limit);
      RunWithinMargin(init, limit);
      FeedWithinMargin(Split(Concat(init)).tail, last, limit);
    }
  }

  function OneByOne(s: Bytes): seq<Bytes> {
    if s == [] then [] else OneByOne(s[..|s| - 1]) + [[s[|s| - 1]]]
  }

  lemma {:induction false} OneByOneConcat(s: Bytes)
    ensures Concat(OneByOne(s)) == s
    decreases |s|
  {
    if s != [] {
      OneByOneConcat(s[..|s| - 1]);
      ConcatSnoc(OneByOne(s[..|s| - 1]), [s[|s| - 1]]);
    }
  }

  /** One more byte keeps the margin as long as the tail it was appended to was within the limit. */
  lemma MarginGrowsByOneByte(s: Bytes, x: Byte, limit: nat)
    requires HasMargin(s, limit) && |Split(s + [x]).tail| <= limit
    ensures HasMargin(s + [x], limit)
  {
    SplitExtend(s, [x]);
    TailHasNoBoundary(s);
    var tail := Split(s).tail;
    if FindEventBoundary(tail + [x]).Some? {
      NewBoundaryEndsInNewBytes(tail, [x]);
      var b := FindEventBoundary(tail + [x]).value;
      assert (tail + [x])[b.position + b.separator..] == [];
      assert Split(tail + [x]) == Framing([Frame((tail + [x])[..b.position], b.separator)], []);
    }
  }

  /** Delivered a byte at a time, a stream survives only if it keeps the margin. */
  lemma {:induction false} OneByOneNeedsMargin(s: Bytes, limit: nat)
    requires Run(OneByOne(s), limit).Live?
    ensures HasMargin(s, limit)
    decreases |s|
  {
    RunIsSplit(OneByOne(s), limit);
    OneByOneConcat(s);
    if s != [] {
      var init, x := s[..|s| - 1], s[|s| - 1];
      assert s == init + [x];
      assert OneByOne(s)[..|OneByOne(init)|] == OneByOne(init);
      OneByOneNeedsMargin(init, limit);
      MarginGrowsByOneByte(init, x, limit);
    }
  }

  ghost predicate Chunking(chunks: seq<Bytes>, s: Bytes) {
    Concat(chunks) == s
  }

  /** The exact condition: every chunking of a stream yields exactly its whole-stream split
      if and only if the stream keeps the margin. */
  lemma FramingIgnoresChunkingIff(s: Bytes, limit: nat)
    ensures (forall chunks :: Chunking(chunks, s) ==> Run(chunks, limit) == Live(Split(s).frames, Split(s).tail))
            <==> HasMargin(s, limit)
  {
    if HasMargin(s, limit) {
      forall chunks | Chunking(chunks, s)
        ensures Run(chunks, limit) == Live(Split(s).frames, Split(s).tail)
      {
        RunWithinMargin(chunks, limit);
      }
    } else {
      ChunkPerByte(s, limit);
    }
  }

  /** Three bytes below the limit are always enough. */
  lemma ThreeBytesSuffice(s: Bytes, limit: nat)
    requires forall f :: f in Split(s).frames ==> |f.payload| + 3 <= limit
    requires |Split(s).tail| <= limit
    ensures HasMargin(s, limit)
  {
    SeparatorsOf(s);
  }

  function Delivered(s: Bytes): seq<Bytes>
    decreases |s|
  {
    match FindEventBoundary(s)
    case None => [s]
    case Some(b) => [s[..b.position + b.separator]] + Delivered(s[b.position + b.separator..])
  }

  /** Within the limit but outside the margin the outcome does depend on the slicing: a chunk
      per event gets every event through, a chunk per byte does not. */
  lemma InsideTheMarginSlicingDecides(s: Bytes, limit: nat)
    requires AllWithin(Split(s).frames, limit) && |Split(s).tail| <= limit && !HasMargin(s, limit)
    ensures exists chunks :: Chunking(chunks, s) && Run(chunks, limit) == Live(Split(s).frames, Split(s).tail)
    ensures exists chunks :: Chunking(chunks, s) && Run(chunks, limit).Breach?
  {
    ChunkPerEvent(s, limit);
    ChunkPerByte(s, limit);
  }

  lemma ChunkPerEvent(s: Bytes, limit: nat)
    requires AllWithin(Split(s).frames, limit) && |Split(s).tail| <= limit
    ensures Chunking(Delivered(s), s) && Run(Delivered(s), limit) == Live(Split(s).frames, Split(s).tail)
  {
    DeliveredRuns(s, limit, []);
    assert [] + Delivered(s) == Delivered(s) && [] + Split(s).frames == Split(s).frames && [] + s == s;
  }

  lemma ChunkPerByte(s: Bytes, limit: nat)
    requires !HasMargin(s, limit)
    ensures Chunking(OneByOne(s), s) && Run(OneByOne(s), limit).Breach?
  {
    OneByOneConcat(s);
    if Run(OneByOne(s), limit).Live? {
      OneByOneNeedsMargin(s, limit);
    }
  }

  lemma {:induction false} DeliveredRuns(s: Bytes, limit: nat, before: seq<Bytes>)
    requires AllWithin(Split(s).frames, limit) && |Split(s).tail| <= limit
    requires Run(before, limit).Live? && Run(before, limit).buffer == []
    ensures Run(before + Delivered(s), limit) == Live(Run(before, limit).frames + Split(s).frames, Split(s).tail)
    ensures Concat(before + Delivered(s)) == Concat(before) + s
    decreases |s|
  {
    var found := FindEventBoundary(s);
    if found.None? {
      ConcatSnoc(before, s);
      OneChunk(before, s, limit);
    } else {
      var b := found.value;
      var head, rest := s[..b.position + b.separator], s[b.position + b.separator..];
      FirstFrameAlone(s, b, limit);
      OneChunk(before, head, limit);
      ConcatSnoc(before, head);
      DeliveredRuns(rest, limit, before + [head]);
      AppendAssociates(before, [head], Delivered(rest));
      AppendAssociates(Run(before, limit).frames, Split(head).frames, Split(rest).frames);
      AppendAssociates(Concat(before), head, rest);
    }
  }

  lemma FirstFrameAlone(s: Bytes, b: Boundary, limit: nat)
    requires FindEventBoundary(s) == Some(b) && AllWithin(Split(s).frames, limit)
    ensures var head, rest := s[..b.position + b.separator], s[b.position + b.separator..];
            && s == head + rest
            && |head| <= limit + SSE_EVENT_SEPARATOR_MAX_BYTES
            && Split(head) == Framing([Frame(s[..b.position], b.separator)], [])
            && Split(s) == Framing(Split(head).frames + Split(rest).frames, Split(rest).tail)
            && AllWithin(Split(head).frames, limit) && AllWithin(Split(rest).frames, limit)
  {
    var head, rest := s[..b.position + b.separator], s[b.position + b.separator..];
    var frame := Frame(s[..b.position], b.separator);
    assert s == head + rest;
    FindsEarliest(head, b);
    BoundaryIsStable(head, rest);
    assert head[b.position + b.separator..] == [] && head[..b.position] == s[..b.position];
    assert Split(s).frames == [frame] + Split(rest).frames;
    assert frame in Split(s).frames;
    assert forall f :: f in Split(rest).frames ==> f in Split(s).frames;
  }

  lemma OneChunk(before: seq<Bytes>, chunk: Bytes, limit: nat)
    requires Run(before, limit).Live? && Run(before, limit).buffer == []
    requires AllWithin(Split(chunk).frames, limit) && |Split(chunk).tail| <= limit
    requires |chunk| <= limit + SSE_EVENT_SEPARATOR_MAX_BYTES
    ensures Run(before + [chunk], limit) == Live(Run(before, limit).frames + Split(chunk).frames, Split(chunk).tail)
  {
    assert (before + [chunk])[..|before|] == before;
    OneFeed(chunk, limit);
  }

  lemma OneFeed(chunk: Bytes, limit: nat)
    requires AllWithin(Split(chunk).frames, limit) && |Split(chunk).tail| <= limit
    requires |chunk| <= limit + SSE_EVENT_SEPARATOR_MAX_BYTES
    ensures FeedChunk([], chunk, limit) == Live(Split(chunk).frames, Split(chunk).tail)
  {
    DrainIsSplit(chunk, limit);
    if chunk != [] {
      assert [] + chunk[..|chunk|] == chunk && chunk[|chunk|..] == [];
    }
  }
}
