/** Framing loses and invents nothing: events, delimiters and tail put together again are the stream. */
module FramingRoundTrip {
  import opened Common
  import opened SseFraming

  /** The two blank lines a frame may end with. */
  function Delimiter(separator: nat): Bytes {
    if separator == 2 then [LF, LF] else [CR, LF, CR, LF]
  }

  function Join(frames: seq<Frame>, tail: Bytes): Bytes {
    if frames == [] then tail else frames[0].payload + Delimiter(frames[0].separator) + Join(frames[1..], tail)
  }

  lemma CutAtBoundary(s: Bytes, b: Boundary)
    requires BoundaryAt(s, b)
    ensures s == s[..b.position] + Delimiter(b.separator) + s[b.position + b.separator..]
  {
  }

  /** Joining what was split gives the stream back, byte for byte. */
  lemma {:induction false} JoinSplit(s: Bytes)
    ensures Join(Split(s).frames, Split(s).tail) == s
    decreases |s|
  {
    var found := FindEventBoundary(s);
    if found.Some? {
      var b := found.value;
      JoinSplit(s[b.position + b.separator..]);
      CutAtBoundary(s, b);
    }
  }

  /** No blank line before the one that ends it. */
  ghost predicate IsFrame(f: Frame) {
    FindEventBoundary(f.payload + Delimiter(f.separator)) == Some(Boundary(|f.payload|, f.separator))
  }

  ghost predicate AreFrames(frames: seq<Frame>) {
    forall i :: 0 <= i < |frames| ==> IsFrame(frames[i])
  }

  lemma FrameIsFound(f: Frame, rest: Bytes)
    requires IsFrame(f)
    ensures var s := f.payload + Delimiter(f.separator) + rest;
            && FindEventBoundary(s) == Some(Boundary(|f.payload|, f.separator))
            && s[..|f.payload|] == f.payload && |f.payload| + f.separator <= |s|
            && s[|f.payload| + f.separator..] == rest
  {
    BoundaryIsStable(f.payload + Delimiter(f.separator), rest);
    assert BoundaryAt(f.payload + Delimiter(f.separator), Boundary(|f.payload|, f.separator));
  }

  /** Splitting what was joined gives the frames and the tail back. */
  lemma {:induction false} SplitJoin(frames: seq<Frame>, tail: Bytes)
    requires AreFrames(frames) && FindEventBoundary(tail).None?
    ensures Split(Join(frames, tail)) == Framing(frames, tail)
  {
    if frames != [] {
      SplitJoin(frames[1..], tail);
      OneFrameMore(frames[0], frames[1..], tail);
      assert frames == [frames[0]] + frames[1..];
    }
  }

  lemma OneFrameMore(f: Frame, frames: seq<Frame>, tail: Bytes)
    requires IsFrame(f) && Split(Join(frames, tail)) == Framing(frames, tail)
    ensures Split(Join([f] + frames, tail)) == Framing([f] + frames, tail)
  {
    SplitsAtFrame(f, Join(frames, tail));
    assert ([f] + frames)[1..] == frames;
  }

  lemma SplitsAtFrame(f: Frame, rest: Bytes)
    requires IsFrame(f)
    ensures Split(f.payload + Delimiter(f.separator) + rest) == Framing([f] + Split(rest).frames, Split(rest).tail)
  {
    FrameIsFound(f, rest);
  }

  /** Every frame of a split is one, so splitting and joining are inverse to each other. */
  lemma {:induction false} SplitGivesFrames(s: Bytes)
    ensures AreFrames(Split(s).frames)
    decreases |s|
  {
    var found := FindEventBoundary(s);
    if found.Some? {
      var b := found.value;
      var f, rest := Frame(s[..b.position], b.separator), s[b.position + b.separator..];
      SplitGivesFrames(rest);
      CutAtBoundary(s, b);
      FirstIsFrame(f, rest, s);
    }
  }

  lemma FirstIsFrame(f: Frame, rest: Bytes, s: Bytes)
    requires s == f.payload + Delimiter(f.separator) + rest
    requires FindEventBoundary(s) == Some(Boundary(|f.payload|, f.separator))
    ensures IsFrame(f)
  {
    var own, b := f.payload + Delimiter(f.separator), Boundary(|f.payload|, f.separator);
    assert BoundaryAt(s, b);
    assert BoundaryAt(own, b);
    FindsEarliest(own, b);
    BoundaryIsStable(own, rest);
  }

  /** A breach is reported with a size just over the limit: at most four bytes, the longest delimiter, more. */
  lemma ReportedSizeIsNearTheLimit(chunks: seq<Bytes>, limit: nat)
    ensures Run(chunks, limit).Breach? ==> limit < Run(chunks, limit).observed <= limit + 4
    ensures forall separator: nat :: |Delimiter(separator)| <= SSE_EVENT_SEPARATOR_MAX_BYTES
  {
  }

  /** A breach is reported with the size of the event that broke the budget, or of the tail if that did. */
  lemma {:induction false} BreachReportsTheEvent(buffer: Bytes, limit: nat)
    ensures Reports(Drain(buffer, limit), Split(buffer))
    decreases |buffer|
  {
    var found := FindEventBoundary(buffer);
    if found.Some? && found.value.position <= limit {
      var b := found.value;
      var frame, rest := Frame(buffer[..b.position], b.separator), buffer[b.position + b.separator..];
      BreachReportsTheEvent(rest, limit);
      ReportsAfter(frame, Drain(rest, limit), Split(rest));
    }
  }

  /** The size is that of the first event not emitted, or of the tail. */
  ghost predicate Reports(p: Progress, whole: Framing) {
    p.Breach? ==>
      && |p.frames| <= |whole.frames|
      && p.observed == if |p.frames| < |whole.frames| then |whole.frames[|p.frames|].payload| else |whole.tail|
  }

  lemma ReportsAfter(frame: Frame, p: Progress, whole: Framing)
    requires Reports(p, whole)
    ensures Reports(Prepend([frame], p), Framing([frame] + whole.frames, whole.tail))
  {
  }
}
