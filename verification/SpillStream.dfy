/**
 Streaming one response body: keep it in memory, or move it to a spill file once it outgrows
 the threshold, under a hard size limit. The reference, `Expected`, knows only the whole body.
 */
module SpillStream {
  import opened Common

  const PREVIEW_BYTES: nat := 8 * 1024

  datatype ResponsePolicy = ResponsePolicy(maxBytes: nat, spillThresholdBytes: nat, allowSpill: bool)

  /** What the network delivers next: bytes, or the error that ends the stream. */
  datatype Chunk = Data(bytes: Bytes) | Broken

  datatype Outcome =
    | Buffered(body: Bytes)
    | Spilled(file: Bytes, sizeBytes: nat, preview: Bytes)
    | Failed

  function Preview(body: Bytes): Bytes {
    if |body| <= PREVIEW_BYTES then body else body[..PREVIEW_BYTES]
  }

  predicate MustSpill(size: nat, policy: ResponsePolicy, force: bool) {
    policy.allowSpill && (force || size > policy.spillThresholdBytes)
  }

  predicate Whole(chunks: seq<Chunk>) {
    forall i :: 0 <= i < |chunks| ==> chunks[i].Data?
  }

  /** The bytes of a stream that did not break. */
  function Body(chunks: seq<Chunk>): Bytes
    requires Whole(chunks)
  {
    if chunks == [] then [] else Body(chunks[..|chunks| - 1]) + chunks[|chunks| - 1].bytes
  }

  lemma {:induction false} BodyGrows(chunks: seq<Chunk>, n: nat)
    requires Whole(chunks) && n <= |chunks|
    ensures Whole(chunks[..n]) && |Body(chunks[..n])| <= |Body(chunks)|
    decreases |chunks|
  {
    if n == |chunks| {
      assert chunks[..n] == chunks;
    } else {
      assert chunks[..|chunks| - 1][..n] == chunks[..n];
      BodyGrows(chunks[..|chunks| - 1], n);
    }
  }

  /** The outcome as a function of the whole body, the policy and the force flag, absent any failure. */
  function Expected(body: Bytes, policy: ResponsePolicy, force: bool): Outcome {
    if |body| > policy.maxBytes then Failed
    else if !MustSpill(|body|, policy, force) then Buffered(body)
    else Spilled(body, |body|, Preview(body))
  }

  /** Where the limits lie: a body that is too large fails, one that fits the threshold stays in memory unless
      spilling is forced, a larger one is spilled where that is allowed; the preview is its first 8192 bytes. */
  lemma OutcomeBySize(body: Bytes, policy: ResponsePolicy, force: bool)
    ensures |body| > policy.maxBytes <==> Expected(body, policy, force).Failed?
    ensures |body| <= policy.maxBytes ==>
              && (!policy.allowSpill || (!force && |body| <= policy.spillThresholdBytes) <==>
                  Expected(body, policy, force) == Buffered(body))
              && (Expected(body, policy, force).Spilled? ==>
                    var spilled := Expected(body, policy, force);
                    && spilled.file == body && spilled.sizeBytes == |body|
                    && spilled.preview <= body && |spilled.preview| == if |body| < 8192 then |body| else 8192)
  {
  }

  /**
   What the disk and the shared budget do to one call: whether a part can be claimed, whether the `k`-th
   reservation is granted and the bytes after it can be written, whether the spill can be committed.
   */
  datatype Io = Io(claims: bool, grants: nat -> bool, writes: nat -> bool, commits: bool)

  ghost predicate Went(io: Io, k: nat) {
    io.grants(k) && io.writes(k)
  }

  /** The loop's view of the spill: what is in the file, what is reserved for it, and how often it was written. */
  datatype SpillState = SpillState(file: Bytes, reserved: nat, calls: nat)

  /** Bytes go to the file only after their reservation was granted. */
  method WriteReserved(spill: SpillState, bytes: Bytes, io: Io) returns (spill': SpillState, ok: bool)
    ensures ok <==> Went(io, spill.calls)
    ensures ok ==> spill' == SpillState(spill.file + bytes, spill.reserved + |bytes|, spill.calls + 1)
    ensures !ok ==> spill'.file == spill.file && spill'.calls == spill.calls + 1
    ensures spill'.reserved == spill.reserved + if io.grants(spill.calls) then |bytes| else 0
  {
    spill', ok := spill.(calls := spill.calls + 1), false;
    if !io.grants(spill.calls) {
      return;
    }
    spill' := spill'.(reserved := spill.reserved + |bytes|);
    if !io.writes(spill.calls) {
      return;
    }
    spill', ok := spill'.(file := spill.file + bytes), true;
  }

  /** The consumer's state after the given bytes: buffering or spilling, never both; so far all went well. */
  ghost predicate Tracks(body: Bytes, buffer: Bytes, spill: Option<SpillState>, policy: ResponsePolicy, force: bool,
                         io: Io) {
    if MustSpill(|body|, policy, force)
    then && spill.Some? && spill.value.file == body && spill.value.reserved == |body|
         && io.claims && forall k :: 0 <= k < spill.value.calls ==> Went(io, k)
    else spill == None && buffer == body
  }

  /** The spill has to go on and something failed: the part could not be claimed, or call `calls` - 1 did not go. */
  ghost predicate Refused(io: Io, calls: nat) {
    !io.claims || (calls > 0 && !Went(io, calls - 1))
  }

  /** One chunk: append to the file, move over to a file, or append to the buffer. */
  method Consume(ghost body: Bytes, chunk: Bytes, buffer: Bytes, spill: Option<SpillState>,
                 policy: ResponsePolicy, force: bool, io: Io)
    returns (buffer': Bytes, spill': Option<SpillState>, ok: bool)
    requires Tracks(body, buffer, spill, policy, force, io)
    ensures ok ==> Tracks(body + chunk, buffer', spill', policy, force, io)
    ensures !ok ==> MustSpill(|body + chunk|, policy, force) && spill'.Some? && Refused(io, spill'.value.calls)
  {
    buffer', spill' := buffer, spill;
    if spill.Some? {
      var written;
      written, ok := WriteReserved(spill.value, chunk, io);
      spill' := Some(written);
    } else if policy.allowSpill && |buffer| + |chunk| > policy.spillThresholdBytes {
      var started := SpillState([], 0, 0);
      spill' := Some(started);
      if !io.claims {
        return buffer, spill', false;
      }
      started, ok := WriteReserved(started, buffer, io);
      spill' := Some(started);
      if !ok {
        return;
      }
      assert started.file == buffer;
      started, ok := WriteReserved(started, chunk, io);
      buffer', spill' := [], Some(started);
    } else {
      buffer' := buffer + chunk;
      ok := true;
    }
  }

  /**
   Cutting a body into other chunks, empty ones included, never changes the outcome; a stream that breaks
   fails; and a body that has to be spilled is spilled exactly when every call made for it went well.
   */
  method StreamResponseBody(chunks: seq<Chunk>, policy: ResponsePolicy, force: bool, io: Io)
    returns (outcome: Outcome, calls: nat)
    ensures !Whole(chunks) ==> outcome == Failed
    ensures Whole(chunks) ==>
              var body := Body(chunks);
              if |body| <= policy.maxBytes && MustSpill(|body|, policy, force)
              then outcome == (if io.claims && (forall k :: 0 <= k < calls ==> Went(io, k)) && io.commits
                               then Expected(body, policy, force) else Failed)
              else outcome == Expected(body, policy, force)
  {
    calls := 0;
    var spill: Option<SpillState> := None;
    if force && policy.allowSpill {
      if !io.claims {
        return Failed, 0;
      }
      spill := Some(SpillState([], 0, 0));
    }
    var buffer: Bytes := [];
    var size := 0;
    var preview: Bytes := [];
    for n := 0 to |chunks|
      invariant Whole(chunks[..n])
      invariant size == |Body(chunks[..n])| <= policy.maxBytes
      invariant preview == Preview(Body(chunks[..n]))
      invariant Tracks(Body(chunks[..n]), buffer, spill, policy, force, io)
    {
      if chunks[n].Broken? {
        return Failed, 0;
      }
      var chunk := chunks[n].bytes;
      ghost var body := Body(chunks[..n]);
      assert chunks[..n + 1][..n] == chunks[..n];
      assert Body(chunks[..n + 1]) == body + chunk;
      if Whole(chunks) {
        BodyGrows(chunks, n + 1);
      }
      if size + |chunk| > policy.maxBytes {
        return Failed, 0;
      }
      size := size + |chunk|;
      preview := ExtendPreview(body, preview, chunk);
      var ok;
      buffer, spill, ok := Consume(body, chunk, buffer, spill, policy, force, io);
      if !ok {
        return Failed, spill.value.calls;
      }
    }
    assert chunks[..|chunks|] == chunks;
    if spill.None? {
      return Buffered(buffer), 0;
    }
    calls := spill.value.calls;
    if !io.commits {
      return Failed, calls;
    }
    return Spilled(spill.value.file, size, preview), calls;
  }

  /** The preview takes from each chunk what it still has room for. */
  method ExtendPreview(ghost body: Bytes, preview: Bytes, chunk: Bytes) returns (preview': Bytes)
    requires preview == Preview(body)
    ensures preview' == Preview(body + chunk)
  {
    preview' := preview;
    if |preview| < PREVIEW_BYTES {
      var take := if PREVIEW_BYTES - |preview| < |chunk| then PREVIEW_BYTES - |preview| else |chunk|;
      PreviewStep(body, chunk, take);
      preview' := preview + chunk[..take];
    } else {
      PreviewFull(body, chunk);
    }
  }

  lemma PreviewStep(body: Bytes, chunk: Bytes, take: nat)
    requires |Preview(body)| < PREVIEW_BYTES
    requires take == if PREVIEW_BYTES - |body| < |chunk| then PREVIEW_BYTES - |body| else |chunk|
    ensures Preview(body + chunk) == Preview(body) + chunk[..take]
  {
  }

  lemma PreviewFull(body: Bytes, chunk: Bytes)
    requires |Preview(body)| >= PREVIEW_BYTES
    ensures Preview(body + chunk) == Preview(body)
  {
    assert (body + chunk)[..PREVIEW_BYTES] == body[..PREVIEW_BYTES];
  }
}
