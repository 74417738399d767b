/**
 The assistant segments of one turn: streamed blocks build the last, unconfirmed segment, complete
 messages confirm segments by uuid, and tool results are written into the segments that hold the tool.
 */
module TurnProjection {
  import opened Common

  datatype Tool = Tool(id: string, name: string, inputJson: Option<string>, parsedInput: Option<string>,
                       result: Option<string>, isLoading: Option<bool>, isError: Option<bool>)

  datatype Block = Text(text: string) | Thinking(thinking: string, isComplete: bool) | ToolUse(tool: Tool)

  /** No uuid: still being streamed. */
  datatype Segment = Segment(uuid: Option<string>, blocks: seq<Block>)

  /** A block of a complete assistant message; anything unrecognised is `Other`. */
  datatype Raw = RawText(text: string) | RawThinking(thinking: string)
               | RawTool(id: string, name: string, input: Option<string>) | Other

  datatype ToolResult = ToolResult(toolUseId: string, body: string, isError: bool)

  // ---------------------------------------------------------------- blocks of a complete message

  function MapBlock(raw: Raw): seq<Block> {
    match raw
    case RawText(text) => [Text(text)]
    case RawThinking(thinking) => [Thinking(thinking, true)]
    case RawTool(id, name, input) =>
      var json := if input.Some? then input.value else "{}";
      [ToolUse(Tool(id, name, Some(json), Some(json), None, Some(true), None))]
    case Other => []
  }

  function MapAssistantBlocks(content: seq<Raw>): seq<Block> {
    if content == [] then [] else MapAssistantBlocks(content[..|content| - 1]) + MapBlock(content[|content| - 1])
  }

  /** A tool nobody has answered yet. */
  ghost predicate AllLoading(blocks: seq<Block>) {
    forall i :: 0 <= i < |blocks| && blocks[i].ToolUse? ==>
      blocks[i].tool.isLoading == Some(true) && blocks[i].tool.result == None && blocks[i].tool.isError == None
  }

  lemma {:induction false} MappedAreLoading(content: seq<Raw>)
    ensures AllLoading(MapAssistantBlocks(content))
  {
    if content != [] {
      MappedAreLoading(content[..|content| - 1]);
    }
  }

  // ---------------------------------------------------------------- merging and results

  function Over<T>(incoming: Option<T>, prior: Option<T>): Option<T> {
    if prior.Some? then prior else incoming
  }

  /** Every field the earlier tool has wins. */
  function MergeTool(incoming: Tool, prior: Tool): Tool {
    Tool(prior.id, prior.name, Over(incoming.inputJson, prior.inputJson), Over(incoming.parsedInput, prior.parsedInput),
         Over(incoming.result, prior.result), Over(incoming.isLoading, prior.isLoading),
         Over(incoming.isError, prior.isError))
  }

  /** The last tool of that id. */
  function Prior(blocks: seq<Block>, n: nat, id: string): (r: Option<Tool>)
    requires n <= |blocks|
    ensures r.Some? ==> r.value.id == id
    ensures r.Some? <==> exists i :: 0 <= i < n && blocks[i].ToolUse? && blocks[i].tool.id == id
  {
    if n == 0 then None
    else if blocks[n - 1].ToolUse? && blocks[n - 1].tool.id == id then Some(blocks[n - 1].tool)
    else Prior(blocks, n - 1, id)
  }

  function MergeBlock(previous: seq<Block>, block: Block): Block {
    if block.ToolUse? then
      var prior := Prior(previous, |previous|, block.tool.id);
      if prior.Some? then ToolUse(MergeTool(block.tool, prior.value)) else block
    else block
  }

  function MergeBlocks(previous: seq<Block>, final: seq<Block>): seq<Block> {
    seq(|final|, i requires 0 <= i < |final| => MergeBlock(previous, final[i]))
  }

  function ApplyOne(block: Block, r: ToolResult): Block {
    if block.ToolUse? && block.tool.id == r.toolUseId then
      ToolUse(block.tool.(result := Some(r.body), isLoading := Some(false), isError := Some(r.isError)))
    else block
  }

  /** The results are written one after the other. */
  function ApplyBlock(block: Block, results: seq<ToolResult>): Block {
    if results == [] then block else ApplyOne(ApplyBlock(block, results[..|results| - 1]), results[|results| - 1])
  }

  function ApplyBlocks(blocks: seq<Block>, results: seq<ToolResult>): seq<Block> {
    seq(|blocks|, i requires 0 <= i < |blocks| => ApplyBlock(blocks[i], results))
  }

  function ApplyResults(segments: seq<Segment>, results: seq<ToolResult>): seq<Segment> {
    seq(|segments|, i requires 0 <= i < |segments| => segments[i].(blocks := ApplyBlocks(segments[i].blocks, results)))
  }

  // ---------------------------------------------------------------- segments

  /** The last segment if it is unconfirmed, else a new one. */
  function WithPending(segments: seq<Segment>): (r: seq<Segment>)
    ensures r != [] && r[|r| - 1].uuid.None?
  {
    if segments != [] && segments[|segments| - 1].uuid.None? then segments else segments + [Segment(None, [])]
  }

  /** The first segment of a uuid. */
  function Find(segments: seq<Segment>, n: nat, uuid: string): (r: Option<nat>)
    requires n <= |segments|
    ensures r.Some? ==> r.value < n && segments[r.value].uuid == Some(uuid)
    ensures r.None? ==> forall i :: 0 <= i < n ==> segments[i].uuid != Some(uuid)
  {
    if n == 0 then None
    else
      var before := Find(segments, n - 1, uuid);
      if before.Some? then before else if segments[n - 1].uuid == Some(uuid) then Some(n - 1) else None
  }

  function Existing(segments: seq<Segment>, uuid: Option<string>): (r: Option<nat>)
    ensures r.Some? ==> r.value < |segments| && uuid.Some? && segments[r.value].uuid == uuid
    ensures r.None? && uuid.Some? ==> forall i :: 0 <= i < |segments| ==> segments[i].uuid != uuid
  {
    if uuid.Some? then Find(segments, |segments|, uuid.value) else None
  }

  function Record(segments: seq<Segment>, uuid: Option<string>, final: seq<Block>): seq<Segment> {
    var existing := Existing(segments, uuid);
    if existing.Some? then
      segments[existing.value := segments[existing.value]
        .(blocks := MergeBlocks(segments[existing.value].blocks, final))]
    else
      var s := WithPending(segments);
      s[|s| - 1 := Segment(uuid, MergeBlocks(s[|s| - 1].blocks, final))]
  }

  /** Whatever the stream writes into the pending segment's blocks. */
  function Stream(segments: seq<Segment>, blocks: seq<Block>): seq<Segment> {
    var s := WithPending(segments);
    s[|s| - 1 := s[|s| - 1].(blocks := blocks)]
  }

  function Flatten(segments: seq<Segment>): seq<Block> {
    if segments == [] then [] else Flatten(segments[..|segments| - 1]) + segments[|segments| - 1].blocks
  }

  // ---------------------------------------------------------------- every call sequence

  datatype Call = Streamed(blocks: seq<Block>) | Recorded(uuid: Option<string>, content: seq<Raw>)
                | Results(results: seq<ToolResult>)

  function Step(segments: seq<Segment>, call: Call): seq<Segment> {
    match call
    case Streamed(blocks) => Stream(segments, blocks)
    case Recorded(uuid, content) => Record(segments, uuid, MapAssistantBlocks(content))
    case Results(results) => ApplyResults(segments, results)
  }

  function Run(calls: seq<Call>): seq<Segment> {
    if calls == [] then [] else Step(Run(calls[..|calls| - 1]), calls[|calls| - 1])
  }

  /** Uuids are distinct, and only the last segment may be unconfirmed. */
  ghost predicate Ok(segments: seq<Segment>) {
    && (forall i :: 0 <= i < |segments| - 1 ==> segments[i].uuid.Some?)
    && (forall i, j :: 0 <= i < j < |segments| && segments[i].uuid.Some? ==> segments[i].uuid != segments[j].uuid)
  }

  /** The uuids of the confirmed segments, in order. */
  function Confirmed(segments: seq<Segment>): seq<string> {
    if segments == [] then []
    else
      var last := segments[|segments| - 1];
      Confirmed(segments[..|segments| - 1]) + (if last.uuid.Some? then [last.uuid.value] else [])
  }

  lemma StepKeepsOk(segments: seq<Segment>, call: Call)
    requires Ok(segments)
    ensures Ok(Step(segments, call))
  {
  }

  lemma {:induction false} SameUuidsSameConfirmed(a: seq<Segment>, b: seq<Segment>)
    requires |a| == |b| && forall i :: 0 <= i < |a| ==> a[i].uuid == b[i].uuid
    ensures Confirmed(a) == Confirmed(b)
  {
    if a != [] {
      SameUuidsSameConfirmed(a[..|a| - 1], b[..|b| - 1]);
    }
  }

  lemma PendingIsNotConfirmed(segments: seq<Segment>)
    ensures var s := WithPending(segments); Confirmed(s[..|s| - 1]) == Confirmed(segments)
  {
    var s := WithPending(segments);
    if s != segments {
      assert s[..|s| - 1] == segments;
    }
  }

  lemma LastReplaced(segments: seq<Segment>, last: Segment)
    ensures var s := WithPending(segments);
            Confirmed(s[|s| - 1 := last]) == Confirmed(segments) + (if last.uuid.Some? then [last.uuid.value] else [])
  {
    var s := WithPending(segments);
    PendingIsNotConfirmed(segments);
    var t := s[|s| - 1 := last];
    assert t[..|t| - 1] == s[..|s| - 1];
  }

  /** Confirmed segments keep their order; a call adds at most its own uuid, at the end. */
  lemma StepKeepsOrder(segments: seq<Segment>, call: Call)
    ensures var after := Confirmed(Step(segments, call));
            || after == Confirmed(segments)
            || (call.Recorded? && call.uuid.Some? && after == Confirmed(segments) + [call.uuid.value])
  {
    match call
    case Streamed(blocks) => LastReplaced(segments, Segment(None, blocks));
    case Recorded(uuid, content) =>
      var final := MapAssistantBlocks(content);
      if Existing(segments, uuid).Some? {
        SameUuidsSameConfirmed(segments, Record(segments, uuid, final));
      } else {
        var s := WithPending(segments);
        LastReplaced(segments, Segment(uuid, MergeBlocks(s[|s| - 1].blocks, final)));
      }
    case Results(results) => SameUuidsSameConfirmed(segments, ApplyResults(segments, results));
  }

  lemma {:induction false} RunIsOk(calls: seq<Call>)
    ensures Ok(Run(calls))
  {
    if calls != [] {
      RunIsOk(calls[..|calls| - 1]);
      StepKeepsOk(Run(calls[..|calls| - 1]), calls[|calls| - 1]);
    }
  }

  /** Over every call sequence the confirmed segments of any earlier moment stay first, in order. */
  lemma {:induction false} RunKeepsOrder(calls: seq<Call>, n: nat)
    requires n <= |calls|
    ensures Confirmed(Run(calls[..n])) <= Confirmed(Run(calls))
    decreases |calls|
  {
    if n < |calls| {
      var init := calls[..|calls| - 1];
      assert init[..n] == calls[..n];
      RunKeepsOrder(init, n);
      StepKeepsOrder(Run(init), calls[|calls| - 1]);
    } else {
      assert calls[..n] == calls;
    }
  }

  // ---------------------------------------------------------------- result before or after re-recording

  predicate Answers(results: seq<ToolResult>, id: string) {
    exists i :: 0 <= i < |results| && results[i].toolUseId == id
  }

  predicate HasTool(blocks: seq<Block>, id: string) {
    exists i :: 0 <= i < |blocks| && blocks[i].ToolUse? && blocks[i].tool.id == id
  }

  function TargetBlocks(segments: seq<Segment>, uuid: Option<string>): seq<Block> {
    var existing := Existing(segments, uuid);
    if existing.Some? then segments[existing.value].blocks
    else
      var s := WithPending(segments);
      s[|s| - 1].blocks
  }

  /** What the results make of a tool: the last result of its id counts, and nothing but the answer changes. */
  lemma {:induction false} AppliedTool(tool: Tool, results: seq<ToolResult>)
    ensures ApplyBlock(ToolUse(tool), results).ToolUse?
    ensures var t := ApplyBlock(ToolUse(tool), results).tool;
            && t == tool.(result := t.result, isLoading := t.isLoading, isError := t.isError)
            && (!Answers(results, tool.id) ==> t == tool)
            && (Answers(results, tool.id) ==> t.isLoading == Some(false) && t.result.Some? && t.isError.Some?)
  {
    if results != [] {
      var init := results[..|results| - 1];
      AppliedTool(tool, init);
      assert forall i :: 0 <= i < |init| ==> init[i] == results[i];
    }
  }

  /** The answer depends on the id and the results alone. */
  lemma {:induction false} SameAnswer(a: Tool, b: Tool, results: seq<ToolResult>)
    requires a.id == b.id && Answers(results, a.id)
    ensures var x, y := ApplyBlock(ToolUse(a), results), ApplyBlock(ToolUse(b), results);
            && x.ToolUse? && y.ToolUse? && x.tool.result == y.tool.result && x.tool.isLoading == y.tool.isLoading
            && x.tool.isError == y.tool.isError
  {
    var init := results[..|results| - 1];
    AppliedTool(a, init);
    AppliedTool(b, init);
    if results[|results| - 1].toolUseId != a.id {
      assert Answers(init, a.id) by {
        var i :| 0 <= i < |results| && results[i].toolUseId == a.id;
        assert init[i] == results[i];
      }
      SameAnswer(a, b, init);
    }
  }

  lemma {:induction false} OtherBlocksUntouched(block: Block, results: seq<ToolResult>)
    requires !block.ToolUse?
    ensures ApplyBlock(block, results) == block
  {
    if results != [] {
      OtherBlocksUntouched(block, results[..|results| - 1]);
    }
  }

  lemma {:induction false} AppliedPrior(blocks: seq<Block>, n: nat, results: seq<ToolResult>, id: string)
    requires n <= |blocks|
    ensures var before, after := Prior(blocks, n, id), Prior(ApplyBlocks(blocks, results), n, id);
            && (before.Some? <==> after.Some?)
            && (before.Some? ==> ToolUse(after.value) == ApplyBlock(ToolUse(before.value), results))
  {
    if n > 0 {
      if blocks[n - 1].ToolUse? {
        AppliedTool(blocks[n - 1].tool, results);
      } else {
        OtherBlocksUntouched(blocks[n - 1], results);
      }
      AppliedPrior(blocks, n - 1, results, id);
    }
  }

  /** One block: the order matters exactly for an answered tool the segment did not hold. */
  lemma BlockOrder(previous: seq<Block>, block: Block, results: seq<ToolResult>)
    requires AllLoading([block])
    ensures MergeBlock(ApplyBlocks(previous, results), block) == ApplyBlock(MergeBlock(previous, block), results) <==>
            (block.ToolUse? && Answers(results, block.tool.id) ==> HasTool(previous, block.tool.id))
  {
    assert [block][0] == block;
    if !block.ToolUse? {
      OtherBlocksUntouched(block, results);
    } else {
      var id := block.tool.id;
      AppliedPrior(previous, |previous|, results, id);
      AppliedTool(block.tool, results);
      var prior := Prior(previous, |previous|, id);
      if prior.Some? {
        MergedOrder(block.tool, prior.value, results);
      }
    }
  }

  lemma MergedOrder(tool: Tool, prior: Tool, results: seq<ToolResult>)
    requires tool.id == prior.id
    ensures ApplyBlock(ToolUse(prior), results).ToolUse?
    ensures ToolUse(MergeTool(tool, ApplyBlock(ToolUse(prior), results).tool))
         == ApplyBlock(ToolUse(MergeTool(tool, prior)), results)
  {
    AppliedTool(prior, results);
    AppliedTool(MergeTool(tool, prior), results);
    if Answers(results, prior.id) {
      SameAnswer(prior, MergeTool(tool, prior), results);
    }
  }

  /** Every answered tool of the new blocks was already in the segment. */
  ghost predicate AnsweredAreKnown(previous: seq<Block>, final: seq<Block>, results: seq<ToolResult>) {
    forall i :: 0 <= i < |final| && final[i].ToolUse? && Answers(results, final[i].tool.id) ==>
      HasTool(previous, final[i].tool.id)
  }

  lemma BlocksOrder(previous: seq<Block>, final: seq<Block>, results: seq<ToolResult>)
    requires AllLoading(final)
    ensures var x := MergeBlocks(ApplyBlocks(previous, results), final);
            var y := ApplyBlocks(MergeBlocks(previous, final), results);
            x == y <==> AnsweredAreKnown(previous, final, results)
  {
    var x, y := MergeBlocks(ApplyBlocks(previous, results), final), ApplyBlocks(MergeBlocks(previous, final), results);
    forall i | 0 <= i < |final|
      ensures x[i] == y[i] <==> (final[i].ToolUse? && Answers(results, final[i].tool.id) ==>
              HasTool(previous, final[i].tool.id))
    {
      BlockOrder(previous, final[i], results);
    }
    if AnsweredAreKnown(previous, final, results) {
      assert forall i :: 0 <= i < |final| ==> x[i] == y[i];
    }
  }

  // The flattened view tells two segment lists of one shape apart.

  lemma {:induction false} FlattenSplits(a: seq<Segment>, b: seq<Segment>)
    requires |a| == |b| && forall i :: 0 <= i < |a| ==> |a[i].blocks| == |b[i].blocks|
    ensures |Flatten(a)| == |Flatten(b)|
    ensures Flatten(a) == Flatten(b) <==> forall i :: 0 <= i < |a| ==> a[i].blocks == b[i].blocks
  {
    if a != [] {
      var n := |a| - 1;
      FlattenSplits(a[..n], b[..n]);
      ConcatSplits(Flatten(a[..n]), a[n].blocks, Flatten(b[..n]), b[n].blocks);
      assert forall i :: 0 <= i < n ==> a[i] == a[..n][i] && b[i] == b[..n][i];
    }
  }

  lemma ConcatSplits(a: seq<Block>, b: seq<Block>, c: seq<Block>, d: seq<Block>)
    requires |a| == |c| && |b| == |d|
    ensures a + b == c + d <==> a == c && b == d
  {
    assert (a + b)[..|a|] == a && (c + d)[..|c|] == c;
    assert (a + b)[|a|..] == b && (c + d)[|c|..] == d;
  }

  lemma AppliedFind(segments: seq<Segment>, n: nat, results: seq<ToolResult>, uuid: string)
    requires n <= |segments|
    ensures Find(ApplyResults(segments, results), n, uuid) == Find(segments, n, uuid)
  {
  }

  /**
   Applying results before or after recording a segment gives the same flattened view exactly when
   every answered tool of the recorded message was already present in the segment it goes to.
   */
  lemma ResultOrderIsIrrelevantIff(segments: seq<Segment>, uuid: Option<string>, content: seq<Raw>,
                                   results: seq<ToolResult>)
    ensures var final := MapAssistantBlocks(content);
            var resultsFirst := Record(ApplyResults(segments, results), uuid, final);
            var recordedFirst := ApplyResults(Record(segments, uuid, final), results);
            Flatten(resultsFirst) == Flatten(recordedFirst) <==>
            AnsweredAreKnown(TargetBlocks(segments, uuid), final, results)
  {
    var final := MapAssistantBlocks(content);
    MappedAreLoading(content);
    var target := TargetBlocks(segments, uuid);
    BlocksOrder(target, final, results);
    var x, y := Record(ApplyResults(segments, results), uuid, final),
            ApplyResults(Record(segments, uuid, final), results);
    var k := TargetIndex(segments, uuid);
    TargetOfBoth(segments, uuid, final, results, k);
    FlattenSplits(x, y);
  }

  function TargetIndex(segments: seq<Segment>, uuid: Option<string>): (k: nat) {
    var existing := Existing(segments, uuid);
    if existing.Some? then existing.value else |WithPending(segments)| - 1
  }

  lemma TargetOfBoth(segments: seq<Segment>, uuid: Option<string>, final: seq<Block>, results: seq<ToolResult>, k: nat)
    requires k == TargetIndex(segments, uuid)
    ensures var x, y := Record(ApplyResults(segments, results), uuid, final),
            ApplyResults(Record(segments, uuid, final), results);
            var target := TargetBlocks(segments, uuid);
            && |x| == |y| && k < |x|
            && x[k].blocks == MergeBlocks(ApplyBlocks(target, results), final)
            && y[k].blocks == ApplyBlocks(MergeBlocks(target, final), results)
            && |x[k].blocks| == |y[k].blocks|
            && forall i :: 0 <= i < |x| && i != k ==> x[i].blocks == y[i].blocks
  {
    if uuid.Some? {
      AppliedFind(segments, |segments|, results, uuid.value);
    }
    assert Existing(ApplyResults(segments, results), uuid) == Existing(segments, uuid);
    if Existing(segments, uuid).None? {
      AppliedPending(segments, results);
    }
  }

  /** Results pass over the pending segment that recording would open. */
  lemma AppliedPending(segments: seq<Segment>, results: seq<ToolResult>)
    ensures WithPending(ApplyResults(segments, results)) == ApplyResults(WithPending(segments), results)
  {
    assert ApplyBlocks([], results) == [];
  }

  // ---------------------------------------------------------------- the projection object

  function Answered(blocks: seq<Block>, r: ToolResult): seq<Block> {
    seq(|blocks|, i requires 0 <= i < |blocks| => ApplyOne(blocks[i], r))
  }

  lemma AnsweredNext(blocks: seq<Block>, results: seq<ToolResult>, k: nat)
    requires k < |results|
    ensures Answered(ApplyBlocks(blocks, results[..k]), results[k]) == ApplyBlocks(blocks, results[..k + 1])
  {
    assert results[..k + 1][..k] == results[..k];
  }

  lemma NoResults(segments: seq<Segment>)
    ensures ApplyResults(segments, []) == segments
  {
    forall i | 0 <= i < |segments| ensures ApplyResults(segments, [])[i] == segments[i] {
      assert ApplyBlocks(segments[i].blocks, []) == segments[i].blocks;
    }
  }

  method AnswerTools(blocks: seq<Block>, r: ToolResult) returns (after: seq<Block>)
    ensures after == Answered(blocks, r)
  {
    after := blocks;
    for i := 0 to |blocks|
      invariant |after| == |blocks|
      invariant forall j :: 0 <= j < i ==> after[j] == ApplyOne(blocks[j], r)
      invariant forall j :: i <= j < |blocks| ==> after[j] == blocks[j]
    {
      if after[i].ToolUse? && after[i].tool.id == r.toolUseId {
        var tool := after[i].tool;
        tool := tool.(result := Some(r.body));
        tool := tool.(isLoading := Some(false));
        tool := tool.(isError := Some(r.isError));
        after := after[i := ToolUse(tool)];
      }
    }
  }

  class AssistantTurnProjection {
    var segments: seq<Segment>

    constructor ()
      ensures segments == []
    {
      segments := [];
    }

    /** The stream writes into the pending segment. */
    method WritePending(blocks: seq<Block>)
      modifies this
      ensures segments == Step(old(segments), Streamed(blocks))
    {
      EnsurePending();
      var last := |segments| - 1;
      segments := segments[last := segments[last].(blocks := blocks)];
    }

    method EnsurePending()
      modifies this
      ensures segments == WithPending(old(segments))
    {
      if segments == [] || segments[|segments| - 1].uuid.Some? {
        segments := segments + [Segment(None, [])];
      }
    }

    method RecordAssistantSegment(uuid: Option<string>, content: seq<Raw>)
      modifies this
      ensures segments == Step(old(segments), Recorded(uuid, content))
    {
      var mapped := MapAssistantBlocks(content);
      var existing := if uuid.Some? then Find(segments, |segments|, uuid.value) else None;
      if existing.Some? {
        var k := existing.value;
        segments := segments[k := segments[k].(blocks := MergeBlocks(segments[k].blocks, mapped))];
      } else {
        EnsurePending();
        var last := |segments| - 1;
        segments := segments[last := Segment(uuid, MergeBlocks(segments[last].blocks, mapped))];
      }
    }

    method ApplyToolResults(results: seq<ToolResult>)
      modifies this
      ensures segments == Step(old(segments), Results(results))
    {
      ghost var were := segments;
      NoResults(were);
      for k := 0 to |results|
        invariant segments == ApplyResults(were, results[..k])
      {
        ghost var before := segments;
        for i := 0 to |segments|
          invariant |segments| == |before|
          invariant forall j :: 0 <= j < i ==>
                  segments[j] == before[j].(blocks := Answered(before[j].blocks, results[k]))
          invariant forall j :: i <= j < |segments| ==> segments[j] == before[j]
        {
          var blocks := AnswerTools(segments[i].blocks, results[k]);
          segments := segments[i := segments[i].(blocks := blocks)];
        }
        forall j | 0 <= j < |were| ensures segments[j] == ApplyResults(were, results[..k + 1])[j] {
          AnsweredNext(were[j].blocks, results, k);
        }
      }
      assert results[..|results|] == results;
    }

    method Reset()
      modifies this
      ensures segments == []
    {
      segments := [];
    }
  }
}
