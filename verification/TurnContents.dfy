/**
 What the segments of a turn show: which block each raw block becomes, which answer a tool shows, what
 recording a message again changes, and which segment a call touches.
 */
module TurnContents {
  import opened Common
  import opened TurnProjection

  // ---------------------------------------------------------------- raw blocks

  lemma {:induction false} MapAppends(a: seq<Raw>, b: seq<Raw>)
    ensures MapAssistantBlocks(a + b) == MapAssistantBlocks(a) + MapAssistantBlocks(b)
  {
    if b == [] {
      assert a + b == a;
    } else {
      var init, last := b[..|b| - 1], b[|b| - 1];
      assert (a + b)[..|a + b| - 1] == a + init;
      MapAppends(a, init);
      AppendAssociates(MapAssistantBlocks(a), MapAssistantBlocks(init), MapBlock(last));
    }
  }

  /** A text becomes a text, a thought a complete thought, a tool call a tool nobody has answered yet, and
      anything else nothing; all in their order. */
  lemma EachBlockInItsPlace(before: seq<Raw>, raw: Raw, after: seq<Raw>) returns (shown: seq<Block>)
    ensures MapAssistantBlocks(before + [raw] + after)
         == MapAssistantBlocks(before) + shown + MapAssistantBlocks(after)
    ensures raw.RawText? ==> shown == [Text(raw.text)]
    ensures raw.RawThinking? ==> shown == [Thinking(raw.thinking, true)]
    ensures raw.RawTool? ==>
              var input := if raw.input.Some? then raw.input else Some("{}");
              shown == [ToolUse(Tool(raw.id, raw.name, input, input, None, Some(true), None))]
    ensures raw.Other? ==> shown == []
  {
    shown := MapAssistantBlocks([raw]);
    MapAppends(before, [raw]);
    MapAppends(before + [raw], after);
    assert [raw][..0] == [];
  }

  /** The flattened view shows the segments one after the other. */
  lemma {:induction false} FlattenInOrder(a: seq<Segment>, b: seq<Segment>)
    ensures Flatten(a + b) == Flatten(a) + Flatten(b)
    ensures |b| == 1 ==> Flatten(b) == b[0].blocks
  {
    if b == [] {
      assert a + b == a;
    } else {
      var init := b[..|b| - 1];
      assert (a + b)[..|a + b| - 1] == a + init;
      FlattenInOrder(a, init);
      AppendAssociates(Flatten(a), Flatten(init), b[|b| - 1].blocks);
    }
  }

  // ---------------------------------------------------------------- answers

  /** The last result for a tool. */
  ghost predicate IsLastAnswer(results: seq<ToolResult>, k: nat, id: string) {
    k < |results| && results[k].toolUseId == id && forall j :: k < j < |results| ==> results[j].toolUseId != id
  }

  function Showing(tool: Tool, r: ToolResult): Tool {
    tool.(result := Some(r.body), isLoading := Some(false), isError := Some(r.isError))
  }

  /** A tool shows the last result for its id. */
  lemma {:induction false} ShowsTheLastAnswer(tool: Tool, results: seq<ToolResult>, k: nat)
    requires IsLastAnswer(results, k, tool.id)
    ensures ApplyBlock(ToolUse(tool), results) == ToolUse(Showing(tool, results[k]))
    decreases |results|
  {
    var init := results[..|results| - 1];
    AppliedTool(tool, init);
    if k < |init| {
      ShowsTheLastAnswer(tool, init, k);
    }
  }

  /** In whatever segment and place it stands, an answered tool shows its answer, and every other block is as
      it was. */
  lemma AnswersReachEverySegment(segments: seq<Segment>, results: seq<ToolResult>, i: nat, j: nat)
    requires i < |segments| && j < |segments[i].blocks|
    ensures var after, block := ApplyResults(segments, results), segments[i].blocks[j];
            && |after| == |segments| && after[i].uuid == segments[i].uuid && |after[i].blocks| == |segments[i].blocks|
            && (!block.ToolUse? || !Answers(results, block.tool.id) ==> after[i].blocks[j] == block)
            && (forall k: nat :: block.ToolUse? && IsLastAnswer(results, k, block.tool.id) ==>
                  after[i].blocks[j] == ToolUse(Showing(block.tool, results[k])))
  {
    var block := segments[i].blocks[j];
    if block.ToolUse? {
      AppliedTool(block.tool, results);
      forall k: nat | IsLastAnswer(results, k, block.tool.id)
        ensures ApplyBlock(block, results) == ToolUse(Showing(block.tool, results[k]))
      {
        ShowsTheLastAnswer(block.tool, results, k);
      }
    } else {
      OtherBlocksUntouched(block, results);
    }
  }

  // ---------------------------------------------------------------- merging

  ghost predicate IsLastOf(blocks: seq<Block>, k: nat, id: string) {
    && k < |blocks| && blocks[k].ToolUse? && blocks[k].tool.id == id
    && forall j :: k < j < |blocks| ==> !(blocks[j].ToolUse? && blocks[j].tool.id == id)
  }

  lemma {:induction false} PriorIsLast(blocks: seq<Block>, n: nat, k: nat, id: string)
    requires k < n <= |blocks| && IsLastOf(blocks, k, id)
    ensures Prior(blocks, n, id) == Some(blocks[k].tool)
    decreases n
  {
    if k < n - 1 {
      PriorIsLast(blocks, n - 1, k, id);
    }
  }

  predicate Kept<T(==)>(prior: Option<T>, incoming: Option<T>, shown: Option<T>) {
    shown == if prior.Some? then prior else incoming
  }

  /** A tool that was shown before keeps its name and every field it had; what it lacked comes from the
      message. Everything else is shown as the message has it. */
  lemma KnownToolsKeepTheirFields(previous: seq<Block>, final: seq<Block>, i: nat)
    requires i < |final|
    ensures var shown := MergeBlocks(previous, final);
            && |shown| == |final|
            && (!(final[i].ToolUse? && HasTool(previous, final[i].tool.id)) ==> shown[i] == final[i])
    ensures forall k: nat :: final[i].ToolUse? && IsLastOf(previous, k, final[i].tool.id) ==>
              var shown := MergeBlocks(previous, final)[i];
              && shown.ToolUse?
              && var prior, incoming, t := previous[k].tool, final[i].tool, shown.tool;
                 && t.id == prior.id && t.name == prior.name
                 && Kept(prior.inputJson, incoming.inputJson, t.inputJson)
                 && Kept(prior.parsedInput, incoming.parsedInput, t.parsedInput)
                 && Kept(prior.result, incoming.result, t.result)
                 && Kept(prior.isLoading, incoming.isLoading, t.isLoading)
                 && Kept(prior.isError, incoming.isError, t.isError)
  {
    forall k: nat | final[i].ToolUse? && IsLastOf(previous, k, final[i].tool.id)
      ensures Prior(previous, |previous|, final[i].tool.id) == Some(previous[k].tool)
    {
      PriorIsLast(previous, |previous|, k, final[i].tool.id);
    }
  }

  /** Each tool of the message has an id of its own. */
  ghost predicate DistinctTools(blocks: seq<Block>) {
    forall i, j :: 0 <= i < j < |blocks| && blocks[i].ToolUse? && blocks[j].ToolUse? ==>
      blocks[i].tool.id != blocks[j].tool.id
  }

  lemma MergedId(previous: seq<Block>, block: Block)
    ensures MergeBlock(previous, block).ToolUse? <==> block.ToolUse?
    ensures block.ToolUse? ==> MergeBlock(previous, block).tool.id == block.tool.id
  {
  }

  lemma MergedTwice(previous: seq<Block>, final: seq<Block>)
    requires DistinctTools(final)
    ensures MergeBlocks(MergeBlocks(previous, final), final) == MergeBlocks(previous, final)
  {
    var once := MergeBlocks(previous, final);
    forall i | 0 <= i < |final|
      ensures MergeBlock(once, final[i]) == once[i]
    {
      if final[i].ToolUse? {
        MergedId(previous, final[i]);
        forall j | i < j < |once|
          ensures !(once[j].ToolUse? && once[j].tool.id == final[i].tool.id)
        {
          MergedId(previous, final[j]);
        }
        PriorIsLast(once, |once|, i, final[i].tool.id);
      }
    }
  }

  // ---------------------------------------------------------------- which segment a call touches

  /** The segment a message is recorded in: the one of its uuid, or the pending one. */
  ghost predicate IsTarget(segments: seq<Segment>, uuid: Option<string>, k: nat) {
    if uuid.Some? && exists i :: 0 <= i < |segments| && segments[i].uuid == uuid
    then k < |segments| && segments[k].uuid == uuid
    else k == |WithPending(segments)| - 1
  }

  /** Recording changes that segment alone: it bears the uuid then, and shows the message merged with what it
      showed. The pending segment of a new message is confirmed by it. */
  lemma RecordingChangesOneSegment(segments: seq<Segment>, uuid: Option<string>, content: seq<Raw>, k: nat)
    requires Ok(segments) && IsTarget(segments, uuid, k)
    ensures IsRecorded(segments, uuid, MapAssistantBlocks(content), k, Step(segments, Recorded(uuid, content)))
  {
    var final := MapAssistantBlocks(content);
    if k < |segments| && uuid.Some? && segments[k].uuid == uuid {
      RecordedInExisting(segments, uuid, final, k);
    } else {
      RecordedInPending(segments, uuid, final);
    }
  }

  ghost predicate IsRecorded(segments: seq<Segment>, uuid: Option<string>, final: seq<Block>, k: nat,
                             after: seq<Segment>) {
    && |after| == (if k < |segments| then |segments| else k + 1) && k < |after|
    && after[k] == Segment(uuid, MergeBlocks(if k < |segments| then segments[k].blocks else [], final))
    && forall i :: 0 <= i < |segments| && i != k ==> after[i] == segments[i]
  }

  lemma RecordedInExisting(segments: seq<Segment>, uuid: Option<string>, final: seq<Block>, k: nat)
    requires Ok(segments) && uuid.Some? && k < |segments| && segments[k].uuid == uuid
    ensures IsRecorded(segments, uuid, final, k, Record(segments, uuid, final))
  {
    assert Existing(segments, uuid) == Some(k);
  }

  lemma RecordedInPending(segments: seq<Segment>, uuid: Option<string>, final: seq<Block>)
    requires uuid.Some? ==> forall i :: 0 <= i < |segments| ==> segments[i].uuid != uuid
    ensures IsRecorded(segments, uuid, final, |WithPending(segments)| - 1, Record(segments, uuid, final))
  {
    assert Existing(segments, uuid).None?;
  }

  /** The stream changes the pending segment alone. */
  lemma StreamingChangesThePending(segments: seq<Segment>, blocks: seq<Block>)
    ensures var after := Step(segments, Streamed(blocks));
            && after != [] && after[|after| - 1] == Segment(None, blocks)
            && after[..|after| - 1] ==
               if segments != [] && segments[|segments| - 1].uuid.None? then segments[..|segments| - 1] else segments
  {
  }

  lemma {:induction false} FindsTheOnly(segments: seq<Segment>, n: nat, k: nat, uuid: string)
    requires k < n <= |segments| && segments[k].uuid == Some(uuid)
    requires forall i :: 0 <= i < |segments| && i != k ==> segments[i].uuid != Some(uuid)
    ensures Find(segments, n, uuid) == Some(k)
    decreases n
  {
    if k < n - 1 {
      FindsTheOnly(segments, n - 1, k, uuid);
    }
  }

  /** A complete message that is delivered twice changes nothing the second time. */
  lemma RecordingTwiceIsRecordingOnce(segments: seq<Segment>, uuid: string, content: seq<Raw>)
    requires Ok(segments) && DistinctTools(MapAssistantBlocks(content))
    ensures var once := Step(segments, Recorded(Some(uuid), content));
            Step(once, Recorded(Some(uuid), content)) == once
  {
    var call, final := Recorded(Some(uuid), content), MapAssistantBlocks(content);
    var once := Step(segments, call);
    var k := TargetIndex(segments, Some(uuid));
    StepKeepsOk(segments, call);
    RecordingChangesOneSegment(segments, Some(uuid), content, k);
    FindsTheOnly(once, |once|, k, uuid);
    MergedTwice(if k < |segments| then segments[k].blocks else [], final);
    assert Step(once, call) == once[k := once[k]];
  }
}
