/**
 What the spill protocol guarantees over whole runs: any number of writers, any interleaving,
 any failing call, any number of crashes and restarts.
 */
module SpillTheorems {
  import opened Common
  import opened SpillFiles
  import opened SpillStore
  import opened SpillInvariant
  import opened SpillLate
  import opened SpillAccounts

  /** A process start over a directory that holds complete pairs and incomplete leftovers. */
  ghost predicate AtStart(s: State) {
    && NamesOk(s) && s.late == map[] && s.holder == map[] && s.writers == [] && s.active == 0 && s.debt == 0
    && s.orphans == [] && s.retry.None? && !s.ready && s.startDebt == 0 && s.slack == 0 && s.groups == 0
  }

  ghost predicate Follows(s: State, step: Step, s': State) {
    Enabled(s, step) && s' == Apply(s, step)
  }

  /** Each of the first `n` steps leads from one state to the next. */
  ghost predicate Linked(states: seq<State>, steps: seq<Step>, n: nat)
    requires n <= |steps| < |states|
  {
    n > 0 ==> Linked(states, steps, n - 1) && Follows(states[n - 1], steps[n - 1], states[n])
  }

  ghost predicate IsRun(states: seq<State>, steps: seq<Step>) {
    |states| == |steps| + 1 && AtStart(states[0]) && Linked(states, steps, |steps|)
  }

  lemma {:induction false} LinkedAt(states: seq<State>, steps: seq<Step>, n: nat, k: nat)
    requires k < n <= |steps| < |states| && Linked(states, steps, n)
    ensures Follows(states[k], steps[k], states[k + 1])
  {
    if k < n - 1 {
      LinkedAt(states, steps, n - 1, k);
    }
  }

  lemma {:induction false} LinkedOn(states: seq<State>, steps: seq<Step>, n: nat, s: State, step: Step)
    requires n <= |steps| < |states| && Linked(states, steps, n)
    ensures Linked(states + [s], steps + [step], n)
  {
    if n > 0 {
      LinkedOn(states, steps, n - 1, s, step);
    }
  }

  lemma StepOfRun(states: seq<State>, steps: seq<Step>, k: nat)
    requires IsRun(states, steps) && k < |steps|
    ensures Enabled(states[k], steps[k]) && states[k + 1] == Apply(states[k], steps[k])
  {
    LinkedAt(states, steps, |steps|, k);
  }

  /** Every state of every run satisfies the invariant. */
  lemma {:induction false} RunKeepsInv(states: seq<State>, steps: seq<Step>, i: nat)
    requires IsRun(states, steps) && i < |states|
    ensures Inv(states[i])
  {
    if i > 0 {
      RunKeepsInv(states, steps, i - 1);
      StepOfRun(states, steps, i - 1);
      StepKeepsInv(states[i - 1], steps[i - 1]);
    }
  }

  // ---------------------------------------------------------------- publication

  lemma BodyStepsPublishNothing(s: State, step: Step)
    requires CanBody(s, step)
    ensures AfterBody(s, step).published == s.published
  {
  }

  lemma MetaStepsPublishNothing(s: State, step: Step)
    requires CanMeta(s, step) && !step.LinkMeta?
    ensures AfterMeta(s, step).published == s.published
  {
  }

  lemma FailureStepsPublishNothing(s: State, step: Step)
    requires CanFailure(s, step)
    ensures AfterFailure(s, step).published == s.published
  {
    match step
    case Fail(w) =>
    case UnlinkFailed(w, ok) =>
    case Measure(w, measured) => assert AfterMeasure(s, w, measured).published == s.published;
    case FinishFailed(w) => assert AfterFinishFailed(s, w).published == s.published;
    case LandLate(i, n) =>
    case Settle(i) =>
  }

  lemma GroupStepsPublishNothing(s: State, step: Step)
    requires CanManage(s, step) && IsGroupStep(step)
    ensures AfterManage(s, step).published == s.published && AfterManage(s, step).data == s.data
  {
    if step.EndRetry? {
      EndRetryPublishesNothing(s, step.measured);
    }
  }

  lemma EndRetryPublishesNothing(s: State, measured: bool)
    requires CanEndRetry(s, measured)
    ensures AfterEndRetry(s, measured).published == s.published && AfterEndRetry(s, measured).data == s.data
  {
  }

  lemma StartupPublishesNothing(s: State, step: Step)
    requires CanManage(s, step) && IsStartupStep(step)
    ensures AfterManage(s, step).published == s.published && AfterManage(s, step).data == s.data
  {
  }

  lemma OtherStepsPublishNothing(s: State, step: Step)
    requires Enabled(s, step) && !step.LinkMeta?
    ensures Apply(s, step).published == s.published
  {
    if IsBodyStep(step) {
      BodyStepsPublishNothing(s, step);
    } else if IsMetaStep(step) {
      MetaStepsPublishNothing(s, step);
    } else if IsFailureStep(step) {
      FailureStepsPublishNothing(s, step);
    } else if IsGroupStep(step) {
      GroupStepsPublishNothing(s, step);
    } else {
      StartupPublishesNothing(s, step);
    }
  }

  /** One step never changes or hides a published pair, and publishes at most the acting writer's. */
  lemma StepKeepsPublished(s: State, step: Step)
    requires FilesOk(s) && Enabled(s, step)
    ensures var s' := Apply(s, step);
            && (forall id :: id in s.published ==> id in s'.published && s'.published[id] == s.published[id])
            && (forall id :: id in s'.published && id !in s.published ==>
                  && step.LinkMeta? && s.writers[step.w].id == id
                  && s'.published[id] == Pair(s.writers[step.w].streamed, s.writers[step.w].metaBytes))
  {
    if step.LinkMeta? {
      assert WriterOk(s, step.w);
      var id := s.writers[step.w].id;
      assert id in s.published ==> PairOk(s, id);
    } else {
      OtherStepsPublishNothing(s, step);
    }
  }

  /** The bytes handed over for a writer so far; writers do not survive a crash. */
  function StreamedBy(steps: seq<Step>, w: nat): Bytes {
    if steps == [] then []
    else
      var before, last := StreamedBy(steps[..|steps| - 1], w), steps[|steps| - 1];
      if last.Crash? then [] else before + Handed(last, w)
  }

  lemma {:induction false} WritersHoldTheirStream(states: seq<State>, steps: seq<Step>, i: nat, w: nat)
    requires IsRun(states, steps) && i < |states|
    ensures if w < |states[i].writers| then states[i].writers[w].streamed == StreamedBy(steps[..i], w)
            else StreamedBy(steps[..i], w) == []
  {
    if i > 0 {
      WritersHoldTheirStream(states, steps, i - 1, w);
      assert steps[..i][..i - 1] == steps[..i - 1];
      StepOfRun(states, steps, i - 1);
      StreamStep(states[i - 1], steps[i - 1], w);
    }
  }

  /** What one step hands over to a writer. */
  function Handed(step: Step, w: nat): Bytes {
    if step.Write? && step.w == w then step.chunk else []
  }

  ghost predicate StreamsOn(s: State, s': State, step: Step, w: nat) {
    && |s'.writers| == |s.writers| + (if step.Claim? then 1 else 0)
    && (step.Claim? ==> s'.writers[|s.writers|].streamed == [])
    && (w < |s.writers| ==> s'.writers[w].streamed == s.writers[w].streamed + Handed(step, w))
  }

  lemma BodyStepsStream(s: State, step: Step, w: nat)
    requires CanBody(s, step)
    ensures StreamsOn(s, AfterBody(s, step), step, w)
  {
  }

  lemma MetaStepsStream(s: State, step: Step, w: nat)
    requires CanMeta(s, step)
    ensures StreamsOn(s, AfterMeta(s, step), step, w)
  {
  }

  lemma FailureStepsStream(s: State, step: Step, w: nat)
    requires CanFailure(s, step)
    ensures StreamsOn(s, AfterFailure(s, step), step, w)
  {
  }

  lemma ManageStepsStream(s: State, step: Step, w: nat)
    requires CanManage(s, step) && !step.Crash?
    ensures StreamsOn(s, AfterManage(s, step), step, w)
  {
  }

  lemma StreamStep(s: State, step: Step, w: nat)
    requires Enabled(s, step)
    ensures step.Crash? ==> Apply(s, step).writers == []
    ensures !step.Crash? ==> StreamsOn(s, Apply(s, step), step, w)
  {
    if IsBodyStep(step) {
      BodyStepsStream(s, step, w);
    } else if IsMetaStep(step) {
      MetaStepsStream(s, step, w);
    } else if IsFailureStep(step) {
      FailureStepsStream(s, step, w);
    } else if !step.Crash? {
      ManageStepsStream(s, step, w);
    }
  }

  /** The metadata last reserved for a writer. */
  function MetaBy(steps: seq<Step>, w: nat): Bytes {
    if steps == [] then []
    else
      var before, last := MetaBy(steps[..|steps| - 1], w), steps[|steps| - 1];
      if last.Crash? then [] else if IsReserve(last, w) then last.metaBytes else before
  }

  predicate IsReserve(step: Step, w: nat) {
    step.ReserveMeta? && step.w == w
  }

  lemma {:induction false} WritersHoldTheirMeta(states: seq<State>, steps: seq<Step>, i: nat, w: nat)
    requires IsRun(states, steps) && i < |states|
    ensures if w < |states[i].writers| then states[i].writers[w].metaBytes == MetaBy(steps[..i], w)
            else MetaBy(steps[..i], w) == []
  {
    if i > 0 {
      WritersHoldTheirMeta(states, steps, i - 1, w);
      assert steps[..i][..i - 1] == steps[..i - 1];
      StepOfRun(states, steps, i - 1);
      MetaStep(states[i - 1], steps[i - 1], w);
    }
  }

  ghost predicate MetaOn(s: State, s': State, step: Step, w: nat) {
    && |s'.writers| == |s.writers| + (if step.Claim? then 1 else 0)
    && (step.Claim? ==> s'.writers[|s.writers|].metaBytes == [])
    && (w < |s.writers| ==>
          s'.writers[w].metaBytes == if IsReserve(step, w) then step.metaBytes else s.writers[w].metaBytes)
    && (IsReserve(step, w) ==> w < |s.writers|)
  }

  lemma BodyStepsMeta(s: State, step: Step, w: nat)
    requires CanBody(s, step)
    ensures MetaOn(s, AfterBody(s, step), step, w)
  {
  }

  lemma MetaStepsMeta(s: State, step: Step, w: nat)
    requires CanMeta(s, step)
    ensures MetaOn(s, AfterMeta(s, step), step, w)
  {
  }

  lemma FailureStepsMeta(s: State, step: Step, w: nat)
    requires CanFailure(s, step)
    ensures MetaOn(s, AfterFailure(s, step), step, w)
  {
  }

  lemma ManageStepsMeta(s: State, step: Step, w: nat)
    requires CanManage(s, step) && !step.Crash?
    ensures MetaOn(s, AfterManage(s, step), step, w)
  {
  }

  lemma MetaStep(s: State, step: Step, w: nat)
    requires Enabled(s, step)
    ensures step.Crash? ==> Apply(s, step).writers == []
    ensures !step.Crash? ==> MetaOn(s, Apply(s, step), step, w)
  {
    if IsBodyStep(step) {
      BodyStepsMeta(s, step, w);
    } else if IsMetaStep(step) {
      MetaStepsMeta(s, step, w);
    } else if IsFailureStep(step) {
      FailureStepsMeta(s, step, w);
    } else if !step.Crash? {
      ManageStepsMeta(s, step, w);
    }
  }

  /** A visible meta name implies that its body is there, and the pair holds exactly what was
      published under that id. */
  lemma VisibleMetaIsComplete(states: seq<State>, steps: seq<Step>, i: nat, id: RefId)
    requires IsRun(states, steps) && i < |states| && Meta(id) in states[i].dir
    ensures id in states[i].published
    ensures Holds(states[i], Body(id), states[i].published[id].body)
    ensures Holds(states[i], Meta(id), states[i].published[id].meta)
  {
    RunKeepsInv(states, steps, i);
    assert PairOk(states[i], id);
  }

  ghost predicate CommitOf(steps: seq<Step>, k: nat, w: nat, pair: Pair)
    requires k < |steps|
  {
    steps[k] == LinkMeta(w) && pair == Pair(StreamedBy(steps[..k], w), MetaBy(steps[..k], w))
  }

  /** A pair published during the run holds exactly the bytes streamed to its writer, in order, and the
      metadata reserved for it. */
  lemma PublishedIsTheStream(states: seq<State>, steps: seq<Step>, i: nat, id: RefId)
    requires IsRun(states, steps) && i < |states| && id in states[i].published && id !in states[0].published
    ensures exists k: nat, w: nat :: k < i && CommitOf(steps, k, w, states[i].published[id])
  {
    forall k: nat | k < |steps|
      ensures KeptOrCommitted(states, steps, k, id)
    {
      PublishedBefore(states, steps, k, id);
    }
    TraceToCommit(states, steps, i, id);
  }

  /** What is published after a step was so before, or the step commits it. */
  ghost predicate KeptOrCommitted(states: seq<State>, steps: seq<Step>, k: nat, id: RefId)
    requires k < |steps| < |states|
  {
    id in states[k + 1].published ==>
      if id in states[k].published then states[k + 1].published[id] == states[k].published[id]
      else steps[k].LinkMeta? && CommitOf(steps, k, steps[k].w, states[k + 1].published[id])
  }

  /** Going back from where it is published leads to the commit. */
  lemma TraceToCommit(states: seq<State>, steps: seq<Step>, i: nat, id: RefId)
    requires |states| == |steps| + 1 && i < |states| && id in states[i].published && id !in states[0].published
    requires forall k: nat :: k < |steps| ==> KeptOrCommitted(states, steps, k, id)
    ensures exists k: nat, w: nat :: k < i && CommitOf(steps, k, w, states[i].published[id])
  {
    var k: nat := i - 1;
    while id in states[k].published
      invariant k < i && id in states[k + 1].published && states[k + 1].published[id] == states[i].published[id]
      decreases k
    {
      assert KeptOrCommitted(states, steps, k, id);
      k := k - 1;
    }
    assert KeptOrCommitted(states, steps, k, id);
  }

  lemma PublishedBefore(states: seq<State>, steps: seq<Step>, k: nat, id: RefId)
    requires IsRun(states, steps) && k < |steps|
    ensures KeptOrCommitted(states, steps, k, id)
  {
    RunKeepsInv(states, steps, k);
    StepOfRun(states, steps, k);
    StepKeepsPublished(states[k], steps[k]);
    if id !in states[k].published && id in states[k + 1].published {
      WritersHoldTheirStream(states, steps, k, steps[k].w);
      WritersHoldTheirMeta(states, steps, k, steps[k].w);
    }
  }

  lemma PublishedStays(states: seq<State>, steps: seq<Step>, i: nat, j: nat, id: RefId)
    requires IsRun(states, steps) && i <= j < |states| && id in states[i].published
    ensures id in states[j].published && states[j].published[id] == states[i].published[id]
  {
    for k := i to j
      invariant id in states[k].published && states[k].published[id] == states[i].published[id]
    {
      PublishedStaysOnce(states, steps, k, id);
    }
  }

  lemma PublishedStaysOnce(states: seq<State>, steps: seq<Step>, k: nat, id: RefId)
    requires IsRun(states, steps) && k < |steps| && id in states[k].published
    ensures id in states[k + 1].published && states[k + 1].published[id] == states[k].published[id]
  {
    RunKeepsInv(states, steps, k);
    StepOfRun(states, steps, k);
    StepKeepsPublished(states[k], steps[k]);
  }

  /** What was published stays published, with both files and every byte as they were, through
      every later step, crash and recovery. */
  lemma PublishedForever(states: seq<State>, steps: seq<Step>, i: nat, j: nat, id: RefId)
    requires IsRun(states, steps) && i <= j < |states| && id in states[i].published
    ensures Holds(states[j], Body(id), states[i].published[id].body)
    ensures Holds(states[j], Meta(id), states[i].published[id].meta)
  {
    PublishedStays(states, steps, i, j, id);
    RunKeepsInv(states, steps, j);
    assert PairOk(states[j], id);
  }

  // ---------------------------------------------------------------- no clobbering

  /** The party whose step this is; a file in flight has no party acting. */
  function Actor(s: State, step: Step): Option<Holder> {
    match step
    case Claim(_) => Some(ByWriter(|s.writers|))
    case UnlinkOrphan(_) => if s.retry.Some? then Some(ByGroup(s.retry.value.group)) else None
    case LandLate(_, _) | Settle(_) => None
    case Postpone | BeginRetry | EndRetry(_) | Crash | RecoverInterrupted(_) | Recover(_, _, _) => None
    case _ => Some(ByWriter(step.w))
  }

  /** The name stays where it is, or the acting party holds it and unlinks it. */
  ghost predicate NameKept(s: State, s': State, p: Path, actor: Option<Holder>) {
    if p in s'.dir then p in s.dir && s'.dir[p] == s.dir[p] else p in s.holder && actor == Some(s.holder[p])
  }

  /** At startup the name stays where it is, or it was incomplete. */
  ghost predicate NameKeptAtStartup(s: State, s': State, p: Path) {
    if p in s'.dir then p in s.dir && s'.dir[p] == s.dir[p] else IsIncomplete(s.dir, p)
  }

  lemma GiveUpKeepsNames(s: State, w: nat, unlinked: bool, p: Path)
    requires FilesOk(s) && CanGiveUp(s, w, unlinked) && p in s.dir
    ensures NameKept(s, AfterGiveUp(s, w, unlinked), p, Some(ByWriter(w)))
  {
    assert WriterOk(s, w) && HeldPaths(s.writers[w])[0] == BodyPart(s.writers[w].id);
  }

  lemma BodyStepsKeepNames(s: State, step: Step, p: Path)
    requires FilesOk(s) && CanBody(s, step) && p in s.dir
    ensures NameKept(s, AfterBody(s, step), p, Actor(s, step))
  {
    if step.GiveUp? {
      GiveUpKeepsNames(s, step.w, step.unlinked, p);
    } else {
      OtherBodyStepsKeepNames(s, step, p);
    }
  }

  lemma OtherBodyStepsKeepNames(s: State, step: Step, p: Path)
    requires CanBody(s, step) && !step.GiveUp? && p in s.dir
    ensures p in AfterBody(s, step).dir && AfterBody(s, step).dir[p] == s.dir[p]
  {
  }

  lemma UnlinkAliasKeepsNames(s: State, w: nat, ok: bool, p: Path)
    requires FilesOk(s) && CanUnlinkAlias(s, w, ok) && p in s.dir
    ensures NameKept(s, AfterUnlinkAlias(s, w, ok), p, Some(ByWriter(w)))
  {
    assert WriterOk(s, w) && HeldPaths(s.writers[w])[0] in HeldPaths(s.writers[w]);
  }

  lemma MetaStepsKeepNames(s: State, step: Step, p: Path)
    requires FilesOk(s) && CanMeta(s, step) && p in s.dir
    ensures NameKept(s, AfterMeta(s, step), p, Some(ByWriter(step.w)))
  {
    if step.UnlinkAlias? {
      UnlinkAliasKeepsNames(s, step.w, step.ok, p);
    } else {
      OtherMetaStepsKeepNames(s, step, p);
    }
  }

  lemma OtherMetaStepsKeepNames(s: State, step: Step, p: Path)
    requires CanMeta(s, step) && !step.UnlinkAlias? && p in s.dir
    ensures p in AfterMeta(s, step).dir && AfterMeta(s, step).dir[p] == s.dir[p]
  {
  }

  lemma FailureStepsKeepNames(s: State, step: Step, p: Path)
    requires FilesOk(s) && CanFailure(s, step) && p in s.dir
    ensures NameKept(s, AfterFailure(s, step), p, Actor(s, step))
  {
    if step.UnlinkFailed? {
      assert WriterOk(s, step.w) && HeldPaths(s.writers[step.w])[0] in HeldPaths(s.writers[step.w]);
    }
  }

  lemma GroupStepsKeepNames(s: State, step: Step, p: Path)
    requires FilesOk(s) && CanManage(s, step) && IsGroupStep(step) && p in s.dir
    ensures NameKept(s, AfterManage(s, step), p, Actor(s, step))
  {
    if step.UnlinkOrphan? {
      var r := s.retry.value;
      assert (r.todo + r.kept)[0] == r.todo[0];
    }
  }

  lemma StartupKeepsNames(s: State, step: Step, p: Path)
    requires CanManage(s, step) && IsStartupStep(step) && p in s.dir
    ensures NameKeptAtStartup(s, AfterManage(s, step), p)
  {
  }

  /** No step redirects an existing name to another file, and a name disappears only when the
      acting party holds it or when startup finds it incomplete. */
  lemma NamesAreNeverTakenOver(s: State, step: Step, p: Path)
    requires FilesOk(s) && Enabled(s, step) && p in s.dir
    ensures if IsStartupStep(step) then NameKeptAtStartup(s, Apply(s, step), p)
            else NameKept(s, Apply(s, step), p, Actor(s, step))
  {
    if IsBodyStep(step) {
      BodyStepsKeepNames(s, step, p);
    } else if IsMetaStep(step) {
      MetaStepsKeepNames(s, step, p);
    } else {
      OtherStepsKeepNames(s, step, p);
    }
  }

  lemma OtherStepsKeepNames(s: State, step: Step, p: Path)
    requires FilesOk(s) && Enabled(s, step) && !IsBodyStep(step) && !IsMetaStep(step) && p in s.dir
    ensures if IsStartupStep(step) then NameKeptAtStartup(s, Apply(s, step), p)
            else NameKept(s, Apply(s, step), p, Actor(s, step))
  {
    if IsFailureStep(step) {
      FailureStepsKeepNames(s, step, p);
    } else if IsGroupStep(step) {
      GroupStepsKeepNames(s, step, p);
    } else {
      StartupKeepsNames(s, step, p);
    }
  }

  /** The contents stay, or the file's bytes grow where they may land. */
  ghost predicate ContentKept(s: State, s': State, p: Path, landing: bool) {
    && p in s.dir && s.dir[p] < |s.data| <= |s'.data|
    && (|| s'.data[s.dir[p]] == s.data[s.dir[p]]
        || (landing && s.data[s.dir[p]] <= s'.data[s.dir[p]]))
  }

  lemma LandingGrows(s: State, s': State, w: nat, own: Path, content: Bytes, n: nat, p: Path)
    requires NamesOk(s) && Private(s, w, own) && HoldsSome(s, own, content) && p in s.dir && s.dir[own] !in s.late
    requires |s.data[s.dir[own]]| <= n <= |content| && s' == s.(data := s.data[s.dir[own] := content[..n]])
    ensures ContentKept(s, s', p, p == own)
  {
    LandFrame(s, s', w, own, content[..n]);
  }

  lemma LandKeepsContents(s: State, w: nat, n: nat, p: Path)
    requires FilesOk(s) && LateOk(s) && CanLand(s, w, n) && p in s.dir
    ensures ContentKept(s, AfterLand(s, w, n), p, Private(s, w, p))
  {
    var x := s.writers[w];
    assert WriterOk(s, w) && HeldPaths(x)[0] == BodyPart(x.id);
    LiveFilesAreNotLate(s, BodyPart(x.id));
    LandingGrows(s, AfterLand(s, w, n), w, BodyPart(x.id), x.streamed, n, p);
  }

  lemma LandMetaKeepsContents(s: State, w: nat, n: nat, p: Path)
    requires FilesOk(s) && LateOk(s) && CanLandMeta(s, w, n) && p in s.dir
    ensures ContentKept(s, AfterLandMeta(s, w, n), p, Private(s, w, p))
  {
    var x := s.writers[w];
    assert WriterOk(s, w) && HeldPaths(x)[2] == MetaPart(x.id);
    LiveFilesAreNotLate(s, MetaPart(x.id));
    LandingGrows(s, AfterLandMeta(s, w, n), w, MetaPart(x.id), x.metaBytes, n, p);
  }

  lemma LandLateKeepsContents(s: State, i: nat, n: nat, p: Path)
    requires NamesOk(s) && LateOk(s) && CanLandLate(s, i, n) && p in s.dir
    ensures ContentKept(s, AfterLandLate(s, i, n), p, s.dir[p] == i && LateNameOk(s, p))
  {
  }

  lemma BodyStepsKeepData(s: State, step: Step)
    requires CanBody(s, step) && !step.Land?
    ensures AfterBody(s, step).data == s.data || AfterBody(s, step).data == s.data + [[]]
  {
  }

  lemma MetaStepsKeepData(s: State, step: Step)
    requires CanMeta(s, step) && !step.LandMeta?
    ensures AfterMeta(s, step).data == s.data || AfterMeta(s, step).data == s.data + [[]]
  {
  }

  lemma FailureStepsKeepData(s: State, step: Step)
    requires CanFailure(s, step) && !step.LandLate?
    ensures AfterFailure(s, step).data == s.data
  {
  }

  /** May this step put bytes into the file of this name? Only into a live spill's own unpublished part,
      or late into a leftover that is still to be unlinked. */
  ghost predicate MayLand(s: State, step: Step, p: Path) {
    match step
    case Land(w, _) => Private(s, w, p)
    case LandMeta(w, _) => Private(s, w, p)
    case LandLate(i, _) => p in s.dir && s.dir[p] == i && LateNameOk(s, p)
    case _ => false
  }

  /** No file is ever overwritten: its bytes only grow, and only where they may land. */
  lemma ContentsAreNeverOverwritten(s: State, step: Step, p: Path)
    requires FilesOk(s) && LateOk(s) && Enabled(s, step) && p in s.dir
    ensures ContentKept(s, Apply(s, step), p, MayLand(s, step, p))
  {
    if step.Land? {
      LandKeepsContents(s, step.w, step.n, p);
    } else if step.LandMeta? {
      LandMetaKeepsContents(s, step.w, step.n, p);
    } else if step.LandLate? {
      LandLateKeepsContents(s, step.i, step.n, p);
    } else if IsBodyStep(step) {
      BodyStepsKeepData(s, step);
    } else if IsMetaStep(step) {
      MetaStepsKeepData(s, step);
    } else if IsFailureStep(step) {
      FailureStepsKeepData(s, step);
    } else if IsGroupStep(step) {
      GroupStepsPublishNothing(s, step);
    } else {
      StartupPublishesNothing(s, step);
    }
  }

  // ---------------------------------------------------------------- recovery

  /** After startup recovery every name belongs to a complete pair or is recorded as debt, and the
      complete pairs are exactly the ones that were there before. */
  lemma RecoveryLeavesNothingUntracked(s: State, scan: seq<Path>, kept: seq<Path>, measured: bool)
    requires Inv(s) && CanRecover(s, scan, kept, measured)
    ensures var s' := AfterRecover(s, scan, kept, measured);
            && s'.ready && s'.published == s.published
            && (forall p :: p in s'.dir ==>
                  || (p.id in s.published && (p == Body(p.id) || p == Meta(p.id)))
                  || (|s'.orphans| == 1 && p in s'.orphans[0].paths))
            && (forall id :: id in s.published ==> Keeps(s, s', Body(id)) && Keeps(s, s', Meta(id)))
            && (s'.orphans != [] ==> RetainedBytes(s'.dir, s'.data, s'.orphans[0].paths) <= s'.debt)
            && (s'.orphans == [] ==> s'.debt == 0)
  {
    forall id | id in s.published
      ensures Keeps(s, AfterRecover(s, scan, kept, measured), Body(id))
      ensures Keeps(s, AfterRecover(s, scan, kept, measured), Meta(id))
    {
      assert PairOk(s, id);
    }
    RecoveryChargesLeftovers(s, scan, kept, measured);
  }

  lemma RecoveryChargesLeftovers(s: State, scan: seq<Path>, kept: seq<Path>, measured: bool)
    requires Inv(s) && CanRecover(s, scan, kept, measured)
    ensures var s' := AfterRecover(s, scan, kept, measured);
            if s'.orphans == [] then s'.debt == 0
            else |s'.orphans| == 1 && s'.orphans[0].paths == kept && RetainedBytes(s'.dir, s'.data, kept) <= s'.debt
  {
    var s' := AfterRecover(s, scan, kept, measured);
    if kept != [] {
      RecoverStep(s, scan, kept, measured);
      GroupWithinMost(s', 0);
    }
  }

  // ---------------------------------------------------------------- budget

  /** In every state of every run the books balance, and active bytes and debt together stay within the
      cap, or what the directory already owed at startup, but for the slack. */
  lemma BudgetHolds(states: seq<State>, steps: seq<Step>, i: nat)
    requires IsRun(states, steps) && i < |states|
    ensures states[i].active == Reserved(states[i].writers) && states[i].debt == Debt(states[i])
    ensures states[i].active + states[i].debt <= Max(states[i].cap, states[i].startDebt) + states[i].slack
  {
    RunKeepsInv(states, steps, i);
    OwedWithinExposed(states[i].orphans);
  }

  /** What the live writers and the orphan groups really keep on disk, now or once everything in flight
      has landed: each writer's unpublished files fit its reservation, each group's files fit what it
      could come to, and that exceeds its charge by no more than the slack. */
  lemma DiskUseIsBounded(states: seq<State>, steps: seq<Step>, i: nat)
    requires IsRun(states, steps) && i < |states|
    ensures var s := states[i];
            && (forall w: nat :: w < |s.writers| ==>
                  RetainedBytes(s.dir, Ever(s), HeldPaths(s.writers[w]))
                  <= |s.writers[w].streamed| + |s.writers[w].metaBytes|)
            && (forall k :: 0 <= k < |s.orphans| ==>
                  RetainedBytes(s.dir, s.data, s.orphans[k].paths) <= RetainedBytes(s.dir, Ever(s), s.orphans[k].paths)
                  <= s.orphans[k].most)
            && Exposure(s) <= s.debt + s.slack
  {
    var s := states[i];
    RunKeepsInv(states, steps, i);
    forall w: nat | w < |s.writers|
      ensures RetainedBytes(s.dir, Ever(s), HeldPaths(s.writers[w]))
              <= |s.writers[w].streamed| + |s.writers[w].metaBytes|
    {
      assert WriterOk(s, w);
      LeftoverWithinReservation(s, w, s.writers[w]);
      MeasureByName(s, HeldPaths(s.writers[w]));
    }
    forall k | 0 <= k < |s.orphans|
      ensures RetainedBytes(s.dir, s.data, s.orphans[k].paths) <= RetainedBytes(s.dir, Ever(s), s.orphans[k].paths)
              <= s.orphans[k].most
    {
      GroupWithinMost(s, k);
    }
  }

  lemma GroupWithinMost(s: State, k: nat)
    requires FilesOk(s) && k < |s.orphans|
    ensures RetainedBytes(s.dir, s.data, s.orphans[k].paths) <= RetainedBytes(s.dir, Ever(s), s.orphans[k].paths)
    ensures RetainedBytes(s.dir, Ever(s), s.orphans[k].paths) <= s.orphans[k].most
  {
    assert GroupOk(s, s.orphans[k].group, s.orphans[k].paths, s.orphans[k].most);
    MeasureByName(s, s.orphans[k].paths);
    RetainedWithinEver(s, s.orphans[k].paths);
  }

  lemma SettledRunIsExact(states: seq<State>, steps: seq<Step>, i: nat)
    requires IsRun(states, steps) && i < |states|
    requires forall k :: 0 <= k < i ==> !MeasuresInFlight(states[k], steps[k])
    ensures Exact(states[i])
  {
    for k := 0 to i
      invariant Exact(states[k])
    {
      SettledStepIsExact(states, steps, k);
    }
  }

  lemma SettledStepIsExact(states: seq<State>, steps: seq<Step>, k: nat)
    requires IsRun(states, steps) && k < |steps| && Exact(states[k]) && !MeasuresInFlight(states[k], steps[k])
    ensures Exact(states[k + 1])
  {
    RunKeepsInv(states, steps, k);
    StepOfRun(states, steps, k);
    StepKeepsExact(states[k], steps[k]);
  }

  /** As long as no leftovers are measured while bytes are in flight to them, active bytes and debt stay
      within the cap or the startup debt, and every group retains, now and ever, at most its charge. */
  lemma SettledRunKeepsTheCap(states: seq<State>, steps: seq<Step>, i: nat)
    requires IsRun(states, steps) && i < |states|
    requires forall k :: 0 <= k < i ==> !MeasuresInFlight(states[k], steps[k])
    ensures var s := states[i];
            && s.active + s.debt <= Max(s.cap, s.startDebt)
            && forall k :: 0 <= k < |s.orphans| ==>
                 RetainedBytes(s.dir, s.data, s.orphans[k].paths) <= RetainedBytes(s.dir, Ever(s), s.orphans[k].paths)
                 <= s.orphans[k].bytes
  {
    SettledRunIsExact(states, steps, i);
    BudgetHolds(states, steps, i);
    DiskUseIsBounded(states, steps, i);
    RunKeepsInv(states, steps, i);
    ExactGroups(states[i]);
  }
}
