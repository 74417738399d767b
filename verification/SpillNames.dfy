/**
 The names of the refs directory: which step makes or removes which name, what a commit and a failed
 spill leave behind, and that no name is ever forgotten.
 */
module SpillNames {
  import opened Common
  import opened SpillFiles
  import opened SpillStore
  import opened SpillInvariant
  import opened SpillLate
  import opened SpillAccounts
  import opened SpillTheorems

  // ---------------------------------------------------------------- the directory, step by step

  /** What a committed or failing writer still has to unlink. */
  function Todo(s: State, w: nat): seq<Path> {
    if w >= |s.writers| then []
    else match s.writers[w].stage
         case Committed(todo) => todo
         case Failing(todo, _) => todo
         case _ => []
  }

  function First(todo: seq<Path>): set<Path> {
    if todo == [] then {} else {todo[0]}
  }

  /** The part a writer claimed. */
  function PartOf(s: State, w: nat): set<Path> {
    if w < |s.writers| then {BodyPart(s.writers[w].id)} else {}
  }

  function RetryTodo(s: State): seq<Path> {
    if s.retry.Some? then s.retry.value.todo else []
  }

  /** The names a step unlinks: every call that succeeds takes away the name it was made for. */
  function Unlinked(s: State, step: Step): set<Path> {
    match step
    case GiveUp(w, unlinked) => if unlinked then PartOf(s, w) else {}
    case UnlinkAlias(w, ok) => if ok then First(Todo(s, w)) else {}
    case UnlinkFailed(w, ok) => if ok then First(Todo(s, w)) else {}
    case UnlinkOrphan(ok) => if ok then First(RetryTodo(s)) else {}
    case RecoverInterrupted(removed) => removed
    case Recover(scan, kept, _) => set p | p in scan && p !in kept
    case _ => {}
  }

  /** Another name for the file of a part. */
  function Linking(s: State, name: Path, part: Path): map<Path, nat> {
    if part in s.dir then map[name := s.dir[part]] else map[]
  }

  /** The names a step makes: a part is a new file, a final name is another name of its part. */
  function Created(s: State, step: Step): map<Path, nat> {
    match step
    case Claim(id) => map[BodyPart(id) := |s.data|]
    case OpenMeta(w) => if w < |s.writers| then map[MetaPart(s.writers[w].id) := |s.data|] else map[]
    case LinkBody(w) =>
      if w < |s.writers| then Linking(s, Body(s.writers[w].id), BodyPart(s.writers[w].id)) else map[]
    case LinkMeta(w) =>
      if w < |s.writers| then Linking(s, Meta(s.writers[w].id), MetaPart(s.writers[w].id)) else map[]
    case _ => map[]
  }

  lemma PartIsThere(s: State, w: nat)
    requires FilesOk(s) && (CanLinkBody(s, w) || CanLinkMeta(s, w))
    ensures var x := s.writers[w];
            && BodyPart(x.id) in s.dir && s.dir[BodyPart(x.id)] == x.body
            && (CanLinkMeta(s, w) ==> MetaPart(x.id) in s.dir && s.dir[MetaPart(x.id)] == x.meta)
  {
    var x := s.writers[w];
    assert WriterOk(s, w) && HeldPaths(x)[0] == BodyPart(x.id);
    if CanLinkMeta(s, w) {
      assert HeldPaths(x)[2] == MetaPart(x.id);
    }
  }

  /** The names before a step and after it differ by these. */
  ghost predicate Differs(s: State, s': State, gone: set<Path>, made: map<Path, nat>) {
    s'.dir == (s.dir - gone) + made
  }

  lemma SameDir(s: State, s': State)
    requires s'.dir == s.dir
    ensures Differs(s, s', {}, map[])
  {
  }

  lemma QuietBodySteps(s: State, step: Step)
    requires CanBody(s, step) && !step.Claim? && !step.LinkBody? && !step.GiveUp?
    ensures AfterBody(s, step).dir == s.dir
  {
  }

  lemma BodyStepsChangeDir(s: State, step: Step)
    requires FilesOk(s) && CanBody(s, step)
    ensures Differs(s, AfterBody(s, step), Unlinked(s, step), Created(s, step))
  {
    if step.Claim? {
      ClaimChangesDir(s, step.id);
    } else if step.LinkBody? {
      LinkBodyChangesDir(s, step.w);
    } else if step.GiveUp? {
      GiveUpChangesDir(s, step.w, step.unlinked);
    } else {
      QuietBodySteps(s, step);
      SameDir(s, AfterBody(s, step));
    }
  }

  lemma ClaimChangesDir(s: State, id: RefId)
    requires CanClaim(s, id)
    ensures Differs(s, AfterClaim(s, id), {}, Created(s, Claim(id)))
  {
  }

  lemma GiveUpChangesDir(s: State, w: nat, unlinked: bool)
    requires CanGiveUp(s, w, unlinked)
    ensures Differs(s, AfterGiveUp(s, w, unlinked), Unlinked(s, GiveUp(w, unlinked)), map[])
  {
  }

  lemma LinkBodyChangesDir(s: State, w: nat)
    requires FilesOk(s) && CanLinkBody(s, w)
    ensures Differs(s, AfterLinkBody(s, w), {}, Created(s, LinkBody(w)))
  {
    PartIsThere(s, w);
  }

  lemma LinkMetaChangesDir(s: State, w: nat)
    requires FilesOk(s) && CanLinkMeta(s, w)
    ensures Differs(s, AfterLinkMeta(s, w), {}, Created(s, LinkMeta(w)))
  {
    PartIsThere(s, w);
  }

  lemma OpenMetaChangesDir(s: State, w: nat)
    requires FilesOk(s) && CanOpenMeta(s, w)
    ensures Differs(s, AfterOpenMeta(s, w), {}, Created(s, OpenMeta(w)))
  {
  }

  lemma UnlinkAliasChangesDir(s: State, w: nat, ok: bool)
    requires CanUnlinkAlias(s, w, ok)
    ensures Differs(s, AfterUnlinkAlias(s, w, ok), Unlinked(s, UnlinkAlias(w, ok)), map[])
  {
  }

  lemma QuietMetaSteps(s: State, step: Step)
    requires CanMeta(s, step) && !step.OpenMeta? && !step.LinkMeta? && !step.UnlinkAlias?
    ensures AfterMeta(s, step).dir == s.dir
  {
  }

  lemma MetaStepsChangeDir(s: State, step: Step)
    requires FilesOk(s) && CanMeta(s, step)
    ensures Differs(s, AfterMeta(s, step), Unlinked(s, step), Created(s, step))
  {
    if step.OpenMeta? {
      OpenMetaChangesDir(s, step.w);
    } else if step.LinkMeta? {
      LinkMetaChangesDir(s, step.w);
    } else if step.UnlinkAlias? {
      UnlinkAliasChangesDir(s, step.w, step.ok);
    } else {
      QuietMetaSteps(s, step);
      SameDir(s, AfterMeta(s, step));
    }
  }

  lemma UnlinkFailedChangesDir(s: State, w: nat, ok: bool)
    requires CanUnlinkFailed(s, w, ok)
    ensures Differs(s, AfterUnlinkFailed(s, w, ok), Unlinked(s, UnlinkFailed(w, ok)), map[])
  {
  }

  lemma QuietFailureSteps(s: State, step: Step)
    requires CanFailure(s, step) && !step.UnlinkFailed?
    ensures AfterFailure(s, step).dir == s.dir
  {
  }

  lemma FailureStepsChangeDir(s: State, step: Step)
    requires CanFailure(s, step)
    ensures Differs(s, AfterFailure(s, step), Unlinked(s, step), Created(s, step))
  {
    if step.UnlinkFailed? {
      UnlinkFailedChangesDir(s, step.w, step.ok);
    } else {
      QuietFailureSteps(s, step);
      SameDir(s, AfterFailure(s, step));
    }
  }

  lemma UnlinkOrphanChangesDir(s: State, ok: bool)
    requires CanUnlinkOrphan(s, ok)
    ensures Differs(s, AfterUnlinkOrphan(s, ok), Unlinked(s, UnlinkOrphan(ok)), map[])
  {
  }

  lemma QuietManageSteps(s: State, step: Step)
    requires CanManage(s, step) && !step.UnlinkOrphan? && !step.Recover? && !step.RecoverInterrupted?
    ensures AfterManage(s, step).dir == s.dir
  {
  }

  lemma RecoveryChangesDir(s: State, step: Step)
    requires CanManage(s, step) && (step.Recover? || step.RecoverInterrupted?)
    ensures Differs(s, AfterManage(s, step), Unlinked(s, step), map[])
  {
  }

  lemma ManageStepsChangeDir(s: State, step: Step)
    requires CanManage(s, step)
    ensures Differs(s, AfterManage(s, step), Unlinked(s, step), Created(s, step))
  {
    if step.UnlinkOrphan? {
      UnlinkOrphanChangesDir(s, step.ok);
    } else if step.Recover? || step.RecoverInterrupted? {
      RecoveryChangesDir(s, step);
    } else {
      QuietManageSteps(s, step);
      SameDir(s, AfterManage(s, step));
    }
  }

  /** Every step changes the directory by exactly the names it makes and the names it unlinks. */
  lemma DirectoryChanges(s: State, step: Step)
    requires FilesOk(s) && Enabled(s, step)
    ensures Apply(s, step).dir == (s.dir - Unlinked(s, step)) + Created(s, step)
  {
    if IsBodyStep(step) {
      BodyStepsChangeDir(s, step);
    } else if IsMetaStep(step) {
      MetaStepsChangeDir(s, step);
    } else if IsFailureStep(step) {
      FailureStepsChangeDir(s, step);
    } else {
      ManageStepsChangeDir(s, step);
    }
  }

  /** A name whose unlink succeeded is gone from the directory. */
  lemma UnlinkRemovesTheName(s: State, step: Step, p: Path)
    requires FilesOk(s) && Enabled(s, step) && p in Unlinked(s, step)
    ensures p !in Apply(s, step).dir
  {
    DirectoryChanges(s, step);
  }

  // ---------------------------------------------------------------- what a finished spill leaves

  /** The party that acts is this writer. */
  predicate IsOf(step: Step, w: nat) {
    match step
    case Claim(_) => false
    case LandLate(_, _) | Settle(_) | Postpone | BeginRetry | UnlinkOrphan(_) | EndRetry(_) => false
    case Crash | RecoverInterrupted(_) | Recover(_, _, _) => false
    case _ => step.w == w
  }

  /** Committed or failed: from here on a writer only unlinks and settles. */
  predicate IsEnding(stage: Stage) {
    stage.Committed? || stage.Failing? || stage.Leaving? || stage.Gone?
  }

  /**
   Whatever bears the id is still to be unlinked by the writer, or was made after the first `since` files
   by somebody else, or is the pair.
   */
  ghost predicate Swept(s: State, w: nat, id: RefId, since: nat, pair: bool) {
    && w < |s.writers| && s.writers[w].id == id && IsEnding(s.writers[w].stage) && since <= |s.data|
    && (pair ==> id in s.published)
    && forall p :: p in s.dir && p.id == id ==>
         p in Todo(s, w) || s.dir[p] >= since || (pair && (p == Body(id) || p == Meta(id)))
  }

  /** No unlink of the writer is refused, and the process does not die. */
  predicate IsSmooth(step: Step, w: nat) {
    step != UnlinkAlias(w, false) && step != UnlinkFailed(w, false) && !step.Crash?
  }

  lemma BodyStepsLeaveWriter(s: State, step: Step, w: nat)
    requires CanBody(s, step) && w < |s.writers| && !IsOf(step, w)
    ensures w < |AfterBody(s, step).writers| && AfterBody(s, step).writers[w] == s.writers[w]
  {
  }

  lemma MetaStepsLeaveWriter(s: State, step: Step, w: nat)
    requires CanMeta(s, step) && w < |s.writers| && !IsOf(step, w)
    ensures w < |AfterMeta(s, step).writers| && AfterMeta(s, step).writers[w] == s.writers[w]
  {
  }

  lemma FailureStepsLeaveWriter(s: State, step: Step, w: nat)
    requires CanFailure(s, step) && w < |s.writers| && !IsOf(step, w)
    ensures w < |AfterFailure(s, step).writers| && AfterFailure(s, step).writers[w] == s.writers[w]
  {
    if step.FinishFailed? {
      FinishFailedLeavesWriter(s, step.w, w);
    }
  }

  lemma FinishFailedLeavesWriter(s: State, v: nat, w: nat)
    requires CanFinishFailed(s, v) && w < |s.writers| && v != w
    ensures w < |AfterFinishFailed(s, v).writers| && AfterFinishFailed(s, v).writers[w] == s.writers[w]
  {
  }

  lemma ManageStepsLeaveWriter(s: State, step: Step, w: nat)
    requires CanManage(s, step) && w < |s.writers| && !step.Crash?
    ensures w < |AfterManage(s, step).writers| && AfterManage(s, step).writers[w] == s.writers[w]
  {
  }

  /** A step of somebody else leaves a writer as it is. */
  lemma OthersLeaveWriter(s: State, step: Step, w: nat)
    requires Enabled(s, step) && w < |s.writers| && !IsOf(step, w) && !step.Crash?
    ensures w < |Apply(s, step).writers| && Apply(s, step).writers[w] == s.writers[w]
  {
    if IsBodyStep(step) {
      BodyStepsLeaveWriter(s, step, w);
    } else if IsMetaStep(step) {
      MetaStepsLeaveWriter(s, step, w);
    } else if IsFailureStep(step) {
      FailureStepsLeaveWriter(s, step, w);
    } else {
      ManageStepsLeaveWriter(s, step, w);
    }
  }

  /** Of an ending writer only four kinds of step are left. */
  lemma EndingSteps(s: State, step: Step, w: nat)
    requires Enabled(s, step) && w < |s.writers| && IsEnding(s.writers[w].stage) && IsOf(step, w)
    ensures step.UnlinkAlias? || step.FinishSpill? || step.UnlinkFailed? || step.Measure? || step.FinishFailed?
  {
  }

  lemma OwnStepKeepsEnding(s: State, step: Step, w: nat)
    requires Enabled(s, step) && w < |s.writers| && IsEnding(s.writers[w].stage) && IsOf(step, w) && IsSmooth(step, w)
    ensures var s' := Apply(s, step);
            && w < |s'.writers| && s'.writers[w].id == s.writers[w].id && IsEnding(s'.writers[w].stage)
            && s'.data == s.data && s'.published == s.published
            && forall p :: p in Todo(s, w) ==> p in Todo(s', w) || p in Unlinked(s, step)
  {
    EndingSteps(s, step, w);
    match step
    case UnlinkAlias(_, _) => assert Apply(s, step) == AfterUnlinkAlias(s, w, true);
    case UnlinkFailed(_, _) => assert Apply(s, step) == AfterUnlinkFailed(s, w, true);
    case FinishSpill(_) => assert Apply(s, step) == AfterFinishSpill(s, w);
    case Measure(_, measured) => assert Apply(s, step) == AfterMeasure(s, w, measured);
    case FinishFailed(_) => assert Apply(s, step) == AfterFinishFailed(s, w);
  }

  lemma OwnStepKeepsSwept(s: State, step: Step, w: nat, id: RefId, since: nat, pair: bool)
    requires FilesOk(s) && Enabled(s, step) && Swept(s, w, id, since, pair) && IsOf(step, w) && IsSmooth(step, w)
    ensures Swept(Apply(s, step), w, id, since, pair)
  {
    EndingSteps(s, step, w);
    OwnStepKeepsEnding(s, step, w);
    DirectoryChanges(s, step);
    assert Created(s, step) == map[];
  }

  /** A name made by somebody else is of a file that is younger, or of a part that is. */
  lemma OthersMakeYoungerNames(s: State, step: Step, w: nat, id: RefId, since: nat, pair: bool, p: Path)
    requires FilesOk(s) && Enabled(s, step) && Swept(s, w, id, since, pair) && !IsOf(step, w)
    requires p in Created(s, step) && p.id == id
    ensures Created(s, step)[p] >= since
  {
    if step.LinkBody? || step.LinkMeta? {
      var part := if step.LinkBody? then BodyPart(id) else MetaPart(id);
      PartIsThere(s, step.w);
      assert WriterOk(s, step.w) && WriterOk(s, w);
      var held := HeldPaths(s.writers[step.w]);
      assert held[0] == BodyPart(id) && (step.LinkMeta? ==> held[2] == MetaPart(id));
      assert part in held && s.holder[part] == ByWriter(step.w);
      TodoIsHeld(s, w, part);
    }
  }

  lemma TodoIsHeld(s: State, w: nat, p: Path)
    requires w < |s.writers| && WriterOk(s, w)
    ensures p in Todo(s, w) ==> p in s.holder && s.holder[p] == ByWriter(w)
  {
    assert p in Todo(s, w) ==> p in HeldPaths(s.writers[w]);
  }

  lemma DataGrows(s: State, step: Step)
    requires FilesOk(s) && LateOk(s) && Enabled(s, step)
    ensures |s.data| <= |Apply(s, step).data|
  {
    if step.Land? || step.LandMeta? || step.LandLate? {
    } else if IsBodyStep(step) {
      BodyStepsKeepData(s, step);
    } else if IsMetaStep(step) {
      MetaStepsKeepData(s, step);
    } else if IsFailureStep(step) {
      FailureStepsKeepData(s, step);
    } else if IsGroupStep(step) {
      GroupStepsPublishNothing(s, step);
    } else {
      StartupPublishesNothing(s, step);
    }
  }

  lemma OtherStepKeepsSwept(s: State, step: Step, w: nat, id: RefId, since: nat, pair: bool)
    requires FilesOk(s) && LateOk(s) && Enabled(s, step) && Swept(s, w, id, since, pair)
    requires !IsOf(step, w) && !step.Crash?
    ensures Swept(Apply(s, step), w, id, since, pair)
  {
    var s' := Apply(s, step);
    OthersLeaveWriter(s, step, w);
    DataGrows(s, step);
    StepKeepsPublished(s, step);
    DirectoryChanges(s, step);
    forall p | p in s'.dir && p.id == id
      ensures p in Todo(s', w) || s'.dir[p] >= since || (pair && (p == Body(id) || p == Meta(id)))
    {
      if p in Created(s, step) {
        OthersMakeYoungerNames(s, step, w, id, since, pair, p);
      }
    }
  }

  /** The step of the run keeps what is said about the writer's names. */
  ghost predicate KeepsSwept(states: seq<State>, n: nat, w: nat, id: RefId, since: nat, pair: bool)
    requires n + 1 < |states|
  {
    Swept(states[n], w, id, since, pair) ==> Swept(states[n + 1], w, id, since, pair)
  }

  lemma {:induction false} SweptFrom(states: seq<State>, k: nat, j: nat, w: nat, id: RefId, since: nat, pair: bool)
    requires k <= j < |states| && Swept(states[k], w, id, since, pair)
    requires forall n: nat :: k <= n < j ==> KeepsSwept(states, n, w, id, since, pair)
    ensures Swept(states[j], w, id, since, pair)
    decreases j
  {
    if k < j {
      SweptFrom(states, k, j - 1, w, id, since, pair);
      assert KeepsSwept(states, j - 1, w, id, since, pair);
    }
  }

  lemma RunKeepsSwept(states: seq<State>, steps: seq<Step>, k: nat, j: nat, w: nat, id: RefId, since: nat, pair: bool)
    requires IsRun(states, steps) && k <= j < |states| && Swept(states[k], w, id, since, pair)
    requires forall n :: k <= n < j ==> IsSmooth(steps[n], w)
    ensures Swept(states[j], w, id, since, pair)
  {
    forall n: nat | k <= n < j
      ensures KeepsSwept(states, n, w, id, since, pair)
    {
      if Swept(states[n], w, id, since, pair) {
        StepOfRunKeepsSwept(states, steps, n, w, id, since, pair);
      }
    }
    SweptFrom(states, k, j, w, id, since, pair);
  }

  lemma StepOfRunKeepsSwept(states: seq<State>, steps: seq<Step>, n: nat, w: nat, id: RefId, since: nat, pair: bool)
    requires IsRun(states, steps) && n < |steps| && Swept(states[n], w, id, since, pair) && IsSmooth(steps[n], w)
    ensures Swept(states[n + 1], w, id, since, pair)
  {
    RunKeepsInv(states, steps, n);
    StepOfRun(states, steps, n);
    if IsOf(steps[n], w) {
      OwnStepKeepsSwept(states[n], steps[n], w, id, since, pair);
    } else {
      OtherStepKeepsSwept(states[n], steps[n], w, id, since, pair);
    }
  }

  lemma CommitStartsSwept(s: State, w: nat)
    requires FilesOk(s) && CanLinkMeta(s, w)
    ensures Swept(AfterLinkMeta(s, w), w, s.writers[w].id, |s.data|, true)
  {
    var id := s.writers[w].id;
    forall p | p in AfterLinkMeta(s, w).dir && p.id == id
      ensures p in [BodyPart(id), MetaPart(id)] || p == Body(id) || p == Meta(id)
    {
      match p
      case BodyPart(_) => assert p == [BodyPart(id), MetaPart(id)][0];
      case MetaPart(_) => assert p == [BodyPart(id), MetaPart(id)][1];
      case _ =>
    }
  }

  /**
   Once a commit's aliases are unlinked without a refusal, the pair is all that is left of it: any other
   name of that id is of a file somebody else made later.
   */
  lemma CommitLeavesThePair(states: seq<State>, steps: seq<Step>, k: nat, j: nat, w: nat, p: Path)
    requires IsRun(states, steps) && k < j < |states| && steps[k] == LinkMeta(w) && w < |states[k].writers|
    requires forall n :: k < n < j ==> IsSmooth(steps[n], w)
    requires w < |states[j].writers| ==> Todo(states[j], w) == []
    ensures var id := states[k].writers[w].id;
            && Holds(states[j], Body(id), states[k].writers[w].streamed)
            && Holds(states[j], Meta(id), states[k].writers[w].metaBytes)
            && (p in states[j].dir && p.id == id ==>
                  p == Body(id) || p == Meta(id) || states[j].dir[p] >= |states[k].data|)
  {
    CommitSweeps(states, steps, k, w);
    RunKeepsSwept(states, steps, k + 1, j, w, states[k].writers[w].id, |states[k].data|, true);
    PublishedForever(states, steps, k + 1, j, states[k].writers[w].id);
  }

  lemma CommitSweeps(states: seq<State>, steps: seq<Step>, k: nat, w: nat)
    requires IsRun(states, steps) && k < |steps| && steps[k] == LinkMeta(w) && w < |states[k].writers|
    ensures Swept(states[k + 1], w, states[k].writers[w].id, |states[k].data|, true)
    ensures var x := states[k].writers[w];
            x.id in states[k + 1].published && states[k + 1].published[x.id] == Pair(x.streamed, x.metaBytes)
  {
    RunKeepsInv(states, steps, k);
    StepOfRun(states, steps, k);
    IsLinkMeta(states[k], w, states[k + 1]);
    CommitStartsSwept(states[k], w);
  }

  lemma IsLinkMeta(s: State, w: nat, s': State)
    requires Enabled(s, LinkMeta(w)) && s' == Apply(s, LinkMeta(w))
    ensures CanLinkMeta(s, w) && s' == AfterLinkMeta(s, w)
  {
  }

  lemma FailureStartsSwept(s: State, w: nat)
    requires FilesOk(s) && CanFail(s, w)
    ensures Swept(AfterFail(s, w), w, s.writers[w].id, |s.data|, false)
  {
    var x := s.writers[w];
    assert WriterOk(s, w);
    forall p | p in s.dir && p.id == x.id
      ensures p in CleanupPaths(x)
    {
      NamesOfWriter(s, w, p);
    }
  }

  /** While a spill is under way its cleanup covers every name of its id. */
  lemma NamesOfWriter(s: State, w: nat, p: Path)
    requires w < |s.writers| && WriterOk(s, w) && CleanupPaths(s.writers[w]) != []
    requires p in s.dir && p.id == s.writers[w].id
    ensures p in CleanupPaths(s.writers[w])
  {
    var x := s.writers[w];
    var paths := CleanupPaths(x);
    assert paths[0] == BodyPart(x.id);
    assert |paths| > 1 ==> paths[1] == Body(x.id);
    assert |paths| > 2 ==> paths[2] == MetaPart(x.id);
    match p
    case BodyPart(_) => assert p == paths[0];
    case Body(_) => assert p == paths[1];
    case MetaPart(_) => assert p == paths[2];
    case Meta(_) =>
  }

  /** A failed spill whose unlinks all succeed leaves nothing: any name of that id was made later. */
  lemma FailedSpillLeavesNothing(states: seq<State>, steps: seq<Step>, k: nat, j: nat, w: nat, p: Path)
    requires IsRun(states, steps) && k < j < |states| && steps[k] == Fail(w) && w < |states[k].writers|
    requires forall n :: k < n < j ==> IsSmooth(steps[n], w)
    requires w < |states[j].writers| ==> Todo(states[j], w) == []
    requires p in states[j].dir && p.id == states[k].writers[w].id
    ensures states[j].dir[p] >= |states[k].data|
  {
    FailureSweeps(states, steps, k, w);
    RunKeepsSwept(states, steps, k + 1, j, w, states[k].writers[w].id, |states[k].data|, false);
  }

  lemma FailureSweeps(states: seq<State>, steps: seq<Step>, k: nat, w: nat)
    requires IsRun(states, steps) && k < |steps| && steps[k] == Fail(w) && w < |states[k].writers|
    ensures Swept(states[k + 1], w, states[k].writers[w].id, |states[k].data|, false)
  {
    RunKeepsInv(states, steps, k);
    StepOfRun(states, steps, k);
    IsFail(states[k], w, states[k + 1]);
    FailureStartsSwept(states[k], w);
  }

  lemma IsFail(s: State, w: nat, s': State)
    requires Enabled(s, Fail(w)) && s' == Apply(s, Fail(w))
    ensures CanFail(s, w) && s' == AfterFail(s, w)
  {
  }

  // ---------------------------------------------------------------- no name is forgotten

  /** The name is of a published pair, or a live writer or an orphan group has it on its list. */
  ghost predicate Tracked(s: State, p: Path) {
    || (p.id in s.published && (p == Body(p.id) || p == Meta(p.id)))
    || (exists w: nat :: w < |s.writers| && p in HeldPaths(s.writers[w]))
    || IsListed(s, p)
  }

  /** The step gives the name up after an unlink of it was refused. */
  predicate Refused(s: State, step: Step, p: Path) {
    (step.UnlinkAlias? && !step.ok && p in First(Todo(s, step.w)))
    || (step.GiveUp? && !step.unlinked && p in PartOf(s, step.w))
  }

  lemma TrackedByWriter(s: State, w: nat, p: Path)
    requires w < |s.writers| && p in HeldPaths(s.writers[w])
    ensures Tracked(s, p)
  {
  }

  lemma TrackedByGroup(s: State, k: nat, p: Path)
    requires k < |s.orphans| && p in s.orphans[k].paths
    ensures Tracked(s, p)
  {
  }

  /** A writer passes its names on, unless it unlinks them or publishes them. */
  lemma WriterPassesOn(s: State, step: Step, w: nat, p: Path)
    requires FilesOk(s) && Enabled(s, step) && w < |s.writers| && p in HeldPaths(s.writers[w]) && IsOf(step, w)
    requires p !in Unlinked(s, step) && !Refused(s, step, p)
    ensures Tracked(Apply(s, step), p)
  {
    var x, s' := s.writers[w], Apply(s, step);
    if step.FinishFailed? {
      assert s' == AfterFinishFailed(s, w);
      assert s'.orphans[|s'.orphans| - 1].paths == x.stage.kept;
      TrackedByGroup(s', |s'.orphans| - 1, p);
    } else if step.LinkMeta? && p == Body(x.id) {
    } else {
      OwnNamesStay(s, step, w, p);
      TrackedByWriter(s', w, p);
    }
  }

  lemma OwnNamesStay(s: State, step: Step, w: nat, p: Path)
    requires FilesOk(s) && Enabled(s, step) && w < |s.writers| && p in HeldPaths(s.writers[w]) && IsOf(step, w)
    requires p !in Unlinked(s, step) && !Refused(s, step, p) && !step.FinishFailed?
    requires step.LinkMeta? ==> p != Body(s.writers[w].id)
    ensures w < |Apply(s, step).writers| && p in HeldPaths(Apply(s, step).writers[w])
  {
    if IsBodyStep(step) {
      BodyNamesStay(s, step, w, p);
    } else if IsMetaStep(step) {
      MetaNamesStay(s, step, w, p);
    } else {
      FailureNamesStay(s, step, w, p);
    }
  }

  lemma BodyNamesStay(s: State, step: Step, w: nat, p: Path)
    requires CanBody(s, step) && w < |s.writers| && p in HeldPaths(s.writers[w]) && IsOf(step, w)
    requires p !in Unlinked(s, step) && !Refused(s, step, p)
    ensures w < |AfterBody(s, step).writers| && p in HeldPaths(AfterBody(s, step).writers[w])
  {
  }

  lemma MetaNamesStay(s: State, step: Step, w: nat, p: Path)
    requires CanMeta(s, step) && w < |s.writers| && p in HeldPaths(s.writers[w]) && IsOf(step, w)
    requires p !in Unlinked(s, step) && !Refused(s, step, p)
    requires step.LinkMeta? ==> p != Body(s.writers[w].id)
    ensures w < |AfterMeta(s, step).writers| && p in HeldPaths(AfterMeta(s, step).writers[w])
  {
    if step.UnlinkAlias? {
      UnlinkAliasPassesOn(s, w, step.ok, p);
    } else if step.LinkMeta? {
      LinkMetaPassesOn(s, w, p);
    } else {
      QuietMetaNamesStay(s, step, w, p);
    }
  }

  lemma UnlinkAliasPassesOn(s: State, w: nat, ok: bool, p: Path)
    requires CanUnlinkAlias(s, w, ok) && p in HeldPaths(s.writers[w]) && p != s.writers[w].stage.todo[0]
    ensures p in HeldPaths(AfterUnlinkAlias(s, w, ok).writers[w])
  {
  }

  lemma LinkMetaPassesOn(s: State, w: nat, p: Path)
    requires CanLinkMeta(s, w) && p in HeldPaths(s.writers[w]) && p != Body(s.writers[w].id)
    ensures p in HeldPaths(AfterLinkMeta(s, w).writers[w])
  {
    var id := s.writers[w].id;
    var names := [BodyPart(id), MetaPart(id)];
    assert names[0] == BodyPart(id) && names[1] == MetaPart(id);
  }

  lemma QuietMetaNamesStay(s: State, step: Step, w: nat, p: Path)
    requires CanMeta(s, step) && w < |s.writers| && p in HeldPaths(s.writers[w]) && IsOf(step, w)
    requires !step.LinkMeta? && !step.UnlinkAlias?
    ensures w < |AfterMeta(s, step).writers| && p in HeldPaths(AfterMeta(s, step).writers[w])
  {
  }

  lemma FailureNamesStay(s: State, step: Step, w: nat, p: Path)
    requires CanFailure(s, step) && w < |s.writers| && p in HeldPaths(s.writers[w]) && IsOf(step, w)
    requires p !in Unlinked(s, step) && !step.FinishFailed?
    ensures w < |AfterFailure(s, step).writers| && p in HeldPaths(AfterFailure(s, step).writers[w])
  {
    match step
    case Fail(_) => assert AfterFailure(s, step) == AfterFail(s, w);
    case UnlinkFailed(_, ok) => UnlinkFailedPassesOn(s, w, ok, p);
    case Measure(_, measured) => MeasurePassesOn(s, w, measured, p);
  }

  lemma UnlinkFailedPassesOn(s: State, w: nat, ok: bool, p: Path)
    requires CanUnlinkFailed(s, w, ok) && p in HeldPaths(s.writers[w])
    requires ok ==> p != s.writers[w].stage.todo[0]
    ensures p in HeldPaths(AfterUnlinkFailed(s, w, ok).writers[w])
  {
  }

  lemma MeasurePassesOn(s: State, w: nat, measured: bool, p: Path)
    requires CanMeasure(s, w, measured) && p in HeldPaths(s.writers[w])
    ensures p in HeldPaths(AfterMeasure(s, w, measured).writers[w])
  {
    assert p in s.writers[w].stage.kept;
  }

  /** The name is on the list of an orphan group, or of the retry under way. */
  ghost predicate IsListed(s: State, p: Path) {
    || (exists k: nat :: k < |s.orphans| && p in s.orphans[k].paths)
    || (s.retry.Some? && p in s.retry.value.todo + s.retry.value.kept)
  }

  lemma PostponePassesOn(s: State, p: Path)
    requires CanPostpone(s) && IsListed(s, p)
    ensures IsListed(AfterPostpone(s), p)
  {
    var k: nat :| k < |s.orphans| && p in s.orphans[k].paths;
    assert p in AfterPostpone(s).orphans[if k == 0 then |s.orphans| - 1 else k - 1].paths;
  }

  lemma BeginRetryPassesOn(s: State, p: Path)
    requires CanBeginRetry(s) && IsListed(s, p)
    ensures IsListed(AfterBeginRetry(s), p)
  {
    var k: nat :| k < |s.orphans| && p in s.orphans[k].paths;
    if k > 0 {
      assert p in AfterBeginRetry(s).orphans[k - 1].paths;
    }
  }

  lemma UnlinkOrphanPassesOn(s: State, ok: bool, p: Path)
    requires CanUnlinkOrphan(s, ok) && IsListed(s, p) && (ok ==> p != s.retry.value.todo[0])
    ensures IsListed(AfterUnlinkOrphan(s, ok), p)
  {
    if k: nat :| k < |s.orphans| && p in s.orphans[k].paths {
      assert p in AfterUnlinkOrphan(s, ok).orphans[k].paths;
    }
  }

  /** Groups and the retry under way pass their names on to each other. */
  lemma GroupsPassOn(s: State, step: Step, p: Path)
    requires CanManage(s, step) && IsGroupStep(step) && p !in Unlinked(s, step) && IsListed(s, p)
    ensures IsListed(AfterManage(s, step), p)
  {
    if step.Postpone? {
      PostponePassesOn(s, p);
    } else if step.BeginRetry? {
      BeginRetryPassesOn(s, p);
    } else if step.UnlinkOrphan? {
      UnlinkOrphanPassesOn(s, step.ok, p);
    } else {
      EndedRetryPassesOn(s, step.measured, p);
    }
  }

  lemma EndedRetryPassesOn(s: State, measured: bool, p: Path)
    requires CanEndRetry(s, measured) && IsListed(s, p)
    ensures IsListed(AfterEndRetry(s, measured), p)
  {
    var s' := AfterEndRetry(s, measured);
    if k: nat :| k < |s.orphans| && p in s.orphans[k].paths {
      assert p in s'.orphans[k].paths;
    } else {
      assert p in s.retry.value.kept;
      assert p in s'.orphans[|s'.orphans| - 1].paths;
    }
  }

  /** Other parties' steps leave the lists as they are. */
  lemma ListsStay(s: State, s': State, p: Path)
    requires s.orphans <= s'.orphans && s'.retry == s.retry && IsListed(s, p)
    ensures IsListed(s', p)
  {
    if k: nat :| k < |s.orphans| && p in s.orphans[k].paths {
      assert p in s'.orphans[k].paths;
    }
  }

  lemma BodyStepsKeepLists(s: State, step: Step)
    requires CanBody(s, step)
    ensures AfterBody(s, step).orphans == s.orphans && AfterBody(s, step).retry == s.retry
  {
  }

  lemma MetaStepsKeepLists(s: State, step: Step)
    requires CanMeta(s, step)
    ensures AfterMeta(s, step).orphans == s.orphans && AfterMeta(s, step).retry == s.retry
  {
  }

  lemma FailureStepsKeepLists(s: State, step: Step)
    requires CanFailure(s, step)
    ensures s.orphans <= AfterFailure(s, step).orphans && AfterFailure(s, step).retry == s.retry
  {
    if step.FinishFailed? {
      FinishFailedKeepsLists(s, step.w);
    }
  }

  lemma FinishFailedKeepsLists(s: State, w: nat)
    requires CanFinishFailed(s, w)
    ensures s.orphans <= AfterFinishFailed(s, w).orphans && AfterFinishFailed(s, w).retry == s.retry
  {
  }

  lemma GroupsStay(s: State, step: Step)
    requires Enabled(s, step) && !IsGroupStep(step) && !IsStartupStep(step)
    ensures s.orphans <= Apply(s, step).orphans && Apply(s, step).retry == s.retry
  {
    if IsBodyStep(step) {
      BodyStepsKeepLists(s, step);
    } else if IsMetaStep(step) {
      MetaStepsKeepLists(s, step);
    } else {
      FailureStepsKeepLists(s, step);
    }
  }

  /** A tracked name stays tracked as long as it is there and no unlink of it is refused. */
  lemma StaysTracked(s: State, step: Step, p: Path)
    requires FilesOk(s) && Enabled(s, step) && !IsStartupStep(step) && Tracked(s, p)
    requires p !in Unlinked(s, step) && !Refused(s, step, p)
    ensures Tracked(Apply(s, step), p)
  {
    if p.id in s.published && (p == Body(p.id) || p == Meta(p.id)) {
      StepKeepsPublished(s, step);
    } else if w: nat :| w < |s.writers| && p in HeldPaths(s.writers[w]) {
      WriterKeepsTrack(s, step, w, p);
    } else {
      ListsKeepTrack(s, step, p);
    }
  }

  lemma WriterKeepsTrack(s: State, step: Step, w: nat, p: Path)
    requires FilesOk(s) && Enabled(s, step) && !IsStartupStep(step) && w < |s.writers| && p in HeldPaths(s.writers[w])
    requires p !in Unlinked(s, step) && !Refused(s, step, p)
    ensures Tracked(Apply(s, step), p)
  {
    if IsOf(step, w) {
      WriterPassesOn(s, step, w, p);
    } else {
      OthersLeaveWriter(s, step, w);
      TrackedByWriter(Apply(s, step), w, p);
    }
  }

  lemma ListsKeepTrack(s: State, step: Step, p: Path)
    requires Enabled(s, step) && !IsStartupStep(step) && IsListed(s, p) && p !in Unlinked(s, step)
    ensures IsListed(Apply(s, step), p)
  {
    if IsGroupStep(step) {
      GroupsPassOn(s, step, p);
    } else {
      GroupsStay(s, step);
      ListsStay(s, Apply(s, step), p);
    }
  }

  /** Whoever makes a name has it on its list, or publishes it. */
  lemma NewNamesAreTracked(s: State, step: Step, p: Path)
    requires FilesOk(s) && Enabled(s, step) && p in Created(s, step)
    ensures Tracked(Apply(s, step), p)
  {
    match step
    case Claim(id) =>
      var s' := AfterClaim(s, id);
      assert HeldPaths(s'.writers[|s.writers|])[0] == p;
      TrackedByWriter(s', |s.writers|, p);
    case LinkBody(w) =>
      assert HeldPaths(AfterLinkBody(s, w).writers[w])[1] == p;
      TrackedByWriter(AfterLinkBody(s, w), w, p);
    case OpenMeta(w) =>
      assert HeldPaths(AfterOpenMeta(s, w).writers[w])[2] == p;
      TrackedByWriter(AfterOpenMeta(s, w), w, p);
    case LinkMeta(w) => assert s.writers[w].id in AfterLinkMeta(s, w).published;
  }

  /** After startup every name is tracked. */
  lemma RecoveryTracks(s: State, scan: seq<Path>, kept: seq<Path>, measured: bool, p: Path)
    requires Inv(s) && CanRecover(s, scan, kept, measured) && p in AfterRecover(s, scan, kept, measured).dir
    ensures Tracked(AfterRecover(s, scan, kept, measured), p)
  {
    RecoveryLeavesNothingUntracked(s, scan, kept, measured);
    var s' := AfterRecover(s, scan, kept, measured);
    if |s'.orphans| == 1 && p in s'.orphans[0].paths {
      TrackedByGroup(s', 0, p);
    }
  }

  /** The step takes place while the name is there, for the file it stands for now. */
  ghost predicate RefusedAt(states: seq<State>, steps: seq<Step>, k: nat, p: Path, inode: nat)
    requires k < |steps| < |states|
  {
    Enabled(states[k], steps[k]) && Refused(states[k], steps[k], p) && p in states[k].dir && states[k].dir[p] == inode
  }

  /** One step back in the history of a name that nobody tracks. */
  lemma UntrackedBefore(states: seq<State>, steps: seq<Step>, k: nat, p: Path)
    requires IsRun(states, steps) && k < |steps| && states[k + 1].ready && p in states[k + 1].dir
    requires !Tracked(states[k + 1], p)
    ensures states[k].ready && p in states[k].dir && states[k].dir[p] == states[k + 1].dir[p]
    ensures Tracked(states[k], p) ==> RefusedAt(states, steps, k, p, states[k + 1].dir[p])
  {
    var s, step, s' := states[k], steps[k], states[k + 1];
    RunKeepsInv(states, steps, k);
    StepOfRun(states, steps, k);
    if step.Recover? {
      RecoveryTracks(s, step.scan, step.kept, step.measured, p);
    }
    StartupIsOver(s, step);
    DirectoryChanges(s, step);
    if p in Created(s, step) {
      NewNamesAreTracked(s, step, p);
    }
    if Tracked(s, p) && !Refused(s, step, p) {
      StaysTracked(s, step, p);
    }
  }

  /** Only recovery makes the store ready, and only a crash ends that. */
  lemma StartupIsOver(s: State, step: Step)
    requires FilesOk(s) && Enabled(s, step) && !step.Recover?
    ensures Apply(s, step).ready ==> s.ready && !IsStartupStep(step)
  {
    if IsBodyStep(step) {
      BodyStepsStayReady(s, step);
    } else if IsMetaStep(step) {
      MetaStepsStayReady(s, step);
    } else if IsFailureStep(step) {
      FailureStepsStayReady(s, step);
    } else {
      ManageStepsStayReady(s, step);
    }
  }

  lemma BodyStepsStayReady(s: State, step: Step)
    requires CanBody(s, step)
    ensures AfterBody(s, step).ready == s.ready
  {
  }

  lemma MetaStepsStayReady(s: State, step: Step)
    requires CanMeta(s, step)
    ensures AfterMeta(s, step).ready == s.ready
  {
  }

  lemma ManageStepsStayReady(s: State, step: Step)
    requires CanManage(s, step) && !step.Recover?
    ensures if IsGroupStep(step) then AfterManage(s, step).ready == s.ready else !AfterManage(s, step).ready
  {
    if step.EndRetry? {
      EndRetryStaysReady(s, step.measured);
    }
  }

  lemma EndRetryStaysReady(s: State, measured: bool)
    requires CanEndRetry(s, measured)
    ensures AfterEndRetry(s, measured).ready == s.ready
  {
  }

  lemma FailureStepsStayReady(s: State, step: Step)
    requires CanFailure(s, step)
    ensures AfterFailure(s, step).ready == s.ready
  {
  }

  /**
   In every ready state of every run each name in the directory belongs to a published pair, is on the list
   of a live writer or an orphan group, or somebody was refused the unlink of it before.
   */
  lemma NoNameIsForgotten(states: seq<State>, steps: seq<Step>, i: nat, p: Path)
    requires IsRun(states, steps) && i < |states| && states[i].ready && p in states[i].dir
    ensures Tracked(states[i], p) || exists k: nat :: k < i && RefusedAt(states, steps, k, p, states[i].dir[p])
  {
    if !Tracked(states[i], p) {
      assert !states[0].ready;
      var n := i;
      while n > 0 && !Tracked(states[n], p)
        invariant n <= i && states[n].ready && p in states[n].dir && states[n].dir[p] == states[i].dir[p]
        invariant Tracked(states[n], p) ==>
                    exists k: nat :: k < i && RefusedAt(states, steps, k, p, states[i].dir[p])
        decreases n
      {
        UntrackedBefore(states, steps, n - 1, p);
        n := n - 1;
      }
    }
  }

  // ---------------------------------------------------------------- nobody is stuck

  /** A spill that is not over can take a step, at the latest by failing or giving up; only settling its account
      waits for a retry under way, which can go on then. */
  lemma SpillGoesOn(s: State, w: nat) returns (step: Step)
    requires FilesOk(s) && w < |s.writers| && !s.writers[w].stage.Gone?
    ensures Enabled(s, step)
    ensures IsOf(step, w) || (s.retry.Some? && IsGroupStep(step))
  {
    var x := s.writers[w];
    match x.stage
    case Checking(_) => step := GiveUp(w, true);
    case Committed(todo) => step := if todo != [] then UnlinkAlias(w, true) else Settling(s, FinishSpill(w));
    case Failing(todo, _) => step := if todo != [] then UnlinkFailed(w, true) else Measure(w, true);
    case Leaving(_, _, _) => step := Settling(s, FinishFailed(w));
    case _ => step := Fail(w);
  }

  /** The account is settled as soon as no retry is under way. */
  function Settling(s: State, step: Step): Step {
    if s.retry.None? then step else if s.retry.value.todo != [] then UnlinkOrphan(true) else EndRetry(true)
  }

  // ---------------------------------------------------------------- what leftovers are charged

  /** A failed spill is charged exactly what its leftovers retain at that moment, or its reservation if they
      cannot be measured. */
  lemma MeasureCharges(s: State, w: nat, measured: bool)
    requires CanMeasure(s, w, measured)
    ensures var s' := AfterMeasure(s, w, measured);
            && s'.writers[w].stage.Leaving? && s'.writers[w].stage.kept == s.writers[w].stage.kept
            && s'.writers[w].stage.bytes ==
               if measured then RetainedBytes(s'.dir, s'.data, s.writers[w].stage.kept) else s.writers[w].reserved
  {
  }

  /** A retried group is charged exactly what is left of it, or what it was charged before. */
  lemma EndRetryCharges(s: State, measured: bool)
    requires CanEndRetry(s, measured) && s.retry.value.kept != []
    ensures var s' := AfterEndRetry(s, measured);
            && |s'.orphans| == |s.orphans| + 1 && s'.orphans[|s.orphans|].paths == s.retry.value.kept
            && s'.orphans[|s.orphans|].bytes ==
               if measured then RetainedBytes(s'.dir, s'.data, s.retry.value.kept) else s.retry.value.bytes
  {
  }

  /** A startup that can measure its leftovers owes exactly what they retain. */
  lemma MeasuredStartup(s: State, scan: seq<Path>, kept: seq<Path>, measured: bool)
    requires Inv(s) && CanRecover(s, scan, kept, measured)
    ensures var s' := AfterRecover(s, scan, kept, measured);
            measured ==> s'.debt == s'.startDebt == RetainedBytes(s'.dir, s.data, kept)
  {
    assert s.debt == 0;
    if kept == [] {
      assert Retained(AfterRecover(s, scan, kept, measured).dir, kept) == {};
      StoredNothing(s.data);
    }
  }

  /** The files the names stand for. */
  function FilesOf(dir: Dir, paths: seq<Path>): set<nat> {
    set p | p in paths && p in dir :: dir[p]
  }

  /** One that cannot, and finds no file under two names, owes the bytes of every file it found. */
  lemma UnmeasuredStartup(s: State, scan: seq<Path>, kept: seq<Path>)
    requires Inv(s) && CanRecover(s, scan, kept, false) && kept != []
    requires forall p, q :: p in scan && q in scan && p != q ==> s.dir[p] != s.dir[q]
    ensures AfterRecover(s, scan, kept, false).debt == Stored(s.data, FilesOf(s.dir, scan))
  {
    FallbackCountsOnce(s.dir, s.data, scan);
  }

  lemma {:induction false} FallbackCountsOnce(dir: Dir, data: Inodes, paths: seq<Path>)
    requires Distinct(paths) && forall p :: p in paths ==> p in dir && dir[p] < |data|
    requires forall p, q :: p in paths && q in paths && p != q ==> dir[p] != dir[q]
    ensures FallbackBytes(dir, data, paths) == Stored(data, FilesOf(dir, paths))
  {
    if paths == [] {
      assert FilesOf(dir, paths) == {};
      StoredNothing(data);
    } else {
      var init, last := paths[..|paths| - 1], paths[|paths| - 1];
      FallbackCountsOnce(dir, data, init);
      assert paths == init + [last];
      assert FilesOf(dir, paths) == FilesOf(dir, init) + {dir[last]};
      StoredAdd(data, FilesOf(dir, init), dir[last]);
    }
  }
}
