/**
 The spill protocol as a state machine: any number of writers interleave at the granularity
 of one file-system call or one budget update; every call may fail; the process may die
 between any two steps and be started again.
 */
module SpillStore {
  import opened Common
  import opened SpillFiles

  /** Who is still going to unlink a name. */
  datatype Holder = ByWriter(writer: nat) | ByGroup(group: nat)

  datatype Stage =
    | Checking(absent: nat)                          // part claimed; targets seen absent so far
    | Streaming
    | Flushed                                        // body flushed and synced
    | BodyLinked
    | MetaReserved
    | MetaOpen
    | MetaFlushed
    | Committed(todo: seq<Path>)                     // meta visible; part aliases left to unlink
    | Failing(todo: seq<Path>, kept: seq<Path>)      // names left to unlink, names that would not go
    | Leaving(kept: seq<Path>, bytes: nat, most: nat) // leftovers measured, budget not yet settled
    | Gone

  datatype Writer = Writer(id: RefId, body: nat, streamed: Bytes, meta: nat, metaBytes: Bytes,
                           reserved: nat, stage: Stage)

  /** A group owes `bytes`; `most` is the most it could come to when it was charged. */
  datatype Orphan = Orphan(group: nat, paths: seq<Path>, bytes: nat, most: nat)
  datatype Retry = Retry(group: nat, todo: seq<Path>, kept: seq<Path>, bytes: nat, most: nat)
  datatype Pair = Pair(body: Bytes, meta: Bytes)

  /**
   Writing to a file returns before the bytes are in it, and dropping the file does not wait for them:
   `late` holds, per inode of a failed spill, everything that was handed over and may still land.
   `slack` adds up how much more than their charge the groups handed over so far could come to.
   */
  datatype State = State(
    dir: Dir, data: Inodes, late: map<nat, Bytes>, holder: map<Path, Holder>, published: map<RefId, Pair>,
    writers: seq<Writer>,
    cap: nat, active: nat, debt: nat, orphans: seq<Orphan>, retry: Option<Retry>,
    ready: bool, startDebt: nat, slack: nat, groups: nat)

  /** What each inode holds once everything in flight has landed. */
  function Ever(s: State): (all: Inodes)
    ensures |all| == |s.data|
    ensures forall i :: 0 <= i < |all| ==> all[i] == if i in s.late then s.late[i] else s.data[i]
  {
    seq(|s.data|, i requires 0 <= i < |s.data| => if i in s.late then s.late[i] else s.data[i])
  }

  // ---------------------------------------------------------------- steps

  datatype Step =
    | Claim(id: RefId)
    | Look(w: nat)
    | GiveUp(w: nat, unlinked: bool)
    | Write(w: nat, chunk: Bytes)
    | Land(w: nat, n: nat)
    | Flush(w: nat)
    | LinkBody(w: nat)
    | ReserveMeta(w: nat, metaBytes: Bytes)
    | OpenMeta(w: nat)
    | LandMeta(w: nat, n: nat)
    | FlushMeta(w: nat)
    | LinkMeta(w: nat)
    | UnlinkAlias(w: nat, ok: bool)
    | FinishSpill(w: nat)
    | Fail(w: nat)
    | UnlinkFailed(w: nat, ok: bool)
    | Measure(w: nat, measured: bool)
    | FinishFailed(w: nat)
    | LandLate(i: nat, n: nat)                       // bytes of a failed spill reach its file after all
    | Settle(i: nat)                                 // the write in flight is over
    | Postpone                                       // a group whose retry is not due goes to the back
    | BeginRetry
    | UnlinkOrphan(ok: bool)
    | EndRetry(measured: bool)
    | Crash
    | RecoverInterrupted(removed: set<Path>)
    | Recover(scan: seq<Path>, kept: seq<Path>, measured: bool)

  /** The targets inspected after the part is claimed, in order. */
  function Target(id: RefId, k: nat): Path {
    if k == 0 then Body(id) else if k == 1 then MetaPart(id) else Meta(id)
  }

  /** What a spill that fails at this stage has to unlink. */
  function CleanupPaths(w: Writer): seq<Path> {
    match w.stage
    case Streaming | Flushed => [BodyPart(w.id)]
    case BodyLinked | MetaReserved => [BodyPart(w.id), Body(w.id)]
    case MetaOpen | MetaFlushed => [BodyPart(w.id), Body(w.id), MetaPart(w.id)]
    case _ => []
  }

  function SatSub(a: nat, b: nat): nat {
    if a < b then 0 else a - b
  }

  predicate CanReserve(s: State, n: nat) {
    s.retry.None? && s.active + s.debt + n <= s.cap
  }

  predicate IsIncomplete(dir: Dir, p: Path) {
    p.BodyPart? || p.MetaPart? || (p.Body? && Meta(p.id) !in dir)
  }

  function SetWriter(s: State, w: nat, writer: Writer): State
    requires w < |s.writers|
  {
    s.(writers := s.writers[w := writer])
  }

  function Unlink(s: State, p: Path): State {
    s.(dir := s.dir - {p}, holder := s.holder - {p})
  }

  /** What the startup scan charges when the leftovers cannot be measured by identity. */
  function FallbackBytes(dir: Dir, data: Inodes, paths: seq<Path>): nat {
    if paths == [] then 0
    else
      var p := paths[|paths| - 1];
      FallbackBytes(dir, data, paths[..|paths| - 1]) + if p in dir && dir[p] < |data| then |data[dir[p]]| else 0
  }

  function HandOver(holder: map<Path, Holder>, paths: seq<Path>, group: nat): map<Path, Holder> {
    holder + map p | p in paths :: ByGroup(group)
  }

  predicate CanClaim(s: State, id: RefId) {
    s.ready && BodyPart(id) !in s.dir
  }

  function AfterClaim(s: State, id: RefId): State
    requires CanClaim(s, id)
  {
    var writer := Writer(id, |s.data|, [], 0, [], 0, Checking(0));
    s.(dir := s.dir[BodyPart(id) := |s.data|], data := s.data + [[]],
       holder := s.holder[BodyPart(id) := ByWriter(|s.writers|)], writers := s.writers + [writer])
  }

  predicate CanLook(s: State, w: nat) {
    w < |s.writers| && s.writers[w].stage.Checking? && s.writers[w].stage.absent < 3
    && Target(s.writers[w].id, s.writers[w].stage.absent) !in s.dir
  }

  function AfterLook(s: State, w: nat): State
    requires CanLook(s, w)
  {
    var k := s.writers[w].stage.absent;
    SetWriter(s, w, s.writers[w].(stage := if k < 2 then Checking(k + 1) else Streaming))
  }

  predicate CanGiveUp(s: State, w: nat, unlinked: bool) {
    w < |s.writers| && s.writers[w].stage.Checking?
  }

  function AfterGiveUp(s: State, w: nat, unlinked: bool): State
    requires CanGiveUp(s, w, unlinked)
  {
    var p := BodyPart(s.writers[w].id);
    var s1 := SetWriter(s, w, s.writers[w].(stage := Gone));
    if unlinked then Unlink(s1, p) else s1.(holder := s1.holder - {p})
  }

  predicate CanWrite(s: State, w: nat, chunk: Bytes) {
    w < |s.writers| && s.writers[w].stage.Streaming? && CanReserve(s, |chunk|)
  }

  function AfterWrite(s: State, w: nat, chunk: Bytes): State
    requires CanWrite(s, w, chunk)
  {
    var writer := s.writers[w];
    SetWriter(s, w, writer.(streamed := writer.streamed + chunk, reserved := writer.reserved + |chunk|))
    .(active := s.active + |chunk|)
  }

  predicate CanLand(s: State, w: nat, n: nat) {
    w < |s.writers| && s.writers[w].stage.Streaming? && n <= |s.writers[w].streamed|
    && s.writers[w].body < |s.data| && |s.data[s.writers[w].body]| <= n
  }

  function AfterLand(s: State, w: nat, n: nat): State
    requires CanLand(s, w, n)
  {
    s.(data := s.data[s.writers[w].body := s.writers[w].streamed[..n]])
  }

  predicate CanFlush(s: State, w: nat) {
    w < |s.writers| && s.writers[w].stage.Streaming? && s.writers[w].body < |s.data|
    && s.data[s.writers[w].body] == s.writers[w].streamed
  }

  function AfterFlush(s: State, w: nat): State
    requires CanFlush(s, w)
  {
    SetWriter(s, w, s.writers[w].(stage := Flushed))
  }

  predicate CanLinkBody(s: State, w: nat) {
    w < |s.writers| && s.writers[w].stage.Flushed? && Body(s.writers[w].id) !in s.dir
  }

  function AfterLinkBody(s: State, w: nat): State
    requires CanLinkBody(s, w)
  {
    var p := Body(s.writers[w].id);
    SetWriter(s, w, s.writers[w].(stage := BodyLinked))
    .(dir := s.dir[p := s.writers[w].body], holder := s.holder[p := ByWriter(w)])
  }

  predicate CanReserveMeta(s: State, w: nat, metaBytes: Bytes) {
    w < |s.writers| && s.writers[w].stage.BodyLinked? && CanReserve(s, |metaBytes|)
  }

  function AfterReserveMeta(s: State, w: nat, metaBytes: Bytes): State
    requires CanReserveMeta(s, w, metaBytes)
  {
    var writer := s.writers[w];
    SetWriter(s, w, writer.(metaBytes := metaBytes, reserved := writer.reserved + |metaBytes|, stage := MetaReserved))
    .(active := s.active + |metaBytes|)
  }

  predicate CanOpenMeta(s: State, w: nat) {
    w < |s.writers| && s.writers[w].stage.MetaReserved? && MetaPart(s.writers[w].id) !in s.dir
  }

  function AfterOpenMeta(s: State, w: nat): State
    requires CanOpenMeta(s, w)
  {
    var p := MetaPart(s.writers[w].id);
    SetWriter(s, w, s.writers[w].(meta := |s.data|, stage := MetaOpen))
    .(dir := s.dir[p := |s.data|], data := s.data + [[]], holder := s.holder[p := ByWriter(w)])
  }

  predicate CanLandMeta(s: State, w: nat, n: nat) {
    w < |s.writers| && s.writers[w].stage.MetaOpen? && n <= |s.writers[w].metaBytes|
    && s.writers[w].meta < |s.data| && |s.data[s.writers[w].meta]| <= n
  }

  function AfterLandMeta(s: State, w: nat, n: nat): State
    requires CanLandMeta(s, w, n)
  {
    s.(data := s.data[s.writers[w].meta := s.writers[w].metaBytes[..n]])
  }

  predicate CanFlushMeta(s: State, w: nat) {
    w < |s.writers| && s.writers[w].stage.MetaOpen? && s.writers[w].meta < |s.data|
    && s.data[s.writers[w].meta] == s.writers[w].metaBytes
  }

  function AfterFlushMeta(s: State, w: nat): State
    requires CanFlushMeta(s, w)
  {
    SetWriter(s, w, s.writers[w].(stage := MetaFlushed))
  }

  predicate CanLinkMeta(s: State, w: nat) {
    w < |s.writers| && s.writers[w].stage.MetaFlushed? && Meta(s.writers[w].id) !in s.dir
  }

  function AfterLinkMeta(s: State, w: nat): State
    requires CanLinkMeta(s, w)
  {
    var writer := s.writers[w];
    SetWriter(s, w, writer.(stage := Committed([BodyPart(writer.id), MetaPart(writer.id)])))
    .(dir := s.dir[Meta(writer.id) := writer.meta], holder := s.holder - {Body(writer.id)},
      published := s.published[writer.id := Pair(writer.streamed, writer.metaBytes)])
  }

  predicate CanUnlinkAlias(s: State, w: nat, ok: bool) {
    w < |s.writers| && s.writers[w].stage.Committed? && s.writers[w].stage.todo != []
  }

  function AfterUnlinkAlias(s: State, w: nat, ok: bool): State
    requires CanUnlinkAlias(s, w, ok)
  {
    var todo := s.writers[w].stage.todo;
    var s1 := SetWriter(s, w, s.writers[w].(stage := Committed(todo[1..])));
    if ok then Unlink(s1, todo[0]) else s1.(holder := s1.holder - {todo[0]})
  }

  predicate CanFinishSpill(s: State, w: nat) {
    w < |s.writers| && s.writers[w].stage.Committed? && s.writers[w].stage.todo == [] && s.retry.None?
  }

  function AfterFinishSpill(s: State, w: nat): State
    requires CanFinishSpill(s, w)
  {
    SetWriter(s, w, s.writers[w].(reserved := 0, stage := Gone)).(active := SatSub(s.active, s.writers[w].reserved))
  }

  predicate CanFail(s: State, w: nat) {
    w < |s.writers| && CleanupPaths(s.writers[w]) != []
  }

  function AfterFail(s: State, w: nat): State
    requires CanFail(s, w)
  {
    var writer := s.writers[w];
    SetWriter(s, w, writer.(stage := Failing(CleanupPaths(writer), []))).(late := s.late + InFlight(writer))
  }

  /** What was handed over to the open file of a spill that fails now. */
  function InFlight(w: Writer): map<nat, Bytes> {
    match w.stage
    case Streaming => map[w.body := w.streamed]
    case MetaOpen => map[w.meta := w.metaBytes]
    case _ => map[]
  }

  predicate CanLandLate(s: State, i: nat, n: nat) {
    i in s.late && i < |s.data| && |s.data[i]| <= n <= |s.late[i]|
  }

  function AfterLandLate(s: State, i: nat, n: nat): State
    requires CanLandLate(s, i, n)
  {
    s.(data := s.data[i := s.late[i][..n]])
  }

  predicate CanSettle(s: State, i: nat) {
    i in s.late
  }

  function AfterSettle(s: State, i: nat): State
    requires CanSettle(s, i)
  {
    s.(late := s.late - {i})
  }

  predicate CanUnlinkFailed(s: State, w: nat, ok: bool) {
    w < |s.writers| && s.writers[w].stage.Failing? && s.writers[w].stage.todo != []
  }

  function AfterUnlinkFailed(s: State, w: nat, ok: bool): State
    requires CanUnlinkFailed(s, w, ok)
  {
    var stage := s.writers[w].stage;
    if ok then Unlink(SetWriter(s, w, s.writers[w].(stage := Failing(stage.todo[1..], stage.kept))), stage.todo[0])
    else SetWriter(s, w, s.writers[w].(stage := Failing(stage.todo[1..], stage.kept + [stage.todo[0]])))
  }

  predicate CanMeasure(s: State, w: nat, measured: bool) {
    w < |s.writers| && s.writers[w].stage.Failing? && s.writers[w].stage.todo == []
  }

  ghost function AfterMeasure(s: State, w: nat, measured: bool): State
    requires CanMeasure(s, w, measured)
  {
    var kept := s.writers[w].stage.kept;
    var reserved := s.writers[w].reserved;
    SetWriter(s, w, s.writers[w].(stage :=
      if measured then Leaving(kept, RetainedBytes(s.dir, s.data, kept), RetainedBytes(s.dir, Ever(s), kept))
      else Leaving(kept, reserved, reserved)))
  }

  predicate CanFinishFailed(s: State, w: nat) {
    w < |s.writers| && s.writers[w].stage.Leaving? && s.retry.None?
  }

  function AfterFinishFailed(s: State, w: nat): State
    requires CanFinishFailed(s, w)
  {
    var stage := s.writers[w].stage;
    var s1 := SetWriter(s, w, s.writers[w].(reserved := 0, stage := Gone))
              .(active := SatSub(s.active, s.writers[w].reserved));
    if stage.kept == [] then s1
    else s1.(debt := s.debt + stage.bytes, slack := s.slack + SatSub(stage.most, stage.bytes),
             orphans := s.orphans + [Orphan(s.groups, stage.kept, stage.bytes, stage.most)],
             holder := HandOver(s.holder, stage.kept, s.groups), groups := s.groups + 1)
  }

  predicate CanPostpone(s: State) {
    s.ready && s.retry.None? && s.orphans != []
  }

  function AfterPostpone(s: State): State
    requires CanPostpone(s)
  {
    s.(orphans := s.orphans[1..] + [s.orphans[0]])
  }

  predicate CanBeginRetry(s: State) {
    s.ready && s.retry.None? && s.orphans != []
  }

  function AfterBeginRetry(s: State): State
    requires CanBeginRetry(s)
  {
    var o := s.orphans[0];
    s.(orphans := s.orphans[1..], retry := Some(Retry(o.group, o.paths, [], o.bytes, o.most)))
  }

  predicate CanUnlinkOrphan(s: State, ok: bool) {
    s.retry.Some? && s.retry.value.todo != []
  }

  function AfterUnlinkOrphan(s: State, ok: bool): State
    requires CanUnlinkOrphan(s, ok)
  {
    var r := s.retry.value;
    if ok then Unlink(s.(retry := Some(r.(todo := r.todo[1..]))), r.todo[0])
    else s.(retry := Some(r.(todo := r.todo[1..], kept := r.kept + [r.todo[0]])))
  }

  predicate CanEndRetry(s: State, measured: bool) {
    s.retry.Some? && s.retry.value.todo == []
  }

  ghost function AfterEndRetry(s: State, measured: bool): State
    requires CanEndRetry(s, measured)
  {
    var r := s.retry.value;
    if r.kept == [] then s.(retry := None, debt := SatSub(s.debt, r.bytes))
    else
      var o := if measured
               then Orphan(r.group, r.kept, RetainedBytes(s.dir, s.data, r.kept), RetainedBytes(s.dir, Ever(s), r.kept))
               else Orphan(r.group, r.kept, r.bytes, r.most);
      s.(retry := None, debt := SatSub(s.debt, r.bytes) + o.bytes, slack := s.slack + SatSub(o.most, o.bytes),
         orphans := s.orphans + [o])
  }

  predicate CanCrash(s: State) {
    true
  }

  function AfterCrash(s: State): State
    requires CanCrash(s)
  {
    s.(late := map[], holder := map[], writers := [], active := 0, debt := 0, orphans := [], retry := None,
       ready := false, startDebt := 0, slack := 0, groups := 0)
  }

  ghost predicate CanRecoverInterrupted(s: State, removed: set<Path>) {
    !s.ready && forall p :: p in removed ==> p in s.dir && IsIncomplete(s.dir, p)
  }

  ghost function AfterRecoverInterrupted(s: State, removed: set<Path>): State
    requires CanRecoverInterrupted(s, removed)
  {
    s.(dir := s.dir - removed)
  }

  ghost predicate CanRecover(s: State, scan: seq<Path>, kept: seq<Path>, measured: bool) {
    !s.ready && Distinct(scan) && Distinct(kept) && (forall p :: p in kept ==> p in scan)
    && (forall p :: p in scan <==> p in s.dir && IsIncomplete(s.dir, p))
  }

  ghost function AfterRecover(s: State, scan: seq<Path>, kept: seq<Path>, measured: bool): State
    requires CanRecover(s, scan, kept, measured)
  {
    var dir := map p | p in s.dir && (p in scan ==> p in kept) :: s.dir[p];
    if kept == [] then s.(dir := dir, ready := true)
    else
      var bytes := if measured then RetainedBytes(dir, s.data, kept) else FallbackBytes(s.dir, s.data, scan);
      s.(dir := dir, ready := true, debt := bytes, startDebt := bytes, orphans := [Orphan(0, kept, bytes, bytes)],
         holder := HandOver(map[], kept, 0), groups := 1)
  }

  // ---------------------------------------------------------------- one step

  predicate IsBodyStep(step: Step) {
    step.Claim? || step.Look? || step.GiveUp? || step.Write? || step.Land? || step.Flush? || step.LinkBody?
  }

  predicate IsMetaStep(step: Step) {
    || step.ReserveMeta? || step.OpenMeta? || step.LandMeta? || step.FlushMeta? || step.LinkMeta?
    || step.UnlinkAlias? || step.FinishSpill?
  }

  predicate IsFailureStep(step: Step) {
    step.Fail? || step.UnlinkFailed? || step.Measure? || step.FinishFailed? || step.LandLate? || step.Settle?
  }

  predicate IsGroupStep(step: Step) {
    step.Postpone? || step.BeginRetry? || step.UnlinkOrphan? || step.EndRetry?
  }

  predicate IsStartupStep(step: Step) {
    step.Crash? || step.RecoverInterrupted? || step.Recover?
  }

  ghost predicate CanBody(s: State, step: Step) {
    match step
    case Claim(id) => CanClaim(s, id)
    case Look(w) => CanLook(s, w)
    case GiveUp(w, unlinked) => CanGiveUp(s, w, unlinked)
    case Write(w, chunk) => CanWrite(s, w, chunk)
    case Land(w, n) => CanLand(s, w, n)
    case Flush(w) => CanFlush(s, w)
    case LinkBody(w) => CanLinkBody(s, w)
    case _ => false
  }

  ghost function AfterBody(s: State, step: Step): State
    requires CanBody(s, step)
  {
    match step
    case Claim(id) => AfterClaim(s, id)
    case Look(w) => AfterLook(s, w)
    case GiveUp(w, unlinked) => AfterGiveUp(s, w, unlinked)
    case Write(w, chunk) => AfterWrite(s, w, chunk)
    case Land(w, n) => AfterLand(s, w, n)
    case Flush(w) => AfterFlush(s, w)
    case LinkBody(w) => AfterLinkBody(s, w)
  }

  ghost predicate CanMeta(s: State, step: Step) {
    match step
    case ReserveMeta(w, metaBytes) => CanReserveMeta(s, w, metaBytes)
    case OpenMeta(w) => CanOpenMeta(s, w)
    case LandMeta(w, n) => CanLandMeta(s, w, n)
    case FlushMeta(w) => CanFlushMeta(s, w)
    case LinkMeta(w) => CanLinkMeta(s, w)
    case UnlinkAlias(w, ok) => CanUnlinkAlias(s, w, ok)
    case FinishSpill(w) => CanFinishSpill(s, w)
    case _ => false
  }

  ghost function AfterMeta(s: State, step: Step): State
    requires CanMeta(s, step)
  {
    match step
    case ReserveMeta(w, metaBytes) => AfterReserveMeta(s, w, metaBytes)
    case OpenMeta(w) => AfterOpenMeta(s, w)
    case LandMeta(w, n) => AfterLandMeta(s, w, n)
    case FlushMeta(w) => AfterFlushMeta(s, w)
    case LinkMeta(w) => AfterLinkMeta(s, w)
    case UnlinkAlias(w, ok) => AfterUnlinkAlias(s, w, ok)
    case FinishSpill(w) => AfterFinishSpill(s, w)
  }

  ghost predicate CanFailure(s: State, step: Step) {
    match step
    case Fail(w) => CanFail(s, w)
    case UnlinkFailed(w, ok) => CanUnlinkFailed(s, w, ok)
    case Measure(w, measured) => CanMeasure(s, w, measured)
    case FinishFailed(w) => CanFinishFailed(s, w)
    case LandLate(i, n) => CanLandLate(s, i, n)
    case Settle(i) => CanSettle(s, i)
    case _ => false
  }

  ghost function AfterFailure(s: State, step: Step): State
    requires CanFailure(s, step)
  {
    match step
    case Fail(w) => AfterFail(s, w)
    case UnlinkFailed(w, ok) => AfterUnlinkFailed(s, w, ok)
    case Measure(w, measured) => AfterMeasure(s, w, measured)
    case FinishFailed(w) => AfterFinishFailed(s, w)
    case LandLate(i, n) => AfterLandLate(s, i, n)
    case Settle(i) => AfterSettle(s, i)
  }

  ghost predicate CanManage(s: State, step: Step) {
    match step
    case Postpone => CanPostpone(s)
    case BeginRetry => CanBeginRetry(s)
    case UnlinkOrphan(ok) => CanUnlinkOrphan(s, ok)
    case EndRetry(measured) => CanEndRetry(s, measured)
    case Crash => CanCrash(s)
    case RecoverInterrupted(removed) => CanRecoverInterrupted(s, removed)
    case Recover(scan, kept, measured) => CanRecover(s, scan, kept, measured)
    case _ => false
  }

  ghost function AfterManage(s: State, step: Step): State
    requires CanManage(s, step)
  {
    match step
    case Postpone => AfterPostpone(s)
    case BeginRetry => AfterBeginRetry(s)
    case UnlinkOrphan(ok) => AfterUnlinkOrphan(s, ok)
    case EndRetry(measured) => AfterEndRetry(s, measured)
    case Crash => AfterCrash(s)
    case RecoverInterrupted(removed) => AfterRecoverInterrupted(s, removed)
    case Recover(scan, kept, measured) => AfterRecover(s, scan, kept, measured)
  }

  ghost predicate Enabled(s: State, step: Step) {
    if IsBodyStep(step) then CanBody(s, step)
    else if IsMetaStep(step) then CanMeta(s, step)
    else if IsFailureStep(step) then CanFailure(s, step)
    else CanManage(s, step)
  }

  ghost function Apply(s: State, step: Step): State
    requires Enabled(s, step)
  {
    if IsBodyStep(step) then AfterBody(s, step)
    else if IsMetaStep(step) then AfterMeta(s, step)
    else if IsFailureStep(step) then AfterFailure(s, step)
    else AfterManage(s, step)
  }
}
