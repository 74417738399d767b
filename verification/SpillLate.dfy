/**
 Bytes that land after their spill has failed: which files they may reach, and when the charge for
 leftovers covers them.
 */
module SpillLate {
  import opened Common
  import opened SpillFiles
  import opened SpillStore
  import opened SpillInvariant

  // ---------------------------------------------------------------- where bytes may still land

  /** A step of a spill that has not failed, which adds no name to a file in flight. */
  lemma LiveStepKeepsLate(s: State, s': State, w: nat)
    requires LateOk(s) && s'.late == s.late && w <= |s.writers| <= |s'.writers|
    requires w < |s.writers| ==> !HasFailed(s.writers[w])
    requires forall j: nat :: j < |s.writers| && j != w ==> s'.writers[j] == s.writers[j]
    requires forall p :: p in s.holder && s.holder[p] != ByWriter(w) ==> p in s'.holder && s'.holder[p] == s.holder[p]
    requires forall p :: p in s'.dir && s'.dir[p] in s.late ==> p in s.dir && s.dir[p] == s'.dir[p]
    ensures LateOk(s')
  {
    forall p | p in s'.dir && s'.dir[p] in s'.late
      ensures LateNameOk(s', p)
    {
      assert LateNameOk(s, p);
    }
  }

  lemma ClaimKeepsLate(s: State, id: RefId)
    requires FilesOk(s) && LateOk(s) && CanClaim(s, id)
    ensures LateOk(AfterClaim(s, id))
  {
    LiveStepKeepsLate(s, AfterClaim(s, id), |s.writers|);
  }

  lemma GiveUpKeepsLate(s: State, w: nat, unlinked: bool)
    requires FilesOk(s) && LateOk(s) && CanGiveUp(s, w, unlinked)
    ensures LateOk(AfterGiveUp(s, w, unlinked))
  {
    assert WriterOk(s, w) && HeldPaths(s.writers[w])[0] == BodyPart(s.writers[w].id);
    LiveStepKeepsLate(s, AfterGiveUp(s, w, unlinked), w);
  }

  lemma LinkBodyKeepsLate(s: State, w: nat)
    requires FilesOk(s) && LateOk(s) && CanLinkBody(s, w)
    ensures LateOk(AfterLinkBody(s, w))
  {
    var x := s.writers[w];
    assert WriterOk(s, w) && HeldPaths(x)[0] == BodyPart(x.id);
    LiveFilesAreNotLate(s, BodyPart(x.id));
    LiveStepKeepsLate(s, AfterLinkBody(s, w), w);
  }

  /** A step that leaves every name where it is. */
  lemma QuietStepKeepsLate(s: State, s': State, w: nat)
    requires LateOk(s) && s'.late == s.late && s'.dir == s.dir && s'.holder == s.holder
    requires w < |s.writers| == |s'.writers| && !HasFailed(s.writers[w])
    requires forall j: nat :: j < |s.writers| && j != w ==> s'.writers[j] == s.writers[j]
    ensures LateOk(s')
  {
    LiveStepKeepsLate(s, s', w);
  }

  lemma BodyStepsKeepLate(s: State, step: Step)
    requires FilesOk(s) && LateOk(s) && CanBody(s, step)
    ensures LateOk(AfterBody(s, step))
  {
    match step
    case Claim(id) => ClaimKeepsLate(s, id);
    case GiveUp(w, unlinked) => GiveUpKeepsLate(s, w, unlinked);
    case LinkBody(w) => LinkBodyKeepsLate(s, w);
    case Look(w) => QuietStepKeepsLate(s, AfterLook(s, w), w);
    case Write(w, chunk) => QuietStepKeepsLate(s, AfterWrite(s, w, chunk), w);
    case Land(w, n) => QuietStepKeepsLate(s, AfterLand(s, w, n), w);
    case Flush(w) => QuietStepKeepsLate(s, AfterFlush(s, w), w);
  }

  lemma OpenMetaKeepsLate(s: State, w: nat)
    requires FilesOk(s) && LateOk(s) && CanOpenMeta(s, w)
    ensures LateOk(AfterOpenMeta(s, w))
  {
    LiveStepKeepsLate(s, AfterOpenMeta(s, w), w);
  }

  lemma LinkMetaKeepsLate(s: State, w: nat)
    requires FilesOk(s) && LateOk(s) && CanLinkMeta(s, w)
    ensures LateOk(AfterLinkMeta(s, w))
  {
    var x := s.writers[w];
    assert WriterOk(s, w) && HeldPaths(x)[1] == Body(x.id) && HeldPaths(x)[2] == MetaPart(x.id);
    LiveFilesAreNotLate(s, MetaPart(x.id));
    LiveStepKeepsLate(s, AfterLinkMeta(s, w), w);
  }

  lemma UnlinkAliasKeepsLate(s: State, w: nat, ok: bool)
    requires FilesOk(s) && LateOk(s) && CanUnlinkAlias(s, w, ok)
    ensures LateOk(AfterUnlinkAlias(s, w, ok))
  {
    assert WriterOk(s, w) && HeldPaths(s.writers[w])[0] in HeldPaths(s.writers[w]);
    LiveStepKeepsLate(s, AfterUnlinkAlias(s, w, ok), w);
  }

  lemma MetaStepsKeepLate(s: State, step: Step)
    requires FilesOk(s) && LateOk(s) && CanMeta(s, step)
    ensures LateOk(AfterMeta(s, step))
  {
    match step
    case OpenMeta(w) => OpenMetaKeepsLate(s, w);
    case LinkMeta(w) => LinkMetaKeepsLate(s, w);
    case UnlinkAlias(w, ok) => UnlinkAliasKeepsLate(s, w, ok);
    case ReserveMeta(w, metaBytes) => QuietStepKeepsLate(s, AfterReserveMeta(s, w, metaBytes), w);
    case LandMeta(w, n) => QuietStepKeepsLate(s, AfterLandMeta(s, w, n), w);
    case FlushMeta(w) => QuietStepKeepsLate(s, AfterFlushMeta(s, w), w);
    case FinishSpill(w) => QuietStepKeepsLate(s, AfterFinishSpill(s, w), w);
  }

  /** The spill that fails still holds the one name of the file it leaves in flight. */
  lemma FailKeepsLate(s: State, w: nat)
    requires FilesOk(s) && LateOk(s) && CanFail(s, w)
    ensures LateOk(AfterFail(s, w))
  {
    var s' := AfterFail(s, w);
    forall p | p in s'.dir && s'.dir[p] in s'.late
      ensures LateNameOk(s', p)
    {
      if s.dir[p] in s.late {
        assert LateNameOk(s, p);
      } else {
        NewlyInFlight(s, w, p);
      }
    }
  }

  lemma NewlyInFlight(s: State, w: nat, p: Path)
    requires FilesOk(s) && CanFail(s, w) && p in s.dir && s.dir[p] in InFlight(s.writers[w])
    ensures p in CleanupPaths(s.writers[w]) && p in s.holder && s.holder[p] == ByWriter(w)
  {
    var x := s.writers[w];
    assert WriterOk(s, w);
    var own := if x.stage.Streaming? then BodyPart(x.id) else MetaPart(x.id);
    assert HeldPaths(x)[if x.stage.Streaming? then 0 else 2] == own;
    assert SameFile(p, own);
  }

  /** A failed spill moves on: the names it still has stay its own, or go to a group. */
  lemma FailedStepKeepsLate(s: State, s': State, w: nat)
    requires LateOk(s) && s'.late == s.late && w < |s.writers| == |s'.writers|
    requires forall j: nat :: j < |s.writers| && j != w ==> s'.writers[j] == s.writers[j]
    requires forall p :: p in s'.dir ==> p in s.dir && s'.dir[p] == s.dir[p]
    requires forall p :: p in s.holder && p in s'.dir && s.holder[p] != ByWriter(w) ==>
            p in s'.holder && s'.holder[p] == s.holder[p]
    requires forall p :: p in s'.dir && p in HeldPaths(s.writers[w]) && p in s.holder && s.holder[p] == ByWriter(w) ==>
            LateNameOk(s', p)
    ensures LateOk(s')
  {
    forall p | p in s'.dir && s'.dir[p] in s'.late
      ensures LateNameOk(s', p)
    {
      assert LateNameOk(s, p);
    }
  }

  lemma UnlinkFailedKeepsLate(s: State, w: nat, ok: bool)
    requires FilesOk(s) && LateOk(s) && CanUnlinkFailed(s, w, ok)
    ensures LateOk(AfterUnlinkFailed(s, w, ok))
  {
    var s', stage := AfterUnlinkFailed(s, w, ok), s.writers[w].stage;
    assert stage.todo == [stage.todo[0]] + stage.todo[1..];
    var held := HeldPaths(s'.writers[w]);
    assert held == if ok then stage.todo[1..] + stage.kept else stage.todo[1..] + (stage.kept + [stage.todo[0]]);
    assert forall p :: p in stage.todo + stage.kept && p in s'.dir ==> p in held;
    FailedStepKeepsLate(s, s', w);
  }

  lemma FinishFailedKeepsLate(s: State, w: nat)
    requires FilesOk(s) && LateOk(s) && CanFinishFailed(s, w)
    ensures LateOk(AfterFinishFailed(s, w))
  {
    assert WriterOk(s, w) && HeldPaths(s.writers[w]) == s.writers[w].stage.kept;
    FailedStepKeepsLate(s, AfterFinishFailed(s, w), w);
  }

  lemma MeasureKeepsLate(s: State, w: nat, measured: bool)
    requires FilesOk(s) && LateOk(s) && CanMeasure(s, w, measured)
    ensures LateOk(AfterMeasure(s, w, measured))
  {
    var s' := AfterMeasure(s, w, measured);
    assert HeldPaths(s'.writers[w]) == HeldPaths(s.writers[w]);
    FailedStepKeepsLate(s, s', w);
  }

  lemma FailureStepsKeepLate(s: State, step: Step)
    requires FilesOk(s) && LateOk(s) && CanFailure(s, step)
    ensures LateOk(AfterFailure(s, step))
  {
    match step
    case Fail(w) => FailKeepsLate(s, w);
    case UnlinkFailed(w, ok) => UnlinkFailedKeepsLate(s, w, ok);
    case Measure(w, measured) => MeasureKeepsLate(s, w, measured);
    case FinishFailed(w) => FinishFailedKeepsLate(s, w);
    case LandLate(i, n) => SameNamesKeepLate(s, AfterLandLate(s, i, n));
    case Settle(i) => SameNamesKeepLate(s, AfterSettle(s, i));
  }

  lemma SameNamesKeepLate(s: State, s': State)
    requires LateOk(s) && s'.writers == s.writers && s'.holder == s.holder && s'.dir == s.dir
    requires forall i :: i in s'.late ==> i in s.late
    ensures LateOk(s')
  {
    forall p | p in s'.dir && s'.dir[p] in s'.late
      ensures LateNameOk(s', p)
    {
      assert LateNameOk(s, p);
    }
  }

  lemma ManageStepsKeepLate(s: State, step: Step)
    requires FilesOk(s) && LateOk(s) && CanManage(s, step)
    ensures LateOk(AfterManage(s, step))
  {
    var s' := AfterManage(s, step);
    if !IsStartupStep(step) {
      forall p | p in s'.dir && s'.dir[p] in s'.late
        ensures LateNameOk(s', p)
      {
        assert LateNameOk(s, p);
      }
    }
  }

  lemma StepKeepsLate(s: State, step: Step)
    requires FilesOk(s) && LateOk(s) && Enabled(s, step)
    ensures LateOk(Apply(s, step))
  {
    if IsBodyStep(step) {
      BodyStepsKeepLate(s, step);
    } else if IsMetaStep(step) {
      MetaStepsKeepLate(s, step);
    } else if IsFailureStep(step) {
      FailureStepsKeepLate(s, step);
    } else {
      ManageStepsKeepLate(s, step);
    }
  }

  // ---------------------------------------------------------------- when the charge covers what may land

  /** Nothing is in flight to any file that the names retain. */
  ghost predicate Settled(s: State, paths: seq<Path>) {
    forall i :: i in Retained(s.dir, paths) && i in s.late && i < |s.data| ==> |s.late[i]| == |s.data[i]|
  }

  lemma {:induction false} StoredSameIff(data: Inodes, more: Inodes, chosen: set<nat>)
    requires |data| == |more| && forall i :: 0 <= i < |data| ==> |data[i]| <= |more[i]|
    ensures Stored(more, chosen) <= Stored(data, chosen) <==>
            forall i :: i in chosen && i < |data| ==> |data[i]| == |more[i]|
  {
    if data != [] {
      var last := |data| - 1;
      StoredSameIff(data[..last], more[..last], chosen);
      StoredGrows(data[..last], more[..last], chosen);
      assert (forall i :: i in chosen && i < |data| ==> |data[i]| == |more[i]|) <==>
             && (forall i :: i in chosen && i < last ==> |data[i]| == |more[i]|)
             && (last in chosen ==> |data[last]| == |more[last]|);
    }
  }

  /** Measuring leftovers finds all that they can ever retain exactly when nothing is in flight to them. */
  lemma MeasurementCoversIff(s: State, paths: seq<Path>)
    requires NamesOk(s)
    ensures RetainedBytes(s.dir, Ever(s), paths) <= RetainedBytes(s.dir, s.data, paths) <==> Settled(s, paths)
  {
    StoredSameIff(s.data, Ever(s), Retained(s.dir, paths));
  }

  /** The charge of a failed spill covers what its leftovers can ever retain if and only if nothing was
      in flight to them when they were measured, or they were not measured and the reservation counts. */
  lemma ChargeCoversIff(s: State, w: nat, measured: bool)
    requires FilesOk(s) && CanMeasure(s, w, measured)
    ensures var charged := AfterMeasure(s, w, measured).writers[w].stage;
            RetainedBytes(s.dir, Ever(s), charged.kept) <= charged.bytes <==> !measured || Settled(s, charged.kept)
  {
    var x := s.writers[w];
    assert WriterOk(s, w);
    assert HeldPaths(x) == x.stage.kept;
    if measured {
      MeasurementCoversIff(s, x.stage.kept);
    } else {
      MeasureByName(s, x.stage.kept);
      LeftoverWithinReservation(s, w, x);
    }
  }

  /** Otherwise one more step is enough to outgrow what was measured. */
  lemma LateBytesOutgrow(s: State, paths: seq<Path>) returns (i: nat)
    requires NamesOk(s) && !Settled(s, paths)
    ensures i in s.late && CanLandLate(s, i, |s.late[i]|)
    ensures var s' := AfterLandLate(s, i, |s.late[i]|);
            RetainedBytes(s'.dir, s'.data, paths) > RetainedBytes(s.dir, s.data, paths)
  {
    var j :| j in Retained(s.dir, paths) && j in s.late && j < |s.data| && |s.late[j]| != |s.data[j]|;
    i := j;
    var s' := AfterLandLate(s, i, |s.late[i]|);
    StoredGrows(s.data, s'.data, Retained(s.dir, paths));
    StoredSameIff(s.data, s'.data, Retained(s.dir, paths));
  }

  /** Once the write in flight is over nothing lands in that file any more, and what is in flight to other files
      is as it was. */
  lemma SettlingEndsTheFlight(s: State, i: nat)
    requires Enabled(s, Settle(i))
    ensures var s' := Apply(s, Settle(i));
            && (forall n: nat :: !Enabled(s', LandLate(i, n)))
            && (forall j: nat, n: nat :: j != i && Enabled(s, LandLate(j, n)) ==> Enabled(s', LandLate(j, n)))
            && s'.data == s.data && s'.dir == s.dir
  {
  }
}
