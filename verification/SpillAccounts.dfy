/**
 The byte budget along the spill protocol: what is reserved, what is owed, and how far the two can be
 from what is really on disk.
 */
module SpillAccounts {
  import opened Common
  import opened SpillFiles
  import opened SpillStore
  import opened SpillInvariant
  import opened SpillLate

  function Reserved(ws: seq<Writer>): nat {
    if ws == [] then 0 else Reserved(ws[..|ws| - 1]) + ws[|ws| - 1].reserved
  }

  function Owed(os: seq<Orphan>): nat {
    if os == [] then 0 else Owed(os[..|os| - 1]) + os[|os| - 1].bytes
  }

  /** What the groups could come to, all together. */
  function Exposed(os: seq<Orphan>): nat {
    if os == [] then 0 else Exposed(os[..|os| - 1]) + os[|os| - 1].most
  }

  function Debt(s: State): nat {
    Owed(s.orphans) + if s.retry.Some? then s.retry.value.bytes else 0
  }

  function Exposure(s: State): nat {
    Exposed(s.orphans) + if s.retry.Some? then s.retry.value.most else 0
  }

  ghost predicate ChargesOk(s: State) {
    && (forall k :: 0 <= k < |s.orphans| ==> s.orphans[k].bytes <= s.orphans[k].most)
    && (s.retry.Some? ==> s.retry.value.bytes <= s.retry.value.most)
  }

  /** Active bytes are the live reservations and debt is what the orphan groups were charged; what they
      could come to beyond that is within the slack, and so is any excess over the cap, or over what
      the directory already owed at startup. */
  ghost predicate BudgetOk(s: State) {
    && s.active == Reserved(s.writers) && s.debt == Debt(s)
    && ChargesOk(s) && Exposure(s) <= s.debt + s.slack
    && s.active + Exposure(s) <= Max(s.cap, s.startDebt) + s.slack
    && (!s.ready ==> s.startDebt == 0 && s.slack == 0)
  }

  ghost predicate Inv(s: State) {
    FilesOk(s) && LateOk(s) && BudgetOk(s)
  }

  // ---------------------------------------------------------------- sums

  lemma {:induction false} ReservedUpdate(ws: seq<Writer>, w: nat, writer: Writer)
    requires w < |ws|
    ensures Reserved(ws[w := writer]) == Reserved(ws) - ws[w].reserved + writer.reserved
    decreases |ws|
  {
    var last := |ws| - 1;
    if w == last {
      assert ws[w := writer][..last] == ws[..last];
    } else {
      assert ws[w := writer][..last] == ws[..last][w := writer];
      ReservedUpdate(ws[..last], w, writer);
    }
  }

  lemma {:induction false} ReservedAtLeast(ws: seq<Writer>, w: nat)
    requires w < |ws|
    ensures ws[w].reserved <= Reserved(ws)
    decreases |ws|
  {
    if w < |ws| - 1 {
      ReservedAtLeast(ws[..|ws| - 1], w);
    }
  }

  lemma {:induction false} SumsFirst(os: seq<Orphan>)
    requires os != []
    ensures Owed(os) == os[0].bytes + Owed(os[1..])
    ensures Exposed(os) == os[0].most + Exposed(os[1..])
    decreases |os|
  {
    if |os| > 1 {
      SumsFirst(os[..|os| - 1]);
      assert os[1..][..|os| - 2] == os[..|os| - 1][1..];
    }
  }

  lemma SumsLast(os: seq<Orphan>, o: Orphan)
    ensures Owed(os + [o]) == Owed(os) + o.bytes
    ensures Exposed(os + [o]) == Exposed(os) + o.most
  {
    assert (os + [o])[..|os|] == os;
  }

  lemma {:induction false} OwedWithinExposed(os: seq<Orphan>)
    requires forall k :: 0 <= k < |os| ==> os[k].bytes <= os[k].most
    ensures Owed(os) <= Exposed(os)
  {
    if os != [] {
      OwedWithinExposed(os[..|os| - 1]);
    }
  }

  // ---------------------------------------------------------------- every step keeps the accounts

  /** No saturating subtraction of the budget ever saturates. */
  lemma NothingSaturates(s: State, step: Step)
    requires BudgetOk(s) && Enabled(s, step)
    ensures step.FinishSpill? || step.FinishFailed? ==> s.writers[step.w].reserved <= s.active
    ensures step.EndRetry? ==> s.retry.value.bytes <= s.debt
  {
    if step.FinishSpill? || step.FinishFailed? {
      ReservedAtLeast(s.writers, step.w);
    }
  }

  /** Nothing but the files, one writer and the active bytes changes. */
  ghost predicate SameGroups(s: State, s': State) {
    && s'.cap == s.cap && s'.debt == s.debt && s'.orphans == s.orphans && s'.retry == s.retry
    && s'.ready == s.ready && s'.startDebt == s.startDebt && s'.slack == s.slack
  }

  /** A step of one writer: its reservation and the active bytes move together. */
  lemma WriterStepKeepsBudget(s: State, s': State, w: nat)
    requires BudgetOk(s) && w < |s.writers| && |s'.writers| == |s.writers| && SameGroups(s, s')
    requires s'.writers == s.writers[w := s'.writers[w]]
    requires s'.active == s.active + s'.writers[w].reserved - s.writers[w].reserved
    requires s'.active <= s.active || s'.active + s.debt <= s.cap
    ensures BudgetOk(s')
  {
    ReservedUpdate(s.writers, w, s'.writers[w]);
  }

  lemma ClaimKeepsBudget(s: State, id: RefId)
    requires BudgetOk(s) && CanClaim(s, id)
    ensures BudgetOk(AfterClaim(s, id))
  {
    assert AfterClaim(s, id).writers[..|s.writers|] == s.writers;
  }

  /** A step that changes files only. */
  lemma LandingKeepsBudget(s: State, s': State)
    requires BudgetOk(s) && SameGroups(s, s') && s'.writers == s.writers && s'.active == s.active
    ensures BudgetOk(s')
  {
  }

  lemma WriteKeepsBudget(s: State, w: nat, chunk: Bytes)
    requires BudgetOk(s) && CanWrite(s, w, chunk)
    ensures BudgetOk(AfterWrite(s, w, chunk))
  {
    WriterStepKeepsBudget(s, AfterWrite(s, w, chunk), w);
  }

  /** A step that changes one writer's stage and some names. */
  lemma StageKeepsBudget(s: State, s': State, w: nat)
    requires BudgetOk(s) && w < |s.writers| && |s'.writers| == |s.writers| && SameGroups(s, s')
    requires s'.writers == s.writers[w := s'.writers[w]] && s'.writers[w].reserved == s.writers[w].reserved
    requires s'.active == s.active
    ensures BudgetOk(s')
  {
    WriterStepKeepsBudget(s, s', w);
  }

  lemma BodyStepsKeepBudget(s: State, step: Step)
    requires BudgetOk(s) && CanBody(s, step)
    ensures BudgetOk(AfterBody(s, step))
  {
    match step
    case Claim(id) => ClaimKeepsBudget(s, id);
    case Look(w) => StageKeepsBudget(s, AfterLook(s, w), w);
    case GiveUp(w, unlinked) => StageKeepsBudget(s, AfterGiveUp(s, w, unlinked), w);
    case Write(w, chunk) => WriteKeepsBudget(s, w, chunk);
    case Land(w, n) => LandingKeepsBudget(s, AfterLand(s, w, n));
    case Flush(w) => StageKeepsBudget(s, AfterFlush(s, w), w);
    case LinkBody(w) => StageKeepsBudget(s, AfterLinkBody(s, w), w);
  }

  lemma FinishSpillKeepsBudget(s: State, w: nat)
    requires BudgetOk(s) && CanFinishSpill(s, w)
    ensures BudgetOk(AfterFinishSpill(s, w))
  {
    ReservedAtLeast(s.writers, w);
    WriterStepKeepsBudget(s, AfterFinishSpill(s, w), w);
  }

  lemma MetaStepsKeepBudget(s: State, step: Step)
    requires BudgetOk(s) && CanMeta(s, step)
    ensures BudgetOk(AfterMeta(s, step))
  {
    match step
    case ReserveMeta(w, metaBytes) => WriterStepKeepsBudget(s, AfterReserveMeta(s, w, metaBytes), w);
    case OpenMeta(w) => WriterStepKeepsBudget(s, AfterOpenMeta(s, w), w);
    case LandMeta(w, n) => LandingKeepsBudget(s, AfterLandMeta(s, w, n));
    case FlushMeta(w) => WriterStepKeepsBudget(s, AfterFlushMeta(s, w), w);
    case LinkMeta(w) => WriterStepKeepsBudget(s, AfterLinkMeta(s, w), w);
    case UnlinkAlias(w, ok) => WriterStepKeepsBudget(s, AfterUnlinkAlias(s, w, ok), w);
    case FinishSpill(w) => FinishSpillKeepsBudget(s, w);
  }

  lemma FinishFailedKeepsBudget(s: State, w: nat)
    requires BudgetOk(s) && CanFinishFailed(s, w) && WriterOk(s, w) && s.ready
    ensures BudgetOk(AfterFinishFailed(s, w))
  {
    ReservedAtLeast(s.writers, w);
    if s.writers[w].stage.kept == [] {
      WriterStepKeepsBudget(s, AfterFinishFailed(s, w), w);
    } else {
      var stage := s.writers[w].stage;
      ChargeKeepsBudget(s, AfterFinishFailed(s, w), w, Orphan(s.groups, stage.kept, stage.bytes, stage.most));
    }
  }

  /** A reservation is released, and a group that can come to no more than it is added. */
  lemma ChargeKeepsBudget(s: State, s': State, w: nat, o: Orphan)
    requires BudgetOk(s) && s.ready && w < |s.writers| && o.bytes <= o.most <= s.writers[w].reserved <= s.active
    requires |s'.writers| == |s.writers| && s'.writers == s.writers[w := s'.writers[w]] && s'.writers[w].reserved == 0
    requires s'.active == s.active - s.writers[w].reserved && s'.debt == s.debt + o.bytes
    requires s'.orphans == s.orphans + [o] && s'.slack == s.slack + (o.most - o.bytes)
    requires s'.cap == s.cap && s'.retry == s.retry && s'.ready && s'.startDebt == s.startDebt
    ensures BudgetOk(s')
  {
    ReservedUpdate(s.writers, w, s'.writers[w]);
    SumsLast(s.orphans, o);
  }

  lemma FailureStepsKeepBudget(s: State, step: Step)
    requires FilesOk(s) && BudgetOk(s) && CanFailure(s, step)
    ensures BudgetOk(AfterFailure(s, step))
  {
    match step
    case Fail(w) => WriterStepKeepsBudget(s, AfterFail(s, w), w);
    case UnlinkFailed(w, ok) => WriterStepKeepsBudget(s, AfterUnlinkFailed(s, w, ok), w);
    case Measure(w, measured) => WriterStepKeepsBudget(s, AfterMeasure(s, w, measured), w);
    case FinishFailed(w) =>
      assert WriterOk(s, w);
      FinishFailedKeepsBudget(s, w);
    case LandLate(i, n) => LandingKeepsBudget(s, AfterLandLate(s, i, n));
    case Settle(i) => LandingKeepsBudget(s, AfterSettle(s, i));
  }

  lemma PostponeKeepsBudget(s: State)
    requires BudgetOk(s) && CanPostpone(s)
    ensures BudgetOk(AfterPostpone(s))
  {
    SumsFirst(s.orphans);
    SumsLast(s.orphans[1..], s.orphans[0]);
  }

  lemma BeginRetryKeepsBudget(s: State)
    requires BudgetOk(s) && CanBeginRetry(s)
    ensures BudgetOk(AfterBeginRetry(s))
  {
    SumsFirst(s.orphans);
  }

  /** The retried group comes back with a new charge, and can come to no more than before. */
  lemma ReturnKeepsBudget(s: State, s': State, o: Orphan)
    requires BudgetOk(s) && s.ready && s.retry.Some? && o.bytes <= o.most <= s.retry.value.most
    requires s'.writers == s.writers && s'.active == s.active && s'.cap == s.cap && s'.ready
    requires s'.startDebt == s.startDebt
    requires s'.retry.None? && s'.orphans == s.orphans + [o] && s'.slack == s.slack + (o.most - o.bytes)
    requires s'.debt == SatSub(s.debt, s.retry.value.bytes) + o.bytes
    ensures BudgetOk(s')
  {
    SumsLast(s.orphans, o);
  }

  lemma EndRetryKeepsBudget(s: State, measured: bool)
    requires FilesOk(s) && BudgetOk(s) && CanEndRetry(s, measured)
    ensures BudgetOk(AfterEndRetry(s, measured))
  {
    var s', r := AfterEndRetry(s, measured), s.retry.value;
    if r.kept != [] {
      RetryNeverOutgrows(s);
      RetainedWithinEver(s, r.kept);
      ReturnKeepsBudget(s, s', s'.orphans[|s.orphans|]);
    }
  }

  lemma RecoverKeepsBudget(s: State, scan: seq<Path>, kept: seq<Path>, measured: bool)
    requires BudgetOk(s) && s.writers == [] && s.orphans == [] && s.retry.None? && CanRecover(s, scan, kept, measured)
    ensures BudgetOk(AfterRecover(s, scan, kept, measured))
  {
    var s' := AfterRecover(s, scan, kept, measured);
    if kept != [] {
      StartupDebt(s', s'.orphans[0]);
    }
  }

  /** At startup the one group is charged all it holds. */
  lemma StartupDebt(s: State, o: Orphan)
    requires s.writers == [] && s.active == 0 && s.ready && s.slack == 0 && s.retry.None?
    requires s.orphans == [o] && o.bytes == o.most == s.debt == s.startDebt
    ensures BudgetOk(s)
  {
    SumsLast([], o);
    assert [] + [o] == [o];
  }

  lemma ManageStepsKeepBudget(s: State, step: Step)
    requires FilesOk(s) && BudgetOk(s) && CanManage(s, step)
    ensures BudgetOk(AfterManage(s, step))
  {
    match step
    case Postpone => PostponeKeepsBudget(s);
    case BeginRetry => BeginRetryKeepsBudget(s);
    case UnlinkOrphan(_) =>
    case EndRetry(measured) => EndRetryKeepsBudget(s, measured);
    case Crash =>
    case RecoverInterrupted(_) =>
    case Recover(scan, kept, measured) => RecoverKeepsBudget(s, scan, kept, measured);
  }

  lemma StepKeepsBudget(s: State, step: Step)
    requires FilesOk(s) && BudgetOk(s) && Enabled(s, step)
    ensures BudgetOk(Apply(s, step))
  {
    if IsBodyStep(step) {
      BodyStepsKeepBudget(s, step);
    } else if IsMetaStep(step) {
      MetaStepsKeepBudget(s, step);
    } else if IsFailureStep(step) {
      FailureStepsKeepBudget(s, step);
    } else {
      ManageStepsKeepBudget(s, step);
    }
  }

  /** Every step of every party keeps the whole invariant. */
  lemma StepKeepsInv(s: State, step: Step)
    requires Inv(s) && Enabled(s, step)
    ensures Inv(Apply(s, step))
  {
    StepKeepsFiles(s, step);
    StepKeepsLate(s, step);
    StepKeepsBudget(s, step);
  }

  // ---------------------------------------------------------------- exact charges

  /** A step that measures leftovers while bytes are in flight to them. */
  ghost predicate MeasuresInFlight(s: State, step: Step) {
    match step
    case Measure(w, measured) => CanMeasure(s, w, measured) && measured && !Settled(s, s.writers[w].stage.kept)
    case EndRetry(measured) => CanEndRetry(s, measured) && measured && !Settled(s, s.retry.value.kept)
    case _ => false
  }

  /** So far every charge covers all that its leftovers can ever retain. */
  ghost predicate Exact(s: State) {
    s.slack == 0 && forall j: nat :: j < |s.writers| && s.writers[j].stage.Leaving? ==>
      s.writers[j].stage.most == s.writers[j].stage.bytes
  }

  lemma ExactMeasure(s: State, w: nat, measured: bool)
    requires NamesOk(s) && Exact(s) && CanMeasure(s, w, measured) && (measured ==> Settled(s, s.writers[w].stage.kept))
    ensures Exact(AfterMeasure(s, w, measured))
  {
    if measured {
      MeasurementCoversIff(s, s.writers[w].stage.kept);
      RetainedWithinEver(s, s.writers[w].stage.kept);
    }
  }

  lemma ExactFailureSteps(s: State, step: Step)
    requires NamesOk(s) && Exact(s) && CanFailure(s, step) && !MeasuresInFlight(s, step)
    ensures Exact(AfterFailure(s, step))
  {
    if step.Measure? {
      ExactMeasure(s, step.w, step.measured);
    }
  }

  lemma ExactManageSteps(s: State, step: Step)
    requires FilesOk(s) && BudgetOk(s) && Exact(s) && CanManage(s, step) && !MeasuresInFlight(s, step)
    ensures Exact(AfterManage(s, step))
  {
    if step.EndRetry? {
      if step.measured {
        MeasurementCoversIff(s, s.retry.value.kept);
      } else {
        ExactGroups(s);
      }
    }
  }

  /** Without slack every group was charged all it could come to. */
  lemma ExactGroups(s: State)
    requires BudgetOk(s) && s.slack == 0
    ensures s.retry.Some? ==> s.retry.value.most == s.retry.value.bytes
    ensures forall k :: 0 <= k < |s.orphans| ==> s.orphans[k].most == s.orphans[k].bytes
  {
    OwedWithinExposed(s.orphans);
    SameSums(s.orphans);
  }

  lemma {:induction false} SameSums(os: seq<Orphan>)
    requires forall k :: 0 <= k < |os| ==> os[k].bytes <= os[k].most
    ensures Exposed(os) <= Owed(os) ==> forall k :: 0 <= k < |os| ==> os[k].most == os[k].bytes
  {
    if os != [] {
      SameSums(os[..|os| - 1]);
      OwedWithinExposed(os[..|os| - 1]);
    }
  }

  /** Charges stay exact as long as nothing is measured while bytes are in flight to it. */
  lemma StepKeepsExact(s: State, step: Step)
    requires Inv(s) && Exact(s) && Enabled(s, step) && !MeasuresInFlight(s, step)
    ensures Exact(Apply(s, step))
  {
    if IsBodyStep(step) {
      ExactBodySteps(s, step);
    } else if IsMetaStep(step) {
      ExactMetaSteps(s, step);
    } else if IsFailureStep(step) {
      ExactFailureSteps(s, step);
    } else {
      ExactManageSteps(s, step);
    }
  }

  lemma ExactBodySteps(s: State, step: Step)
    requires Exact(s) && CanBody(s, step)
    ensures Exact(AfterBody(s, step))
  {
  }

  lemma ExactMetaSteps(s: State, step: Step)
    requires Exact(s) && CanMeta(s, step)
    ensures Exact(AfterMeta(s, step))
  {
  }
}
