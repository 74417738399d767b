/**
 What the operations on a session achieve: who changes files and index rows and how, and that an append, a
 deletion and a save each do their work when nobody refuses them.
 */
module TranscriptEffects {
  import opened Common
  import opened TranscriptDeletion

  /** The step is a successful call of an operation at this stage. */
  predicate Succeeds(s: State, step: Step, stage: Stage) {
    step.Move? && step.ok && step.o < |s.ops| && s.ops[step.o].stage == stage
  }

  /** A file changes only when an appender writes it, and disappears only when a deleter unlinks it. */
  lemma FilesChangeOnlySo(s: State, step: Step)
    requires Inv(s) && Enabled(s, step)
    ensures Apply(s, step).files ==
            if Succeeds(s, step, MayWrite) then s.files[s.ops[step.o].session := s.stamps]
            else if Succeeds(s, step, RowRemoved) then s.files - {s.ops[step.o].session}
            else s.files
    ensures Succeeds(s, step, MayWrite) ==> s.ops[step.o].kind.Appender?
    ensures Succeeds(s, step, RowRemoved) ==> s.ops[step.o].kind.Deleter?
  {
    if step.Move? {
      assert OpOk(s, step.o);
    }
  }

  /** A row is entered only by a saver, and removed only by a deleter. */
  lemma RowsChangeOnlySo(s: State, step: Step)
    requires Inv(s) && Enabled(s, step)
    ensures Apply(s, step).indexed ==
            if !Succeeds(s, step, HasIndex) then s.indexed
            else match s.ops[step.o].kind
                 case Saver => s.indexed + {s.ops[step.o].session}
                 case Deleter => s.indexed - {s.ops[step.o].session}
                 case Appender(_) => s.indexed
  {
  }

  /** The cursor stands for the file as it is, and the session is indexed if there is none. */
  predicate IsCurrent(s: State, op: Op) {
    op.kind.Appender? && op.kind.cursor == FileOf(s, op.session) && (op.kind.cursor.Some? || op.session in s.indexed)
  }

  /** Nothing is ever written but behind the very file the cursor was issued for. */
  lemma OnlyCurrentCursorsWrite(states: seq<State>, steps: seq<Step>, i: nat)
    requires IsRun(states, steps) && i < |steps| && Succeeds(states[i], steps[i], MayWrite)
    ensures IsCurrent(states[i], states[i].ops[steps[i].o])
  {
    RunKeepsInv(states, steps, i);
    assert OpOk(states[i], steps[i].o);
  }

  /** The lock taken, an appender goes on to write if and only if its cursor is current. */
  lemma WritesIffCurrent(s: State, o: nat, ok: bool)
    requires CanMove(s, o) && s.ops[o].kind.Appender? && s.ops[o].stage.HasTranscript?
    ensures AfterMove(s, o, ok).ops[o].stage == if IsCurrent(s, s.ops[o]) then MayWrite else Closing
    ensures AfterMove(s, o, ok).files == s.files && AfterMove(s, o, ok).indexed == s.indexed
  {
  }

  // ---------------------------------------------------------------- one operation from beginning to end

  /** `n` successful moves of one operation, one after the other. */
  ghost predicate MovesTo(s: State, o: nat, n: nat, s': State)
    decreases n
  {
    if n == 0 then s' == s else CanMove(s, o) && MovesTo(AfterMove(s, o, true), o, n - 1, s')
  }

  ghost predicate AtStart(s: State, o: nat, kind: Kind) {
    o < |s.ops| && s.ops[o].kind == kind && s.ops[o].stage.Start?
  }

  /** The operation is done, and the locks are as they were. */
  ghost predicate IsFinished(s: State, o: nat, s': State) {
    && o < |s.ops| && s'.ops == s.ops[o := s.ops[o].(stage := Done)]
    && s'.transcriptLock == s.transcriptLock && s'.indexLock == s.indexLock
  }

  /** A deletion that nothing refuses removes row and file and nothing else. */
  lemma DeleterDeletes(s: State, o: nat) returns (s': State)
    requires AtStart(s, o, Deleter) && s.ops[o].session !in s.transcriptLock && s.indexLock.None?
    requires s.ops[o].session in s.indexed
    ensures MovesTo(s, o, 6, s') && IsFinished(s, o, s')
    ensures s'.files == s.files - {s.ops[o].session} && s'.indexed == s.indexed - {s.ops[o].session}
  {
    var s1 := AfterMove(s, o, true);
    var s2 := AfterMove(s1, o, true);
    var s3 := AfterMove(s2, o, true);
    var s4 := AfterMove(s3, o, true);
    var s5 := AfterMove(s4, o, true);
    s' := AfterMove(s5, o, true);
    assert MovesTo(s5, o, 1, s') && MovesTo(s4, o, 2, s') && MovesTo(s3, o, 3, s') && MovesTo(s2, o, 4, s');
  }

  /** A deletion of a session that is not indexed leaves row and file alone. */
  lemma DeleterOfNothing(s: State, o: nat) returns (s': State)
    requires AtStart(s, o, Deleter) && s.ops[o].session !in s.transcriptLock && s.indexLock.None?
    requires s.ops[o].session !in s.indexed
    ensures MovesTo(s, o, 5, s') && IsFinished(s, o, s') && s'.files == s.files && s'.indexed == s.indexed
  {
    var s1 := AfterMove(s, o, true);
    var s2 := AfterMove(s1, o, true);
    var s3 := AfterMove(s2, o, true);
    var s4 := AfterMove(s3, o, true);
    s' := AfterMove(s4, o, true);
    assert MovesTo(s4, o, 1, s') && MovesTo(s3, o, 2, s') && MovesTo(s2, o, 3, s');
  }

  /** A save enters the row. */
  lemma SaverSaves(s: State, o: nat) returns (s': State)
    requires AtStart(s, o, Saver) && s.indexLock.None?
    ensures MovesTo(s, o, 3, s') && IsFinished(s, o, s')
    ensures s'.files == s.files && s'.indexed == s.indexed + {s.ops[o].session}
  {
    var s1 := AfterMove(s, o, true);
    var s2 := AfterMove(s1, o, true);
    s' := AfterMove(s2, o, true);
    assert MovesTo(s2, o, 1, s') && MovesTo(s1, o, 2, s');
  }

  /** An append with a current cursor writes the file, which is a new one to every cursor issued before. */
  lemma AppenderAppends(s: State, o: nat, cursor: Option<nat>) returns (s': State)
    requires AtStart(s, o, Appender(cursor)) && s.ops[o].session !in s.transcriptLock && s.indexLock.None?
    requires IsCurrent(s, s.ops[o])
    ensures MovesTo(s, o, 7, s') && IsFinished(s, o, s')
    ensures s'.files == s.files[s.ops[o].session := s.stamps] && s'.indexed == s.indexed && s'.stamps == s.stamps + 1
  {
    var s1 := AfterMove(s, o, true);
    var s2 := AfterMove(s1, o, true);
    var s3 := AfterMove(s2, o, true);
    s' := AppenderCloses(s3, o);
    assert MovesTo(s2, o, 5, s') && MovesTo(s1, o, 6, s');
  }

  /** After the write it looks into the index and gives its locks back. */
  lemma AppenderCloses(s: State, o: nat) returns (s': State)
    requires o < |s.ops| && s.ops[o].kind.Appender? && s.ops[o].stage.Written? && s.indexLock.None?
    ensures MovesTo(s, o, 4, s') && s'.ops == s.ops[o := s.ops[o].(stage := Done)]
    ensures s'.transcriptLock == s.transcriptLock - {s.ops[o].session} && s'.indexLock.None?
    ensures s'.files == s.files && s'.indexed == s.indexed && s'.stamps == s.stamps
  {
    var s1 := AfterMove(s, o, true);
    var s2 := AfterMove(s1, o, true);
    var s3 := AfterMove(s2, o, true);
    s' := AfterMove(s3, o, true);
    assert MovesTo(s3, o, 1, s') && MovesTo(s2, o, 2, s') && MovesTo(s1, o, 3, s');
  }

  // ---------------------------------------------------------------- every operation comes to an end

  function StepsLeft(stage: Stage): nat {
    match stage
    case Start => 8
    case HasTranscript => 7
    case MayWrite => 6
    case Written => 5
    case HasIndex => 4
    case RowRemoved => 3
    case IndexDone => 2
    case Closing => 1
    case Done => 0
  }

  /** A move brings the operation nearer to its end; no step changes another operation, or what it is. */
  lemma EveryStepCounts(s: State, step: Step, o: nat)
    requires Inv(s) && Enabled(s, step) && o < |s.ops|
    ensures o < |Apply(s, step).ops|
    ensures Apply(s, step).ops[o].kind == s.ops[o].kind && Apply(s, step).ops[o].session == s.ops[o].session
    ensures if step.Begin? || step.o != o then Apply(s, step).ops[o] == s.ops[o]
            else if step.Die? then Apply(s, step).ops[o].stage.Done?
            else StepsLeft(Apply(s, step).ops[o].stage) < StepsLeft(s.ops[o].stage)
  {
    assert OpOk(s, o);
  }

  /** An operation that is done, or died, has no lock. */
  lemma DoneHoldsNoLock(s: State, o: nat)
    requires Inv(s) && o < |s.ops| && s.ops[o].stage.Done?
    ensures s.indexLock != Some(o) && forall t :: t in s.transcriptLock ==> s.transcriptLock[t] != o
  {
    assert OpOk(s, o);
  }
}
