/**
 Appending to, deleting and indexing sessions at the same time. Every operation runs step by step
 under a transcript lock per session and one index lock; any operation may die between two steps,
 which frees its locks.
 */
module TranscriptDeletion {
  import opened Common

  type Session = nat

  /** An appender carries the file identity its cursor was issued for: a stamp, or no file. */
  datatype Kind = Appender(cursor: Option<nat>) | Deleter | Saver

  datatype Stage =
    | Start
    | HasTranscript      // transcript lock taken
    | MayWrite           // appender: cursor is current, and an absent file is indexed
    | Written            // appender: bytes are on disk, projection update next
    | HasIndex           // index lock taken
    | RowRemoved         // deleter: index row gone, file not yet
    | IndexDone          // nothing left to do under the index lock
    | Closing            // nothing left to do under the transcript lock
    | Done

  datatype Op = Op(kind: Kind, session: Session, stage: Stage)

  datatype State = State(
    ops: seq<Op>,
    transcriptLock: map<Session, nat>, indexLock: Option<nat>,
    files: map<Session, nat>, indexed: set<Session>, stamps: nat)

  datatype Step = Begin(kind: Kind, session: Session) | Move(o: nat, ok: bool) | Die(o: nat)

  predicate WantsTranscript(op: Op) {
    op.stage.Start? && !op.kind.Saver?
  }

  predicate WantsIndex(op: Op) {
    (op.kind.Saver? && op.stage.Start?) || (op.kind.Deleter? && op.stage.HasTranscript?)
    || (op.kind.Appender? && op.stage.Written?)
  }

  /** The next step of an operation is blocked only by a lock that somebody else has. */
  predicate CanMove(s: State, o: nat) {
    && o < |s.ops| && !s.ops[o].stage.Done?
    && (WantsTranscript(s.ops[o]) ==> s.ops[o].session !in s.transcriptLock)
    && (WantsIndex(s.ops[o]) ==> s.indexLock.None?)
  }

  ghost predicate Enabled(s: State, step: Step) {
    match step
    case Begin(_, _) => true
    case Move(o, _) => CanMove(s, o)
    case Die(o) => o < |s.ops|
  }

  function FileOf(s: State, session: Session): Option<nat> {
    if session in s.files then Some(s.files[session]) else None
  }

  function Goto(s: State, o: nat, stage: Stage): State
    requires o < |s.ops|
  {
    s.(ops := s.ops[o := s.ops[o].(stage := stage)])
  }

  /** One step of operation `o`; `ok` says whether the file-system call of the step succeeds. */
  function AfterMove(s: State, o: nat, ok: bool): State
    requires CanMove(s, o)
  {
    var op := s.ops[o];
    match op.stage
    case Start =>
      if op.kind.Saver? then Goto(s, o, HasIndex).(indexLock := Some(o))
      else Goto(s, o, HasTranscript).(transcriptLock := s.transcriptLock[op.session := o])
    case HasTranscript =>
      if op.kind.Deleter? then Goto(s, o, HasIndex).(indexLock := Some(o))
      else if op.kind.Appender? && op.kind.cursor == FileOf(s, op.session)
              && (op.kind.cursor.Some? || op.session in s.indexed)
      then Goto(s, o, MayWrite)
      else Goto(s, o, Closing)
    case MayWrite =>
      if ok then Goto(s, o, Written).(files := s.files[op.session := s.stamps], stamps := s.stamps + 1)
      else Goto(s, o, Closing)
    case Written => Goto(s, o, HasIndex).(indexLock := Some(o))
    case HasIndex =>
      if !ok || op.kind.Appender? then Goto(s, o, IndexDone)
      else if op.kind.Saver? then Goto(s, o, IndexDone).(indexed := s.indexed + {op.session})
      else if op.session !in s.indexed then Goto(s, o, IndexDone)
      else Goto(s, o, RowRemoved).(indexed := s.indexed - {op.session})
    case RowRemoved => if ok then Goto(s, o, IndexDone).(files := s.files - {op.session}) else Goto(s, o, IndexDone)
    case IndexDone => Goto(s, o, if op.kind.Saver? then Done else Closing).(indexLock := None)
    case Closing => Goto(s, o, Done).(transcriptLock := s.transcriptLock - {op.session})
    case Done => s
  }

  predicate HoldsTranscript(op: Op) {
    !op.kind.Saver? && !op.stage.Start? && !op.stage.Done?
  }

  predicate HoldsIndex(op: Op) {
    op.stage.HasIndex? || op.stage.RowRemoved? || op.stage.IndexDone?
  }

  function AfterDie(s: State, o: nat): State
    requires o < |s.ops|
  {
    var op := s.ops[o];
    Goto(s, o, Done).(
      transcriptLock := if HoldsTranscript(op) then s.transcriptLock - {op.session} else s.transcriptLock,
      indexLock := if HoldsIndex(op) then None else s.indexLock)
  }

  ghost function Apply(s: State, step: Step): State
    requires Enabled(s, step)
  {
    match step
    case Begin(kind, session) => s.(ops := s.ops + [Op(kind, session, Start)])
    case Move(o, ok) => AfterMove(s, o, ok)
    case Die(o) => AfterDie(s, o)
  }

  // ---------------------------------------------------------------- invariant

  predicate StageFits(op: Op) {
    match op.kind
    case Appender(_) => !op.stage.RowRemoved?
    case Deleter => !op.stage.MayWrite? && !op.stage.Written?
    case Saver => op.stage.Start? || op.stage.HasIndex? || op.stage.IndexDone? || op.stage.Done?
  }

  ghost predicate OpOk(s: State, o: nat)
    requires o < |s.ops|
  {
    var op := s.ops[o];
    && StageFits(op)
    && (HoldsTranscript(op) ==> op.session in s.transcriptLock && s.transcriptLock[op.session] == o)
    && (HoldsIndex(op) <==> s.indexLock == Some(o))
    && (op.stage.MayWrite? ==> op.kind.cursor == FileOf(s, op.session) && (op.kind.cursor.None? ==>
          op.session in s.indexed))
    && (op.stage.RowRemoved? ==> op.session !in s.indexed)
  }

  ghost predicate Inv(s: State) {
    && (forall o: nat :: o < |s.ops| ==> OpOk(s, o))
    && (forall t :: t in s.transcriptLock ==>
          var o := s.transcriptLock[t]; o < |s.ops| && s.ops[o].session == t && HoldsTranscript(s.ops[o]))
    && (s.indexLock.Some? ==> s.indexLock.value < |s.ops| && HoldsIndex(s.ops[s.indexLock.value]))
    && (forall t :: t in s.files ==> s.files[t] < s.stamps)
  }

  /** Both locks have at most one holder. */
  lemma SameHolder(s: State, o: nat, p: nat)
    requires Inv(s) && o < |s.ops| && p < |s.ops| && HoldsTranscript(s.ops[o]) && HoldsTranscript(s.ops[p])
    requires s.ops[o].session == s.ops[p].session
    ensures o == p
  {
    assert OpOk(s, o) && OpOk(s, p);
  }

  lemma MoveKeepsOthers(s: State, o: nat, ok: bool, p: nat)
    requires Inv(s) && CanMove(s, o) && p < |s.ops| && p != o
    ensures OpOk(AfterMove(s, o, ok), p)
  {
    assert OpOk(s, o) && OpOk(s, p);
    if HoldsTranscript(s.ops[o]) && HoldsTranscript(s.ops[p]) && s.ops[o].session == s.ops[p].session {
      SameHolder(s, o, p);
    }
  }

  lemma MoveKeepsOwn(s: State, o: nat, ok: bool)
    requires Inv(s) && CanMove(s, o)
    ensures OpOk(AfterMove(s, o, ok), o)
  {
    assert OpOk(s, o);
  }

  lemma MoveKeepsTranscriptLock(s: State, o: nat, ok: bool)
    requires Inv(s) && CanMove(s, o)
    ensures var s' := AfterMove(s, o, ok);
            forall t :: t in s'.transcriptLock ==>
              var h := s'.transcriptLock[t]; h < |s'.ops| && s'.ops[h].session == t && HoldsTranscript(s'.ops[h])
  {
    assert OpOk(s, o);
  }

  lemma MoveKeepsIndexLock(s: State, o: nat, ok: bool)
    requires Inv(s) && CanMove(s, o)
    ensures var s' := AfterMove(s, o, ok);
            && |s'.ops| == |s.ops|
            && (s'.indexLock.Some? ==> s'.indexLock.value < |s'.ops| && HoldsIndex(s'.ops[s'.indexLock.value]))
            && (forall t :: t in s'.files ==> s'.files[t] < s'.stamps)
  {
    assert OpOk(s, o);
  }

  lemma MoveKeepsInv(s: State, o: nat, ok: bool)
    requires Inv(s) && CanMove(s, o)
    ensures Inv(AfterMove(s, o, ok))
  {
    MoveKeepsTranscriptLock(s, o, ok);
    MoveKeepsIndexLock(s, o, ok);
    MoveKeepsOwn(s, o, ok);
    forall p: nat | p < |s.ops| && p != o
      ensures OpOk(AfterMove(s, o, ok), p)
    {
      MoveKeepsOthers(s, o, ok, p);
    }
  }

  lemma DieKeepsInv(s: State, o: nat)
    requires Inv(s) && o < |s.ops|
    ensures Inv(AfterDie(s, o))
  {
    var s' := AfterDie(s, o);
    assert OpOk(s, o);
    forall p: nat | p < |s'.ops|
      ensures OpOk(s', p)
    {
      assert OpOk(s, p);
      if p != o && HoldsTranscript(s.ops[o]) && HoldsTranscript(s.ops[p]) && s.ops[o].session == s.ops[p].session {
        SameHolder(s, o, p);
      }
    }
  }

  lemma StepKeepsInv(s: State, step: Step)
    requires Inv(s) && Enabled(s, step)
    ensures Inv(Apply(s, step))
  {
    match step
    case Begin(kind, session) =>
      forall p: nat | p < |s.ops| + 1
        ensures OpOk(Apply(s, step), p)
      {
        if p < |s.ops| {
          assert OpOk(s, p);
        }
      }
    case Move(o, ok) => MoveKeepsInv(s, o, ok);
    case Die(o) => DieKeepsInv(s, o);
  }

  // ---------------------------------------------------------------- runs

  ghost predicate Follows(s: State, step: Step, s': State) {
    Enabled(s, step) && s' == Apply(s, step)
  }

  ghost predicate IsRun(states: seq<State>, steps: seq<Step>) {
    && |states| == |steps| + 1
    && states[0].ops == [] && states[0].transcriptLock == map[] && states[0].indexLock.None?
    && (forall t :: t in states[0].files ==> states[0].files[t] < states[0].stamps)
    && forall i :: 0 <= i < |steps| ==> Follows(states[i], steps[i], states[i + 1])
  }

  lemma {:induction false} RunKeepsInv(states: seq<State>, steps: seq<Step>, i: nat)
    requires IsRun(states, steps) && i < |states|
    ensures Inv(states[i])
  {
    if i > 0 {
      RunKeepsInv(states, steps, i - 1);
      assert Follows(states[i - 1], steps[i - 1], states[i - 1 + 1]);
      StepKeepsInv(states[i - 1], steps[i - 1]);
    }
  }

  /** The step that enters the session in the index. */
  predicate Indexes(s: State, step: Step, session: Session) {
    step.Move? && step.o < |s.ops| && s.ops[step.o] == Op(Saver, session, HasIndex)
  }

  /** A file appears only while its session is indexed, and a session is indexed only by a saver. */
  lemma OnlyIndexedSessionsGetFiles(s: State, step: Step, session: Session)
    requires Inv(s) && Enabled(s, step)
    ensures var s' := Apply(s, step);
            && (session !in s.files && session in s'.files ==> session in s.indexed)
            && (session !in s.indexed && session in s'.indexed ==> Indexes(s, step, session))
  {
    if step.Move? {
      assert OpOk(s, step.o);
    }
  }

  /** Once a session is deleted, no cursor of any kind brings its transcript back until the session
      is entered in the index again. */
  lemma {:induction false} DeletedStaysDeleted(states: seq<State>, steps: seq<Step>, i: nat, j: nat, session: Session)
    requires IsRun(states, steps) && i <= j < |states|
    requires session !in states[i].files && session !in states[i].indexed
    requires forall k :: i <= k < j ==> !Indexes(states[k], steps[k], session)
    ensures session !in states[j].files && session !in states[j].indexed
    decreases j
  {
    if i < j {
      DeletedStaysDeleted(states, steps, i, j - 1, session);
      RunKeepsInv(states, steps, j - 1);
      assert Follows(states[j - 1], steps[j - 1], states[j - 1 + 1]);
      assert !Indexes(states[j - 1], steps[j - 1], session);
      OnlyIndexedSessionsGetFiles(states[j - 1], steps[j - 1], session);
    }
  }

  /** A deletion whose calls all succeed leaves neither file nor row behind: between removing the
      row and unlinking the file nobody can write the file or index the session. */
  lemma DeletionIsComplete(s: State, o: nat)
    requires Inv(s) && CanMove(s, o) && s.ops[o].stage.RowRemoved?
    ensures s.ops[o].kind.Deleter? && s.ops[o].session !in AfterMove(s, o, true).files
    ensures s.ops[o].session !in s.indexed && s.ops[o].session !in AfterMove(s, o, true).indexed
    ensures forall p: nat, ok :: p != o && CanMove(s, p) ==>
              (s.ops[o].session in s.indexed <==> s.ops[o].session in AfterMove(s, p, ok).indexed)
    ensures forall p: nat, ok :: p != o && CanMove(s, p) ==>
              FileOf(AfterMove(s, p, ok), s.ops[o].session) == FileOf(s, s.ops[o].session)
  {
    assert OpOk(s, o);
    forall p: nat, ok | p != o && CanMove(s, p)
      ensures s.ops[o].session in s.indexed <==> s.ops[o].session in AfterMove(s, p, ok).indexed
      ensures FileOf(AfterMove(s, p, ok), s.ops[o].session) == FileOf(s, s.ops[o].session)
    {
      assert OpOk(s, p);
      if HoldsTranscript(s.ops[p]) && s.ops[o].session == s.ops[p].session {
        SameHolder(s, o, p);
      }
    }
  }

  /** From the moment a deletion has unlinked the file, the session has neither row nor file in any later
      state of the run, whatever cursors are used, until it is entered in the index again. */
  lemma FinishedDeletionIsFinal(states: seq<State>, steps: seq<Step>, i: nat, j: nat, o: nat)
    requires IsRun(states, steps) && i < j < |states| && steps[i] == Move(o, true)
    requires o < |states[i].ops| && states[i].ops[o].stage.RowRemoved?
    requires forall k :: i < k < j ==> !Indexes(states[k], steps[k], states[i].ops[o].session)
    ensures states[i].ops[o].session !in states[j].files && states[i].ops[o].session !in states[j].indexed
  {
    RunKeepsInv(states, steps, i);
    assert Follows(states[i], steps[i], states[i + 1]);
    DeletionIsComplete(states[i], o);
    DeletedStaysDeleted(states, steps, i + 1, j, states[i].ops[o].session);
  }

  /** The operation needs a lock that this one has. */
  predicate HeldUpBy(s: State, o: nat, p: nat) {
    && o < |s.ops| && p < |s.ops|
    && var session := s.ops[o].session;
       (|| (WantsTranscript(s.ops[o]) && session in s.transcriptLock && s.transcriptLock[session] == p)
        || (WantsIndex(s.ops[o]) && s.indexLock == Some(p)))
  }

  /** Each operation is held up by the next, and the last can move. */
  ghost predicate EndsWell(s: State, chain: seq<nat>) {
    && chain != [] && CanMove(s, chain[|chain| - 1])
    && forall i :: 0 <= i < |chain| - 1 ==> HeldUpBy(s, chain[i], chain[i + 1])
  }

  /** Whoever has the index lock needs nothing else. */
  lemma IndexHolderMoves(s: State)
    requires Inv(s) && s.indexLock.Some?
    ensures CanMove(s, s.indexLock.value)
  {
  }

  /** An operation past its transcript lock moves, or is held up by the holder of the index lock. */
  lemma InsideTranscript(s: State, o: nat) returns (chain: seq<nat>)
    requires Inv(s) && o < |s.ops| && !s.ops[o].stage.Done? && !WantsTranscript(s.ops[o])
    ensures EndsWell(s, chain) && chain[0] == o && |chain| <= 2
  {
    if WantsIndex(s.ops[o]) && s.indexLock.Some? {
      IndexHolderMoves(s);
      chain := [o, s.indexLock.value];
    } else {
      chain := [o];
    }
  }

  /** The transcript lock is always taken before the index lock, so from every unfinished operation,
      following who holds up whom leads in at most two steps to one that can move. */
  lemma NoDeadlock(states: seq<State>, steps: seq<Step>, i: nat, o: nat) returns (chain: seq<nat>)
    requires IsRun(states, steps) && i < |states| && o < |states[i].ops| && !states[i].ops[o].stage.Done?
    ensures EndsWell(states[i], chain) && chain[0] == o && |chain| <= 3
  {
    var s := states[i];
    RunKeepsInv(states, steps, i);
    if WantsTranscript(s.ops[o]) && s.ops[o].session in s.transcriptLock {
      var p := s.transcriptLock[s.ops[o].session];
      var rest := InsideTranscript(s, p);
      chain := [o] + rest;
      assert chain[1] == p;
      assert |rest| == 2 ==> HeldUpBy(s, rest[0], rest[0 + 1]);
    } else if WantsTranscript(s.ops[o]) {
      chain := [o];
    } else {
      chain := InsideTranscript(s, o);
    }
  }
}
