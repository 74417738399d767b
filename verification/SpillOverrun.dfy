/**
 A run in which active bytes and debt exceed the cap: the one byte of a failed spill is still in flight
 when its leftover is measured, lands afterwards, and a later retry finds it.
 */
module SpillOverrun {
  import opened Common
  import opened SpillFiles
  import opened SpillStore
  import opened SpillInvariant
  import opened SpillLate
  import opened SpillAccounts
  import opened SpillTheorems

  const X: Bytes := [0]
  const P := BodyPart(0)
  const Q := BodyPart(1)

  /** A state of the scene, with a cap of one byte. */
  function Scene(dir: Dir, data: Inodes, late: map<nat, Bytes>, holder: map<Path, Holder>, writers: seq<Writer>,
                 active: nat, debt: nat, orphans: seq<Orphan>, retry: Option<Retry>, slack: nat, groups: nat): State
  {
    State(dir, data, late, holder, map[], writers, 1, active, debt, orphans, retry, true, 0, slack, groups)
  }

  const EMPTY := Scene(map[], [], map[], map[], [], 0, 0, [], None, 0, 0)

  function First(stage: Stage): Writer {
    Writer(0, 0, if stage.Checking? then [] else X, 0, [], if stage.Checking? || stage.Gone? then 0 else 1, stage)
  }

  function Second(stage: Stage): Writer {
    Writer(1, 1, if stage.Checking? then [] else X, 0, [], if stage.Checking? then 0 else 1, stage)
  }

  function One(stage: Stage, late: map<nat, Bytes>): State {
    Scene(map[P := 0], [[]], late, map[P := ByWriter(0)], [First(stage)], First(stage).reserved, 0, [], None, 0, 0)
  }

  /** The leftover was charged nothing and could come to one byte. */
  function Charged(data: Inodes): State {
    Scene(map[P := 0], data, map[0 := X], map[P := ByGroup(0)], [First(Gone)], 0, 0, [Orphan(0, [P], 0, 1)], None, 1, 1)
  }

  function Two(stage: Stage, orphans: seq<Orphan>, retry: Option<Retry>, debt: nat): State {
    Scene(map[P := 0, Q := 1], [X, []], map[0 := X], map[P := ByGroup(0), Q := ByWriter(1)],
          [First(Gone), Second(stage)],
          Second(stage).reserved, debt, orphans, retry, 1, 1)
  }

  const WAITING := [Orphan(0, [P], 0, 1)]
  const RETRYING := Two(Streaming, [], Some(Retry(0, [P], [], 0, 1)), 0)
  const REFUSED := Two(Streaming, [], Some(Retry(0, [], [P], 0, 1)), 0)
  const START := EMPTY.(ready := false)
  const OVER := Two(Streaming, [Orphan(0, [P], 1, 1)], None, 1)

  ghost predicate Goes(s: State, step: Step, s': State) {
    Enabled(s, step) && Apply(s, step) == s'
  }

  // ---------------------------------------------------------------- the steps, one by one

  lemma Startup()
    ensures Goes(START, Recover([], [], true), EMPTY)
  {
    assert CanRecover(START, [], [], true);
  }

  lemma FirstClaims()
    ensures Goes(EMPTY, Claim(0), One(Checking(0), map[]))
    ensures forall k: nat :: k < 2 ==> Goes(One(Checking(k), map[]), Look(0), One(Checking(k + 1), map[]))
  {
  }

  /** Streaming, with nothing handed over yet. */
  const OPEN := One(Checking(0), map[]).(writers := [First(Checking(0)).(stage := Streaming)])

  lemma FirstWrites()
    ensures Goes(One(Checking(2), map[]), Look(0), OPEN)
    ensures Goes(OPEN, Write(0, X), One(Streaming, map[]))
  {
    assert [] + X == X;
  }

  lemma FirstFails()
    ensures Goes(One(Streaming, map[]), Fail(0), One(Failing([P], []), map[0 := X]))
  {
  }

  lemma UnlinkIsRefused()
    ensures Goes(One(Failing([P], []), map[0 := X]), UnlinkFailed(0, false), One(Failing([], [P]), map[0 := X]))
  {
    assert [P][1..] == [] && [] + [P] == [P];
  }

  lemma Measured(dir: Dir, data: Inodes)
    requires P in dir && dir[P] == 0 && |data| >= 1 && !AliasesCommittedPair(dir, P)
    ensures RetainedBytes(dir, data, [P]) == |data[0]|
  {
    assert Retained(dir, [P]) == {0};
    StoredNothing(data);
    StoredAdd(data, {}, 0);
    assert {} + {0} == {0};
  }

  /** The leftover is measured while its byte is in flight. */
  lemma FirstIsMeasured()
    ensures Goes(One(Failing([], [P]), map[0 := X]), Measure(0, true), One(Leaving([P], 0, 1), map[0 := X]))
    ensures MeasuresInFlight(One(Failing([], [P]), map[0 := X]), Measure(0, true))
  {
    var s := One(Failing([], [P]), map[0 := X]);
    Measured(s.dir, s.data);
    Measured(s.dir, Ever(s));
    assert Retained(s.dir, [P]) == {0};
  }

  lemma FirstIsCharged()
    ensures Goes(One(Leaving([P], 0, 1), map[0 := X]), FinishFailed(0), Charged([[]]))
  {
    var s := One(Leaving([P], 0, 1), map[0 := X]);
    assert CanFinishFailed(s, 0);
    assert HandOver(s.holder, [P], 0) == map[P := ByGroup(0)];
    assert AfterFinishFailed(s, 0).writers == [First(Gone)];
  }

  lemma ByteLands()
    ensures Goes(Charged([[]]), LandLate(0, 1), Charged([X]))
  {
    assert X[..1] == X;
  }

  lemma SecondClaims()
    ensures Goes(Charged([X]), Claim(1), Two(Checking(0), WAITING, None, 0))
    ensures forall k: nat :: k < 2 ==>
              Goes(Two(Checking(k), WAITING, None, 0), Look(1), Two(Checking(k + 1), WAITING, None, 0))
  {
    assert [X] + [[]] == [X, []];
  }

  const OPEN_AGAIN := Two(Checking(0), WAITING, None, 0)
    .(writers := [First(Gone), Second(Checking(0)).(stage := Streaming)])

  /** The second spill fills the cap. */
  lemma SecondWrites()
    ensures Goes(Two(Checking(2), WAITING, None, 0), Look(1), OPEN_AGAIN)
    ensures Goes(OPEN_AGAIN, Write(1, X), Two(Streaming, WAITING, None, 0))
  {
    assert [] + X == X;
  }

  lemma RetryIsRefused()
    ensures Goes(Two(Streaming, WAITING, None, 0), BeginRetry, RETRYING)
    ensures Goes(RETRYING, UnlinkOrphan(false), REFUSED)
  {
    assert [P][1..] == [] && [] + [P] == [P];
  }

  /** Measured again, the leftover now holds the byte. */
  lemma RetryFindsTheByte()
    ensures Goes(REFUSED, EndRetry(true), OVER)
  {
    var s := REFUSED;
    Measured(s.dir, s.data);
    Measured(s.dir, Ever(s));
  }

  // ---------------------------------------------------------------- the run

  ghost predicate Reachable(s: State) {
    exists states, steps :: RunsTo(states, steps, s)
  }

  ghost predicate RunsTo(states: seq<State>, steps: seq<Step>, s: State) {
    IsRun(states, steps) && states[|steps|] == s
  }

  lemma ReachableOn(s: State, step: Step, s': State)
    requires Reachable(s) && Goes(s, step, s')
    ensures Reachable(s')
  {
    var states, steps :| RunsTo(states, steps, s);
    RunGoesOn(states, steps, s, step, s');
  }

  lemma RunGoesOn(states: seq<State>, steps: seq<Step>, s: State, step: Step, s': State)
    requires RunsTo(states, steps, s) && Follows(s, step, s')
    ensures RunsTo(states + [s'], steps + [step], s')
  {
    OneMoreLink(states, steps, step, s');
  }

  lemma OneMoreLink(states: seq<State>, steps: seq<Step>, step: Step, s: State)
    requires |states| == |steps| + 1 && Linked(states, steps, |steps|) && Follows(states[|steps|], step, s)
    ensures Linked(states + [s], steps + [step], |steps + [step]|)
  {
    LinkedOn(states, steps, |steps|, s, step);
  }

  lemma StartIsReachable()
    ensures Reachable(START)
  {
    assert RunsTo([START], [], START);
  }

  lemma FirstStreams()
    ensures Reachable(One(Checking(2), map[]))
  {
    StartIsReachable();
    Startup();
    ReachableOn(START, Recover([], [], true), EMPTY);
    FirstClaims();
    ReachableOn(EMPTY, Claim(0), One(Checking(0), map[]));
    ReachableOn(One(Checking(0), map[]), Look(0), One(Checking(1), map[]));
    ReachableOn(One(Checking(1), map[]), Look(0), One(Checking(2), map[]));
  }

  lemma FirstHasFailed()
    ensures Reachable(One(Failing([P], []), map[0 := X]))
  {
    FirstStreams();
    FirstWrites();
    ReachableOn(One(Checking(2), map[]), Look(0), OPEN);
    ReachableOn(OPEN, Write(0, X), One(Streaming, map[]));
    FirstFails();
    ReachableOn(One(Streaming, map[]), Fail(0), One(Failing([P], []), map[0 := X]));
  }

  /** The one measurement of the run that comes too early. */
  lemma TooEarly()
    ensures Reachable(One(Failing([], [P]), map[0 := X]))
    ensures MeasuresInFlight(One(Failing([], [P]), map[0 := X]), Measure(0, true))
    ensures Reachable(One(Leaving([P], 0, 1), map[0 := X]))
  {
    FirstHasFailed();
    UnlinkIsRefused();
    ReachableOn(One(Failing([P], []), map[0 := X]), UnlinkFailed(0, false), One(Failing([], [P]), map[0 := X]));
    FirstIsMeasured();
    ReachableOn(One(Failing([], [P]), map[0 := X]), Measure(0, true), One(Leaving([P], 0, 1), map[0 := X]));
  }

  lemma LateByteHasLanded()
    ensures Reachable(Charged([X]))
  {
    TooEarly();
    FirstIsCharged();
    ReachableOn(One(Leaving([P], 0, 1), map[0 := X]), FinishFailed(0), Charged([[]]));
    ByteLands();
    ReachableOn(Charged([[]]), LandLate(0, 1), Charged([X]));
  }

  lemma SecondStreams()
    ensures Reachable(Two(Checking(2), WAITING, None, 0))
  {
    LateByteHasLanded();
    SecondClaims();
    ReachableOn(Charged([X]), Claim(1), Two(Checking(0), WAITING, None, 0));
    ReachableOn(Two(Checking(0), WAITING, None, 0), Look(1), Two(Checking(1), WAITING, None, 0));
    ReachableOn(Two(Checking(1), WAITING, None, 0), Look(1), Two(Checking(2), WAITING, None, 0));
  }

  lemma SecondHasWritten()
    ensures Reachable(Two(Streaming, WAITING, None, 0))
  {
    SecondStreams();
    SecondWrites();
    ReachableOn(Two(Checking(2), WAITING, None, 0), Look(1), OPEN_AGAIN);
    ReachableOn(OPEN_AGAIN, Write(1, X), Two(Streaming, WAITING, None, 0));
  }

  /** The cap is exceeded at the end of this run. */
  lemma CapCanBeExceeded()
    ensures Reachable(OVER) && OVER.active + OVER.debt > Max(OVER.cap, OVER.startDebt)
  {
    SecondHasWritten();
    RetryIsRefused();
    ReachableOn(Two(Streaming, WAITING, None, 0), BeginRetry, RETRYING);
    ReachableOn(RETRYING, UnlinkOrphan(false), REFUSED);
    RetryFindsTheByte();
    ReachableOn(REFUSED, EndRetry(true), OVER);
  }
}
