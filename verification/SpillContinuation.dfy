/**
 From every state in which some orphan group could come to more than it was charged, the protocol can go
 on to exceed the cap: what is in flight lands, a new spill fills the cap, and a retry finds the rest.
 */
module SpillContinuation {
  import opened Common
  import opened SpillFiles
  import opened SpillStore
  import opened SpillInvariant
  import opened SpillLate
  import opened SpillAccounts
  import opened SpillTheorems

  // ---------------------------------------------------------------- continuations

  /** Some steps lead from one state to the other. */
  ghost predicate Reaches(s: State, t: State) {
    exists states: seq<State>, steps: seq<Step> :: IsPath(states, steps, s, t)
  }

  ghost predicate IsPath(states: seq<State>, steps: seq<Step>, s: State, t: State) {
    && |states| == |steps| + 1 && states[0] == s && states[|steps|] == t
    && forall n: nat :: n < |steps| ==> Goes(states, steps, n)
  }

  ghost predicate Goes(states: seq<State>, steps: seq<Step>, n: nat)
    requires n < |steps| < |states|
  {
    Follows(states[n], steps[n], states[n + 1])
  }

  lemma ReachesItself(s: State)
    ensures Reaches(s, s)
  {
    assert IsPath([s], [], s, s);
  }

  /** What is reached is consistent again. */
  lemma ReachedIsConsistent(s: State, t: State)
    requires Inv(s) && Reaches(s, t)
    ensures Inv(t)
  {
    var states, steps :| IsPath(states, steps, s, t);
    for n := 0 to |steps|
      invariant Inv(states[n])
    {
      assert Goes(states, steps, n);
      StepKeepsInv(states[n], steps[n]);
    }
  }

  lemma PathOn(states: seq<State>, steps: seq<Step>, s: State, t: State, step: Step, u: State)
    requires IsPath(states, steps, s, t) && Follows(t, step, u)
    ensures IsPath(states + [u], steps + [step], s, u)
  {
    forall n: nat | n < |steps + [step]|
      ensures Goes(states + [u], steps + [step], n)
    {
      if n < |steps| {
        assert Goes(states, steps, n);
      }
    }
  }

  lemma ReachesOn(s: State, t: State, step: Step, u: State)
    requires Reaches(s, t) && Follows(t, step, u)
    ensures Reaches(s, u)
  {
    var states, steps :| IsPath(states, steps, s, t);
    PathOn(states, steps, s, t, step, u);
  }

  // One lemma per step taken below.

  lemma Claiming(s: State, t: State, id: RefId)
    requires Reaches(s, t) && CanClaim(t, id)
    ensures Reaches(s, AfterClaim(t, id))
  {
    ReachesOn(s, t, Claim(id), AfterClaim(t, id));
  }

  lemma LookingOn(s: State, t: State, w: nat)
    requires Reaches(s, t) && CanLook(t, w)
    ensures Reaches(s, AfterLook(t, w))
  {
    ReachesOn(s, t, Look(w), AfterLook(t, w));
  }

  lemma Writing(s: State, t: State, w: nat, chunk: Bytes)
    requires Reaches(s, t) && CanWrite(t, w, chunk)
    ensures Reaches(s, AfterWrite(t, w, chunk))
  {
    ReachesOn(s, t, Write(w, chunk), AfterWrite(t, w, chunk));
  }

  lemma Landing(s: State, t: State, i: nat, n: nat)
    requires Reaches(s, t) && CanLandLate(t, i, n)
    ensures Reaches(s, AfterLandLate(t, i, n))
  {
    ReachesOn(s, t, LandLate(i, n), AfterLandLate(t, i, n));
  }

  lemma Postponing(s: State, t: State)
    requires Reaches(s, t) && CanPostpone(t)
    ensures Reaches(s, AfterPostpone(t))
  {
    ReachesOn(s, t, Postpone, AfterPostpone(t));
  }

  lemma RetryingNow(s: State, t: State)
    requires Reaches(s, t) && CanBeginRetry(t)
    ensures Reaches(s, AfterBeginRetry(t))
  {
    ReachesOn(s, t, BeginRetry, AfterBeginRetry(t));
  }

  lemma Refusing(s: State, t: State, ok: bool)
    requires Reaches(s, t) && CanUnlinkOrphan(t, ok)
    ensures Reaches(s, AfterUnlinkOrphan(t, ok))
  {
    ReachesOn(s, t, UnlinkOrphan(ok), AfterUnlinkOrphan(t, ok));
  }

  lemma Ending(s: State, t: State, measured: bool)
    requires Reaches(s, t) && CanEndRetry(t, measured)
    ensures Reaches(s, AfterEndRetry(t, measured))
  {
    ReachesOn(s, t, EndRetry(measured), AfterEndRetry(t, measured));
  }

  // ---------------------------------------------------------------- an undercharged group

  /** Group `k` could come to more than it was charged. */
  ghost predicate Undercharged(s: State, k: nat) {
    k < |s.orphans| && RetainedBytes(s.dir, Ever(s), s.orphans[k].paths) > s.orphans[k].bytes
  }

  ghost predicate Over(s: State) {
    s.active + s.debt > Max(s.cap, s.startDebt)
  }

  ghost predicate Ripe(s: State, t: State, k: nat) {
    Reaches(s, t) && t.ready && t.startDebt <= t.cap && Undercharged(t, k)
  }

  lemma SameEver(s: State, t: State)
    requires t.data == s.data && t.late == s.late
    ensures Ever(t) == Ever(s)
  {
  }

  // ---------------------------------------------------------------- a retry under way is ended first

  lemma {:induction false} RefuseAll(s: State, t: State, k: nat) returns (u: State)
    requires Ripe(s, t, k) && t.retry.Some?
    ensures Ripe(s, u, k) && u.retry.Some? && u.retry.value.todo == []
    decreases if t.retry.Some? then |t.retry.value.todo| else 0
  {
    if t.retry.value.todo == [] {
      u := t;
    } else {
      var next := AfterUnlinkOrphan(t, false);
      Refusing(s, t, false);
      SameEver(t, next);
      u := RefuseAll(s, next, k);
    }
  }

  /** A retry that leaves the charge as it is. */
  lemma EndTheRetry(s: State, t: State, k: nat) returns (u: State)
    requires Ripe(s, t, k) && t.retry.Some?
    ensures Ripe(s, u, k) && u.retry.None?
  {
    var refused := RefuseAll(s, t, k);
    u := AfterEndRetry(refused, false);
    Ending(s, refused, false);
    SameEver(refused, u);
    assert u.orphans[k] == refused.orphans[k];
  }

  // ---------------------------------------------------------------- everything lands

  /** The first `n` inodes hold all they ever will. */
  function LandedTo(s: State, n: nat): State
    requires n <= |s.data|
  {
    s.(data := Ever(s)[..n] + s.data[n..])
  }

  lemma LandedOneMore(t: State, i: nat)
    requires i < |t.data|
    ensures LandedTo(t, i).data[i] == t.data[i]
    ensures LandedTo(t, i + 1).data == LandedTo(t, i).data[i := Ever(t)[i]]
  {
  }

  lemma LandOne(t: State, i: nat)
    requires NamesOk(t) && i < |t.data| && i in t.late
    ensures CanLandLate(LandedTo(t, i), i, |t.late[i]|)
    ensures AfterLandLate(LandedTo(t, i), i, |t.late[i]|) == LandedTo(t, i + 1)
  {
    LandedOneMore(t, i);
    assert t.data[i] <= t.late[i];
    assert t.late[i][..|t.late[i]|] == t.late[i];
  }

  lemma LandAll(s: State, t: State) returns (u: State)
    requires Inv(s) && Reaches(s, t)
    ensures Reaches(s, u) && u == LandedTo(t, |t.data|)
  {
    LandedNone(t);
    u := t;
    for n := 0 to |t.data|
      invariant Reaches(s, u) && u == LandedTo(t, n)
    {
      u := LandNext(s, t, n, u);
    }
  }

  lemma LandedNone(t: State)
    ensures LandedTo(t, 0) == t
  {
    assert Ever(t)[..0] + t.data[0..] == t.data;
  }

  lemma LandedSame(t: State, i: nat)
    requires i < |t.data| && i !in t.late
    ensures LandedTo(t, i + 1) == LandedTo(t, i)
  {
    LandedOneMore(t, i);
    assert LandedTo(t, i + 1).data == LandedTo(t, i).data;
  }

  lemma LandNext(s: State, t: State, i: nat, u: State) returns (u': State)
    requires Inv(s) && Reaches(s, t) && i < |t.data| && Reaches(s, u) && u == LandedTo(t, i)
    ensures Reaches(s, u') && u' == LandedTo(t, i + 1)
  {
    if i in t.late {
      ReachedIsConsistent(s, t);
      LandOne(t, i);
      Landing(s, u, i, |t.late[i]|);
      u' := AfterLandLate(u, i, |t.late[i]|);
    } else {
      LandedSame(t, i);
      u' := u;
    }
  }

  lemma LandEverything(s: State, t: State, k: nat) returns (u: State)
    requires Inv(s) && Ripe(s, t, k)
    ensures Ripe(s, u, k) && u.data == Ever(u) && u.retry == t.retry && u.active == t.active && u.debt == t.debt
    ensures u.cap == t.cap
  {
    u := LandAll(s, t);
    assert u.data == Ever(t);
    assert Ever(u) == Ever(t);
  }

  // ---------------------------------------------------------------- a new spill fills the cap

  lemma {:induction false} FreshId(names: set<Path>) returns (id: RefId)
    ensures forall p :: p in names ==> p.id < id
    decreases |names|
  {
    if names == {} {
      id := 0;
    } else {
      var p :| p in names;
      var below := FreshId(names - {p});
      id := if p.id < below then below else p.id + 1;
    }
  }

  /** A claimed part changes nothing about what older names retain. */
  lemma ClaimKeepsRetained(t: State, u: State, id: RefId, paths: seq<Path>)
    requires DirOk(t.dir, t.data) && (forall p :: p in t.dir ==> p.id < id) && (forall p :: p in paths ==> p in t.dir)
    requires u.dir == t.dir[BodyPart(id) := |t.data|] && u.data == t.data + [[]] && u.late == t.late
    requires |t.data| !in t.late
    ensures RetainedBytes(u.dir, Ever(u), paths) == RetainedBytes(t.dir, Ever(t), paths)
  {
    assert BodyPart(id) !in t.dir && Body(id) !in t.dir && Meta(id) !in t.dir;
    assert forall p :: p in paths ==> p.id < id;
    assert forall p :: p in paths ==> (AliasesCommittedPair(u.dir, p) <==> AliasesCommittedPair(t.dir, p));
    assert Retained(u.dir, paths) == Retained(t.dir, paths);
    StoredFrame(Ever(t), Ever(u), Retained(t.dir, paths));
  }

  lemma ClaimKeepsUndercharged(s: State, t: State, k: nat, id: RefId)
    requires Inv(s) && Ripe(s, t, k) && t.retry.None? && forall p :: p in t.dir ==> p.id < id
    ensures CanClaim(t, id) && Ripe(s, AfterClaim(t, id), k)
  {
    var u := AfterClaim(t, id);
    ReachedIsConsistent(s, t);
    assert GroupOk(t, t.orphans[k].group, t.orphans[k].paths, t.orphans[k].most);
    ClaimKeepsRetained(t, u, id, t.orphans[k].paths);
    Claiming(s, t, id);
  }

  /** The newest writer, still looking for its targets, of which none is there. */
  ghost predicate Looking(t: State, absent: nat) {
    && t.writers != [] && absent < 3 && t.writers[|t.writers| - 1].stage == Checking(absent)
    && var id := t.writers[|t.writers| - 1].id;
       Target(id, 0) !in t.dir && Target(id, 1) !in t.dir && Target(id, 2) !in t.dir
  }

  /** Nothing but the newest writer changed. */
  ghost predicate SameBooks(t: State, u: State) {
    && u.retry == t.retry && |u.writers| == |t.writers| && u.active == t.active && u.debt == t.debt && u.cap == t.cap
  }

  lemma LookOnce(s: State, t: State, k: nat, absent: nat) returns (u: State)
    requires Ripe(s, t, k) && Looking(t, absent)
    ensures Ripe(s, u, k) && SameBooks(t, u)
    ensures if absent == 2 then u.writers[|u.writers| - 1].stage.Streaming? else Looking(u, absent + 1)
  {
    var w := |t.writers| - 1;
    u := AfterLook(t, w);
    LookingOn(s, t, w);
    SameEver(t, u);
  }

  /** The writer finds every target absent. */
  lemma LookAtAll(s: State, t: State, k: nat) returns (u: State)
    requires Ripe(s, t, k) && Looking(t, 0)
    ensures Ripe(s, u, k) && SameBooks(t, u) && u.writers[|u.writers| - 1].stage.Streaming?
  {
    u := LookOnce(s, t, k, 0);
    u := LookOnce(s, u, k, 1);
    u := LookOnce(s, u, k, 2);
  }

  lemma StartWriter(s: State, t: State, k: nat) returns (u: State)
    requires Inv(s) && Ripe(s, t, k) && t.retry.None?
    ensures Ripe(s, u, k) && u.retry.None? && u.writers != []
    ensures u.writers[|u.writers| - 1].stage.Streaming? && u.active == t.active && u.debt == t.debt && u.cap == t.cap
  {
    var id := FreshId(t.dir.Keys);
    ClaimKeepsUndercharged(s, t, k, id);
    var claimed := AfterClaim(t, id);
    NoTargets(t, id);
    u := LookAtAll(s, claimed, k);
  }

  lemma NoTargets(t: State, id: RefId)
    requires CanClaim(t, id) && forall p :: p in t.dir ==> p.id < id
    ensures Looking(AfterClaim(t, id), 0)
  {
    assert Body(id) !in t.dir && MetaPart(id) !in t.dir && Meta(id) !in t.dir;
  }

  /** A chunk of `n` bytes. */
  function Chunk(n: nat): Bytes {
    seq(n, i => 0)
  }

  lemma FillTheCap(s: State, t: State, k: nat) returns (u: State)
    requires Inv(s) && Ripe(s, t, k) && t.retry.None? && t.active + t.debt <= t.cap
    ensures Ripe(s, u, k) && u.retry.None? && u.active + u.debt == u.cap
  {
    var started := StartWriter(s, t, k);
    var w, n := |started.writers| - 1, started.cap - started.active - started.debt;
    u := AfterWrite(started, w, Chunk(n));
    Writing(s, started, w, Chunk(n));
    SameEver(started, u);
  }

  // ---------------------------------------------------------------- the group's turn comes

  /** The cap is full and nothing is in flight. */
  ghost predicate Full(t: State) {
    t.retry.None? && t.active + t.debt == t.cap && t.data == Ever(t)
  }

  lemma PostponeOnce(s: State, t: State, k: nat) returns (u: State)
    requires Ripe(s, t, k) && Full(t) && k > 0
    ensures Ripe(s, u, k - 1) && Full(u)
  {
    u := AfterPostpone(t);
    Postponing(s, t);
    SameEver(t, u);
    assert u.orphans[k - 1] == t.orphans[k];
  }

  lemma BringForward(s: State, t: State, k: nat) returns (u: State)
    requires Ripe(s, t, k) && Full(t)
    ensures Ripe(s, u, 0) && Full(u)
  {
    u := t;
    var n := k;
    while n > 0
      invariant Ripe(s, u, n) && Full(u)
    {
      u := PostponeOnce(s, u, n);
      n := n - 1;
    }
  }

  /** The group is being retried, and what it retains is already more than its charge. */
  ghost predicate Retrying(s: State, t: State, paths: seq<Path>) {
    && Reaches(s, t) && t.startDebt <= t.cap && t.retry.Some? && t.active + t.debt == t.cap
    && paths == t.retry.value.kept + t.retry.value.todo && RetainedBytes(t.dir, t.data, paths) > t.retry.value.bytes
  }

  lemma StartRetry(s: State, t: State) returns (u: State)
    requires Ripe(s, t, 0) && Full(t)
    ensures Retrying(s, u, t.orphans[0].paths)
  {
    u := AfterBeginRetry(t);
    RetryingNow(s, t);
    NothingBefore(t.orphans[0].paths);
  }

  lemma NothingBefore(paths: seq<Path>)
    ensures [] + paths == paths
  {
  }

  lemma MoveOver(kept: seq<Path>, todo: seq<Path>)
    requires todo != []
    ensures (kept + [todo[0]]) + todo[1..] == kept + todo
  {
  }

  lemma RefuseOnce(s: State, t: State, paths: seq<Path>) returns (u: State)
    requires Retrying(s, t, paths) && t.retry.value.todo != []
    ensures Retrying(s, u, paths) && u.retry.value.todo == t.retry.value.todo[1..]
  {
    u := AfterUnlinkOrphan(t, false);
    Refusing(s, t, false);
    MoveOver(t.retry.value.kept, t.retry.value.todo);
  }

  lemma RefuseAgain(s: State, t: State, paths: seq<Path>) returns (u: State)
    requires Retrying(s, t, paths)
    ensures Retrying(s, u, paths) && u.retry.value.todo == []
  {
    u := t;
    while u.retry.value.todo != []
      invariant Retrying(s, u, paths)
      decreases |u.retry.value.todo|
    {
      u := RefuseOnce(s, u, paths);
    }
  }

  /** Measuring finds it, and the debt grows past what the cap left. */
  lemma RetryMeasuresMore(s: State, t: State, paths: seq<Path>) returns (u: State)
    requires Inv(s) && Retrying(s, t, paths) && t.retry.value.todo == []
    ensures Reaches(s, u) && Over(u)
  {
    var r := t.retry.value;
    assert r.kept + [] == r.kept;
    ReachedIsConsistent(s, t);
    u := AfterEndRetry(t, true);
    NothingRetained(t);
    Ending(s, t, true);
    assert r.bytes <= t.debt;
  }

  lemma NothingRetained(t: State)
    ensures RetainedBytes(t.dir, t.data, []) == 0
  {
    assert Retained(t.dir, []) == {};
    StoredNothing(t.data);
  }

  /**
   From every reachable state that is past startup and owes no more from startup than the cap, if some
   group could ever come to more than it was charged, then some continuation exceeds the cap.
   */
  lemma UnderchargeCanExceedTheCap(states: seq<State>, steps: seq<Step>, i: nat, k: nat) returns (u: State)
    requires IsRun(states, steps) && i < |states| && states[i].ready && states[i].startDebt <= states[i].cap
    requires Undercharged(states[i], k)
    ensures Reaches(states[i], u) && Over(u)
  {
    var s := states[i];
    RunKeepsInv(states, steps, i);
    ReachesItself(s);
    var t := s;
    if t.retry.Some? {
      t := EndTheRetry(s, s, k);
    }
    u := Overrun(s, t, k);
  }

  lemma Overrun(s: State, t: State, k: nat) returns (u: State)
    requires Inv(s) && Ripe(s, t, k) && t.retry.None?
    ensures Reaches(s, u) && Over(u)
  {
    if t.active + t.debt > t.cap {
      u := t;
    } else {
      var full := FillTheCap(s, t, k);
      var landed := LandEverything(s, full, k);
      var first := BringForward(s, landed, k);
      var retrying := StartRetry(s, first);
      var refused := RefuseAgain(s, retrying, first.orphans[0].paths);
      u := RetryMeasuresMore(s, refused, first.orphans[0].paths);
    }
  }
}
