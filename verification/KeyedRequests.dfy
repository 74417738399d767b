/**
 What a caller of the keyed locks gets: the keys it asked for and no others, exclusion between all who
 ask for a common key, service in the order of arrival at each mutex, and an end of every operation.
 */
module KeyedRequests {
  import opened Common
  import opened KeyedLocks

  // ---------------------------------------------------------------- trimming

  ghost predicate AllWhitespace(s: string) {
    forall i :: 0 <= i < |s| ==> IsWhitespace(s[i])
  }

  /** Trimming takes white space off both ends, and nothing else. */
  lemma {:induction false} TrimTakesWhitespaceOff(s: string) returns (before: string, after: string)
    ensures s == before + Trim(s) + after && AllWhitespace(before) && AllWhitespace(after)
    decreases |s|
  {
    before, after := [], [];
    if s != [] && IsWhitespace(s[0]) {
      before, after := TrimTakesWhitespaceOff(s[1..]);
      OneMoreBefore(s[0], before, Trim(s), after);
      before := [s[0]] + before;
    } else if s != [] && IsWhitespace(s[|s| - 1]) {
      before, after := TrimTakesWhitespaceOff(s[..|s| - 1]);
      AppendAssociates(before + Trim(s), after, [s[|s| - 1]]);
      after := after + [s[|s| - 1]];
    }
  }

  lemma OneMoreBefore(c: char, before: string, middle: string, after: string)
    ensures ([c] + before) + middle + after == [c] + (before + middle + after)
  {
  }

  /** What is left neither begins nor ends with white space. */
  lemma {:induction false} TrimmedEnds(s: string)
    requires Trim(s) != []
    ensures !IsWhitespace(Trim(s)[0]) && !IsWhitespace(Trim(s)[|Trim(s)| - 1])
    decreases |s|
  {
    if IsWhitespace(s[0]) {
      TrimmedEnds(s[1..]);
    } else if IsWhitespace(s[|s| - 1]) {
      TrimmedEnds(s[..|s| - 1]);
    }
  }

  /** Keys are ordered like words in a dictionary: a prefix comes first, else the first difference decides. */
  ghost predicate Differ(a: string, b: string, n: nat) {
    n <= |a| && n < |b| && a[..n] == b[..n] && (n == |a| || a[n] < b[n])
  }

  lemma {:induction false} LessIsLexicographic(a: string, b: string)
    ensures Less(a, b) <==> exists n: nat :: Differ(a, b, n)
  {
    if Less(a, b) {
      if a == [] || a[0] < b[0] {
        assert Differ(a, b, 0);
      } else {
        LessIsLexicographic(a[1..], b[1..]);
        var n: nat :| Differ(a[1..], b[1..], n);
        assert a[..n + 1] == [a[0]] + a[1..][..n] && b[..n + 1] == [b[0]] + b[1..][..n];
        assert Differ(a, b, n + 1);
      }
    }
    if n: nat :| Differ(a, b, n) {
      if n > 0 {
        assert a[0] == a[..n][0] && b[0] == b[..n][0];
        assert a[1..][..n - 1] == a[..n][1..] && b[1..][..n - 1] == b[..n][1..];
        assert Differ(a[1..], b[1..], n - 1);
        LessIsLexicographic(a[1..], b[1..]);
      }
    }
  }

  // ---------------------------------------------------------------- the keys that were asked for

  /** The key is one of these, trimmed, and not blank. */
  ghost predicate AsksFor(keys: seq<string>, key: string) {
    key != [] && exists i :: 0 <= i < |keys| && Trim(keys[i]) == key
  }

  /** An operation keeps its keys. */
  lemma KeysStay(s: State, step: Step, o: nat)
    requires Enabled(s, step) && o < |s.ops|
    ensures o < |Apply(s, step).ops| && Apply(s, step).ops[o].keys == s.ops[o].keys
  {
  }

  lemma ArrivalGetsItsKeys(s: State, keys: seq<string>, key: string)
    ensures |AfterArrive(s, keys).ops| == |s.ops| + 1
    ensures key in AfterArrive(s, keys).ops[|s.ops|].keys <==> AsksFor(keys, key)
  {
    assert AsksFor(keys, key) <==> key != [] && Mentions(keys, key);
  }

  /** In every later state the operation is for exactly the keys its caller asked for. */
  lemma {:induction false} RequestedKeys(states: seq<State>, steps: seq<Step>, k: nat, n: nat, key: string)
    requires IsRun(states, steps) && k < n < |states| && steps[k].Arrive?
    ensures |states[k].ops| < |states[n].ops|
    ensures key in states[n].ops[|states[k].ops|].keys <==> AsksFor(steps[k].keys, key)
  {
    assert Follows(states[n - 1], steps[n - 1], states[n - 1 + 1]);
    if n == k + 1 {
      ArrivalGetsItsKeys(states[k], steps[k].keys, key);
    } else {
      RequestedKeys(states, steps, k, n - 1, key);
      KeysStay(states[n - 1], steps[n - 1], |states[k].ops|);
    }
  }

  /** Whoever has its whole guard holds every one of its keys. */
  lemma GuardHoldsEveryKey(s: State, o: nat, key: string)
    requires Inv(s) && o < |s.ops| && Guarded(s.ops[o]) && key in s.ops[o].keys
    ensures HoldsKey(s, o, key)
  {
    assert OpOk(s, o);
    var i: nat :| i < |s.ops[o].keys| && s.ops[o].keys[i] == key;
    assert Holds(s.ops[o], i);
  }

  /** Two calls that ask for a common key never have their guards at the same time. */
  lemma CommonKeyExcludes(states: seq<State>, steps: seq<Step>, k: nat, l: nat, n: nat, key: string)
    requires IsRun(states, steps) && k < n < |states| && l < n && k != l && steps[k].Arrive? && steps[l].Arrive?
    requires AsksFor(steps[k].keys, key) && AsksFor(steps[l].keys, key)
    ensures |states[k].ops| < |states[n].ops| && |states[l].ops| < |states[n].ops|
    ensures !(Guarded(states[n].ops[|states[k].ops|]) && Guarded(states[n].ops[|states[l].ops|]))
  {
    var s, o, p := states[n], |states[k].ops|, |states[l].ops|;
    RequestedKeys(states, steps, k, n, key);
    RequestedKeys(states, steps, l, n, key);
    RunKeepsInv(states, steps, n);
    if k < l {
      RequestedKeys(states, steps, k, l, key);
    } else {
      RequestedKeys(states, steps, l, k, key);
    }
    if Guarded(s.ops[o]) && Guarded(s.ops[p]) {
      GuardHoldsEveryKey(s, o, key);
      GuardHoldsEveryKey(s, p, key);
      MutualExclusion(s, o, p, key);
    }
  }

  // ---------------------------------------------------------------- the registry prunes itself

  /** Whoever enters the registry leaves in it exactly the entries somebody still refers to. */
  lemma EnteringPrunes(s: State, o: nat, key: string)
    requires CanEnter(s, o)
    ensures var s' := AfterEnter(s, o);
            key in s'.registry <==> key in s.registry && Alive(s', s.registry[key])
    ensures key in AfterEnter(s, o).registry ==> AfterEnter(s, o).registry[key] == s.registry[key]
  {
    var s' := AfterEnter(s, o);
    assert forall p: nat, i: nat :: p < |s.ops| ==> (Refers(s'.ops[p], i) <==> Refers(s.ops[p], i));
    forall m: nat
      ensures Alive(s', m) <==> Alive(s, m)
    {
      SameReferences(s, s', m);
      SameReferences(s', s, m);
    }
  }

  lemma SameReferences(s: State, s': State, m: nat)
    requires |s'.ops| == |s.ops|
    requires forall p: nat :: p < |s.ops| ==>
               s'.ops[p].locks == s.ops[p].locks && s'.ops[p].dropped == s.ops[p].dropped
    ensures Alive(s, m) ==> Alive(s', m)
  {
    if o: nat, i: nat :| o < |s.ops| && Refers(s.ops[o], i) && s.ops[o].locks[i] == m {
      assert Refers(s'.ops[o], i);
    }
  }

  // ---------------------------------------------------------------- first come, first served

  /** The first waits for the mutex ahead of the second. */
  ghost predicate Ahead(s: State, m: nat, o: nat, p: nat) {
    m < |s.mutexes| && exists i, j :: 0 <= i < j < |s.mutexes[m].queue|
                                      && s.mutexes[m].queue[i] == o && s.mutexes[m].queue[j] == p
  }

  /** The operation has given up its guard, or its wait for it. */
  ghost predicate HasQuit(s: State, p: nat) {
    p < |s.ops| && (s.ops[p].phase.Releasing? || s.ops[p].phase.Done?)
  }

  lemma {:induction false} WithoutKeepsOrder(queue: seq<nat>, gone: nat, i: nat, j: nat)
    returns (i': nat, j': nat)
    requires i < j < |queue| && queue[i] != gone && queue[j] != gone
    ensures i' < j' < |Without(queue, gone)|
    ensures Without(queue, gone)[i'] == queue[i] && Without(queue, gone)[j'] == queue[j]
    decreases |queue|
  {
    if i == 0 {
      i' := 0;
      j' := WithoutKeeps(queue[1..], gone, j - 1);
      j' := j' + 1;
    } else {
      i', j' := WithoutKeepsOrder(queue[1..], gone, i - 1, j - 1);
      if queue[0] != gone {
        i', j' := i' + 1, j' + 1;
      }
    }
  }

  lemma {:induction false} WithoutKeeps(queue: seq<nat>, gone: nat, j: nat) returns (j': nat)
    requires j < |queue| && queue[j] != gone
    ensures j' < |Without(queue, gone)| && Without(queue, gone)[j'] == queue[j]
    decreases |queue|
  {
    if j == 0 {
      j' := 0;
    } else {
      j' := WithoutKeeps(queue[1..], gone, j - 1);
      if queue[0] != gone {
        j' := j' + 1;
      }
    }
  }

  /** While the one ahead neither gets the mutex nor gives up, the one behind does not get it. */
  lemma StepKeepsAhead(s: State, step: Step, m: nat, o: nat, p: nat)
    requires Inv(s) && Enabled(s, step) && Ahead(s, m, o, p) && step != Grant(o) && step != Quit(o)
    ensures step != Grant(p) && (Ahead(Apply(s, step), m, o, p) || HasQuit(Apply(s, step), p))
  {
    var queue := s.mutexes[m].queue;
    var i, j :| 0 <= i < j < |queue| && queue[i] == o && queue[j] == p;
    assert MutexOk(s, m);
    match step
    case Wait(w) => assert Apply(s, step).mutexes[m].queue[..|queue|] == queue;
    case Grant(w) => GrantKeepsAhead(s, w, m, i, j);
    case Quit(w) => QuitKeepsAhead(s, w, m, i, j);
    case Arrive(_) => assert Apply(s, step).mutexes[m].queue == queue;
    case Enter(_) => assert Apply(s, step).mutexes[m].queue == queue;
    case Resolve(_) => assert Apply(s, step).mutexes[m].queue == queue;
    case Leave(_) => assert Apply(s, step).mutexes[m].queue == queue;
    case Drop(_) => assert Apply(s, step).mutexes[m].queue == queue;
  }

  lemma GrantKeepsAhead(s: State, w: nat, m: nat, i: nat, j: nat)
    requires Inv(s) && CanGrant(s, w) && m < |s.mutexes| && i < j < |s.mutexes[m].queue|
    requires s.mutexes[m].queue[i] != w
    ensures s.mutexes[m].queue[j] != w
    ensures Ahead(AfterGrant(s, w), m, s.mutexes[m].queue[i], s.mutexes[m].queue[j])
  {
    var queue, queue' := s.mutexes[m].queue, AfterGrant(s, w).mutexes[m].queue;
    assert MutexOk(s, m);
    if s.ops[w].locks[s.ops[w].taken] == m {
      assert queue' == queue[1..];
      assert queue'[i - 1] == queue[i] && queue'[j - 1] == queue[j];
    } else {
      assert queue' == queue;
      assert queue[j] in queue;
    }
  }

  lemma QuitKeepsAhead(s: State, w: nat, m: nat, i: nat, j: nat)
    requires Inv(s) && CanQuit(s, w) && m < |s.mutexes| && i < j < |s.mutexes[m].queue|
    requires s.mutexes[m].queue[i] != w
    ensures Ahead(AfterQuit(s, w), m, s.mutexes[m].queue[i], s.mutexes[m].queue[j])
            || HasQuit(AfterQuit(s, w), s.mutexes[m].queue[j])
  {
    var queue, queue' := s.mutexes[m].queue, AfterQuit(s, w).mutexes[m].queue;
    if queue[j] != w {
      if queue' != queue {
        var i', j' := WithoutKeepsOrder(queue, w, i, j);
        assert queue'[i'] == queue[i] && queue'[j'] == queue[j];
      }
    }
  }

  lemma QuitIsFinal(s: State, step: Step, p: nat)
    requires Enabled(s, step) && HasQuit(s, p)
    ensures HasQuit(Apply(s, step), p) && step != Grant(p)
  {
  }

  /**
   Mutexes are granted in the order in which operations began to wait: nobody gets one while somebody who
   waited for it before still does.
   */
  lemma NobodyJumpsTheQueue(states: seq<State>, steps: seq<Step>, i: nat, j: nat, m: nat, o: nat, p: nat)
    requires IsRun(states, steps) && i <= j < |steps| && Ahead(states[i], m, o, p)
    requires forall n :: i <= n <= j ==> steps[n] != Grant(o) && steps[n] != Quit(o)
    ensures steps[j] != Grant(p)
  {
    AheadUntil(states, steps, i, j, m, o, p);
    AheadAfter(states, steps, j, m, o, p);
  }

  /** The one behind stays behind, or has given up. */
  ghost predicate Behind(s: State, m: nat, o: nat, p: nat) {
    Ahead(s, m, o, p) || HasQuit(s, p)
  }

  lemma AheadAfter(states: seq<State>, steps: seq<Step>, n: nat, m: nat, o: nat, p: nat)
    requires IsRun(states, steps) && n < |steps| && Behind(states[n], m, o, p)
    requires steps[n] != Grant(o) && steps[n] != Quit(o)
    ensures steps[n] != Grant(p) && Behind(states[n + 1], m, o, p)
  {
    RunKeepsInv(states, steps, n);
    assert Follows(states[n], steps[n], states[n + 1]);
    if Ahead(states[n], m, o, p) {
      StepKeepsAhead(states[n], steps[n], m, o, p);
    } else {
      QuitIsFinal(states[n], steps[n], p);
    }
  }

  lemma {:induction false} AheadUntil(states: seq<State>, steps: seq<Step>, i: nat, j: nat, m: nat, o: nat, p: nat)
    requires IsRun(states, steps) && i <= j < |states| && Ahead(states[i], m, o, p)
    requires forall n :: i <= n < j ==> steps[n] != Grant(o) && steps[n] != Quit(o)
    ensures Behind(states[j], m, o, p)
    decreases j
  {
    if i < j {
      AheadUntil(states, steps, i, j - 1, m, o, p);
      AheadAfter(states, steps, j - 1, m, o, p);
    }
  }

  /** Whoever begins to wait is behind all who already do. */
  lemma WaitersQueueUp(s: State, o: nat, p: nat)
    requires CanWait(s, o)
    ensures var m := s.ops[o].locks[s.ops[o].taken];
            p in s.mutexes[m].queue ==> Ahead(AfterWait(s, o), m, p, o)
  {
    var m := s.ops[o].locks[s.ops[o].taken];
    var queue, queue' := s.mutexes[m].queue, AfterWait(s, o).mutexes[m].queue;
    if p in queue {
      var i :| 0 <= i < |queue| && queue[i] == p;
      assert queue'[i] == p && queue'[|queue|] == o;
    }
  }

  // ---------------------------------------------------------------- every operation comes to an end

  /** How many steps an operation may still take. */
  function StepsLeft(op: Op): int {
    match op.phase
    case Queued => 4 * |op.keys| + 4
    case Resolving => 4 * |op.keys| + 3 - |op.locks|
    case Acquiring => 3 * |op.locks| + 2 - 2 * op.taken - (if op.waiting then 1 else 0)
    case Releasing => |op.locks| + 1 - op.dropped
    case Done => 0
  }

  predicate IsOf(step: Step, o: nat) {
    !step.Arrive? && step.o == o
  }

  /** A step of an operation brings its end nearer; one of somebody else does not touch it. */
  lemma EveryStepCounts(s: State, step: Step, o: nat)
    requires Inv(s) && Enabled(s, step) && o < |s.ops|
    ensures o < |Apply(s, step).ops|
    ensures if IsOf(step, o) then 0 <= StepsLeft(Apply(s, step).ops[o]) < StepsLeft(s.ops[o])
            else Apply(s, step).ops[o] == s.ops[o]
  {
    assert OpOk(s, o);
  }

  /** How often the operation was on the move between two states. */
  function StepsOf(steps: seq<Step>, o: nat, i: nat, j: nat): nat
    requires i <= j <= |steps|
  {
    if i == j then 0 else StepsOf(steps, o, i, j - 1) + if IsOf(steps[j - 1], o) then 1 else 0
  }

  lemma {:induction false} StepsAreBounded(states: seq<State>, steps: seq<Step>, o: nat, i: nat, j: nat)
    requires IsRun(states, steps) && i <= j < |states| && o < |states[i].ops|
    ensures o < |states[j].ops| && StepsOf(steps, o, i, j) + StepsLeft(states[j].ops[o]) <= StepsLeft(states[i].ops[o])
    decreases j
  {
    if i < j {
      StepsAreBounded(states, steps, o, i, j - 1);
      RunKeepsInv(states, steps, j - 1);
      assert Follows(states[j - 1], steps[j - 1], states[j - 1 + 1]);
      EveryStepCounts(states[j - 1], steps[j - 1], o);
    }
  }

  /**
   An operation takes at most four steps per key and four more, whatever the others do; together with the
   absence of deadlocks nobody waits for ever for operations that go on.
   */
  lemma OperationsEnd(states: seq<State>, steps: seq<Step>, k: nat, j: nat)
    requires IsRun(states, steps) && k < j < |states| && steps[k].Arrive?
    ensures |states[k].ops| < |states[j].ops|
    ensures StepsOf(steps, |states[k].ops|, k + 1, j) <= 4 * |states[j].ops[|states[k].ops|].keys| + 4
  {
    var o := |states[k].ops|;
    assert Follows(states[k], steps[k], states[k + 1]);
    StepsAreBounded(states, steps, o, k + 1, j);
    RunKeepsInv(states, steps, j);
    assert OpOk(states[j], o);
    KeysOfOne(states, steps, o, k + 1, j);
  }

  lemma {:induction false} KeysOfOne(states: seq<State>, steps: seq<Step>, o: nat, i: nat, j: nat)
    requires IsRun(states, steps) && i <= j < |states| && o < |states[i].ops|
    ensures o < |states[j].ops| && states[j].ops[o].keys == states[i].ops[o].keys
    decreases j
  {
    if i < j {
      KeysOfOne(states, steps, o, i, j - 1);
      assert Follows(states[j - 1], steps[j - 1], states[j - 1 + 1]);
      KeysStay(states[j - 1], steps[j - 1], o);
    }
  }

  // ---------------------------------------------------------------- a guard is kept until it is dropped

  lemma StaysGuarded(s: State, step: Step, o: nat)
    requires Enabled(s, step) && o < |s.ops| && Guarded(s.ops[o]) && step != Quit(o)
    ensures o < |Apply(s, step).ops| && Guarded(Apply(s, step).ops[o])
  {
  }

  /** Nobody loses its guard: it is held until its owner drops it. */
  lemma {:induction false} GuardIsKept(states: seq<State>, steps: seq<Step>, i: nat, j: nat, o: nat)
    requires IsRun(states, steps) && i <= j < |states| && o < |states[i].ops| && Guarded(states[i].ops[o])
    requires forall n :: i <= n < j ==> steps[n] != Quit(o)
    ensures o < |states[j].ops| && Guarded(states[j].ops[o])
    decreases j
  {
    if i < j {
      GuardIsKept(states, steps, i, j - 1, o);
      assert Follows(states[j - 1], steps[j - 1], states[j - 1 + 1]);
      StaysGuarded(states[j - 1], steps[j - 1], o);
    }
  }

  lemma NotQuitBy(s: State, step: Step, o: nat)
    requires Enabled(s, step) && o < |Apply(s, step).ops| && HasQuit(Apply(s, step), o) && step != Quit(o)
    ensures o < |s.ops| && HasQuit(s, o)
  {
  }

  /** An operation gives up only by its own doing: until it quits it is on its way to its guard, or has it. */
  lemma {:induction false} OnlyQuittersGiveUp(states: seq<State>, steps: seq<Step>, n: nat, o: nat)
    requires IsRun(states, steps) && n < |states| && o < |states[n].ops|
    requires forall k :: 0 <= k < n ==> steps[k] != Quit(o)
    ensures Pending(states[n].ops[o]) || Guarded(states[n].ops[o])
  {
    RunKeepsInv(states, steps, n);
    assert OpOk(states[n], o);
    if HasQuit(states[n], o) {
      NobodyElseQuits(states, steps, n, o);
    }
  }

  lemma {:induction false} NobodyElseQuits(states: seq<State>, steps: seq<Step>, n: nat, o: nat)
    requires IsRun(states, steps) && n < |states| && HasQuit(states[n], o)
    ensures exists k :: 0 <= k < n && steps[k] == Quit(o)
  {
    assert Follows(states[n - 1], steps[n - 1], states[n - 1 + 1]);
    if steps[n - 1] != Quit(o) {
      NotQuitBy(states[n - 1], steps[n - 1], o);
      NobodyElseQuits(states, steps, n - 1, o);
    }
  }

  /** A guard can be dropped, and a wait given up, at any time. */
  lemma CanAlwaysQuit(s: State, o: nat)
    requires Inv(s) && o < |s.ops| && (s.ops[o].phase.Queued? || s.ops[o].phase.Acquiring?)
    ensures Enabled(s, Quit(o)) && HasQuit(Apply(s, Quit(o)), o)
  {
    assert OpOk(s, o) && ClaimsOk(s, o);
  }

  /** An operation that is done owns no mutex, waits for none and refers to none. */
  lemma DoneLeavesNothing(s: State, o: nat, m: nat)
    requires Inv(s) && o < |s.ops| && s.ops[o].phase.Done? && m < |s.mutexes|
    ensures s.mutexes[m].owner != Some(o) && o !in s.mutexes[m].queue
    ensures forall i: nat :: !Refers(s.ops[o], i)
  {
    assert OpOk(s, o) && MutexOk(s, m);
  }
}
