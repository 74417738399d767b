/**
 Keyed lifecycle locks: an operation normalises its keys, resolves one mutex per key through a
 registry of weak references, and then takes the mutexes in sorted key order. Any number of
 operations interleave; each may be cancelled while it waits.
 */
module KeyedLocks {
  import opened Common

  // ---------------------------------------------------------------- key normalisation

  /** Rust orders strings by their UTF-8 bytes, which is the order of their code points. */
  predicate Less(a: string, b: string) {
    if b == [] then false
    else if a == [] then true
    else a[0] < b[0] || (a[0] == b[0] && Less(a[1..], b[1..]))
  }

  lemma {:induction false} LessIsTransitive(a: string, b: string, c: string)
    requires Less(a, b) && Less(b, c)
    ensures Less(a, c)
  {
    if a != [] && a[0] == b[0] == c[0] {
      LessIsTransitive(a[1..], b[1..], c[1..]);
    }
  }

  lemma {:induction false} LessIsTotal(a: string, b: string)
    ensures Less(a, b) || a == b || Less(b, a)
  {
    if a != [] && b != [] && a[0] == b[0] {
      LessIsTotal(a[1..], b[1..]);
      assert a == [a[0]] + a[1..] && b == [b[0]] + b[1..];
    }
  }

  lemma {:induction false} LessIsIrreflexive(a: string)
    ensures !Less(a, a)
  {
    if a != [] {
      LessIsIrreflexive(a[1..]);
    }
  }

  ghost predicate Sorted(keys: seq<string>) {
    forall i, j :: 0 <= i < j < |keys| ==> Less(keys[i], keys[j])
  }

  predicate IsWhitespace(c: char) {
    var u := c as int;
    || 0x09 <= u <= 0x0D || u == 0x20 || u == 0x85 || u == 0xA0 || u == 0x1680
    || 0x2000 <= u <= 0x200A || u == 0x2028 || u == 0x2029 || u == 0x202F || u == 0x205F || u == 0x3000
  }

  function Trim(s: string): string {
    if s == [] then []
    else if IsWhitespace(s[0]) then Trim(s[1..])
    else if IsWhitespace(s[|s| - 1]) then Trim(s[..|s| - 1])
    else s
  }

  /** Insert into a sorted list without repeating an element. */
  function Insert(keys: seq<string>, key: string): (r: seq<string>)
    requires Sorted(keys)
    ensures Sorted(r) && forall k :: k in r <==> k in keys || k == key
  {
    if keys == [] then [key]
    else if key == keys[0] then keys
    else if Less(key, keys[0]) then
      assert forall i :: 0 <= i < |keys| ==> Less(key, keys[i]) by {
        forall i | 0 <= i < |keys| ensures Less(key, keys[i]) {
          if i > 0 { LessIsTransitive(key, keys[0], keys[i]); }
        }
      }
      [key] + keys
    else
      var rest := Insert(keys[1..], key);
      assert forall i :: 0 <= i < |rest| ==> Less(keys[0], rest[i]) by {
        LessIsTotal(key, keys[0]);
        forall i | 0 <= i < |rest| ensures Less(keys[0], rest[i]) {
          assert rest[i] in keys[1..] || rest[i] == key;
        }
      }
      [keys[0]] + rest
  }

  ghost predicate Mentions(keys: seq<string>, k: string) {
    exists i :: 0 <= i < |keys| && Trim(keys[i]) == k
  }

  lemma MentionsLast(keys: seq<string>, k: string)
    requires keys != []
    ensures Mentions(keys, k) <==> Mentions(keys[..|keys| - 1], k) || k == Trim(keys[|keys| - 1])
  {
    var init := keys[..|keys| - 1];
    if Mentions(init, k) {
      var i :| 0 <= i < |init| && Trim(init[i]) == k;
      assert Trim(keys[i]) == k;
    }
  }

  /** The distinct, non-blank, trimmed keys in order. */
  function Identities(keys: seq<string>): (r: seq<string>)
    ensures Sorted(r)
    ensures forall k :: k in r <==> k != [] && Mentions(keys, k)
  {
    if keys == [] then []
    else
      var last := Trim(keys[|keys| - 1]);
      var r := Identities(keys[..|keys| - 1]);
      assert forall k :: Mentions(keys, k) <==> Mentions(keys[..|keys| - 1], k) || k == last by {
        forall k ensures Mentions(keys, k) <==> Mentions(keys[..|keys| - 1], k) || k == last {
          MentionsLast(keys, k);
        }
      }
      if last == [] then r else Insert(r, last)
  }

  // ---------------------------------------------------------------- operations

  datatype Phase =
    | Queued         // waiting for the registry
    | Resolving      // inside the registry, resolving one mutex per key
    | Acquiring      // taking the mutexes in order; holds its guard once it has them all
    | Releasing      // guard dropped or wait cancelled; references go one by one
    | Done

  /** `locks[i]` is the mutex resolved for `keys[i]`; the first `taken` were locked, and the first
      `dropped` references are gone again. */
  datatype Op = Op(keys: seq<string>, locks: seq<nat>, taken: nat, dropped: nat, waiting: bool, phase: Phase)

  datatype Mutex = Mutex(owner: Option<nat>, queue: seq<nat>)

  /** The registry refers to mutexes weakly: an entry does not keep its mutex alive. */
  datatype State = State(ops: seq<Op>, mutexes: seq<Mutex>, registry: map<string, nat>, inRegistry: Option<nat>)

  predicate Refers(op: Op, i: nat) {
    op.dropped <= i < |op.locks|
  }

  predicate Holds(op: Op, i: nat) {
    Refers(op, i) && i < op.taken
  }

  /** Some operation still has a strong reference to the mutex. */
  ghost predicate Alive(s: State, m: nat) {
    exists o: nat, i: nat :: o < |s.ops| && Refers(s.ops[o], i) && s.ops[o].locks[i] == m
  }

  predicate Guarded(op: Op) {
    op.phase.Acquiring? && op.taken == |op.locks|
  }

  // ---------------------------------------------------------------- steps

  datatype Step = Arrive(keys: seq<string>) | Enter(o: nat) | Resolve(o: nat) | Leave(o: nat) | Wait(o: nat)
                | Grant(o: nat)
                | Quit(o: nat) | Drop(o: nat)

  function SetOp(s: State, o: nat, op: Op): State
    requires o < |s.ops|
  {
    s.(ops := s.ops[o := op])
  }

  predicate CanEnter(s: State, o: nat) {
    o < |s.ops| && s.ops[o].phase.Queued? && s.inRegistry.None?
  }

  predicate CanResolve(s: State, o: nat) {
    o < |s.ops| && s.ops[o].phase.Resolving? && s.inRegistry == Some(o) && |s.ops[o].locks| < |s.ops[o].keys|
  }

  predicate CanLeave(s: State, o: nat) {
    o < |s.ops| && s.ops[o].phase.Resolving? && s.inRegistry == Some(o) && |s.ops[o].locks| == |s.ops[o].keys|
  }

  predicate CanWait(s: State, o: nat) {
    o < |s.ops| && s.ops[o].phase.Acquiring? && !s.ops[o].waiting && s.ops[o].taken < |s.ops[o].locks|
    && s.ops[o].locks[s.ops[o].taken] < |s.mutexes|
  }

  predicate CanGrant(s: State, o: nat) {
    o < |s.ops| && s.ops[o].phase.Acquiring? && s.ops[o].waiting && s.ops[o].taken < |s.ops[o].locks|
    && var m := s.ops[o].locks[s.ops[o].taken];
       m < |s.mutexes| && s.mutexes[m].owner.None? && s.mutexes[m].queue != [] && s.mutexes[m].queue[0] == o
  }

  /** Dropping the guard, or the future that was still waiting for it. */
  predicate CanQuit(s: State, o: nat) {
    o < |s.ops| && (s.ops[o].phase.Queued? || s.ops[o].phase.Acquiring?)
    && (s.ops[o].waiting ==> s.ops[o].taken < |s.ops[o].locks| && s.ops[o].locks[s.ops[o].taken] < |s.mutexes|)
  }

  predicate CanDrop(s: State, o: nat) {
    o < |s.ops| && s.ops[o].phase.Releasing?
    && (s.ops[o].dropped < |s.ops[o].locks| ==> s.ops[o].locks[s.ops[o].dropped] < |s.mutexes|)
  }

  ghost predicate Enabled(s: State, step: Step) {
    match step
    case Arrive(_) => true
    case Enter(o) => CanEnter(s, o)
    case Resolve(o) => CanResolve(s, o)
    case Leave(o) => CanLeave(s, o)
    case Wait(o) => CanWait(s, o)
    case Grant(o) => CanGrant(s, o)
    case Quit(o) => CanQuit(s, o)
    case Drop(o) => CanDrop(s, o)
  }

  function AfterArrive(s: State, keys: seq<string>): State {
    s.(ops := s.ops + [Op(Identities(keys), [], 0, 0, false, Queued)])
  }

  /** Take the registry lock and prune the entries whose mutex is gone. */
  ghost function AfterEnter(s: State, o: nat): State
    requires CanEnter(s, o)
  {
    SetOp(s, o, s.ops[o].(phase := Resolving))
    .(registry := map k | k in s.registry && Alive(s, s.registry[k]) :: s.registry[k], inRegistry := Some(o))
  }

  /** Reuse the registered mutex if it can be upgraded, otherwise register a new one. */
  ghost function AfterResolve(s: State, o: nat): State
    requires CanResolve(s, o)
  {
    var op := s.ops[o];
    var key := op.keys[|op.locks|];
    if key in s.registry && Alive(s, s.registry[key]) then
      SetOp(s, o, op.(locks := op.locks + [s.registry[key]]))
    else
      SetOp(s, o, op.(locks := op.locks + [|s.mutexes|]))
      .(mutexes := s.mutexes + [Mutex(None, [])], registry := s.registry[key := |s.mutexes|])
  }

  function AfterLeave(s: State, o: nat): State
    requires CanLeave(s, o)
  {
    SetOp(s, o, s.ops[o].(phase := Acquiring)).(inRegistry := None)
  }

  function AfterWait(s: State, o: nat): State
    requires CanWait(s, o)
  {
    var m := s.ops[o].locks[s.ops[o].taken];
    SetOp(s, o, s.ops[o].(waiting := true))
    .(mutexes := s.mutexes[m := s.mutexes[m].(queue := s.mutexes[m].queue + [o])])
  }

  function AfterGrant(s: State, o: nat): State
    requires CanGrant(s, o)
  {
    var m := s.ops[o].locks[s.ops[o].taken];
    SetOp(s, o, s.ops[o].(waiting := false, taken := s.ops[o].taken + 1))
    .(mutexes := s.mutexes[m := Mutex(Some(o), s.mutexes[m].queue[1..])])
  }

  function Without(queue: seq<nat>, o: nat): seq<nat> {
    if queue == [] then [] else if queue[0] == o then Without(queue[1..], o) else [queue[0]] + Without(queue[1..], o)
  }

  function AfterQuit(s: State, o: nat): State
    requires CanQuit(s, o)
  {
    var op := s.ops[o];
    if op.phase.Queued? then SetOp(s, o, op.(phase := Done))
    else if !op.waiting then SetOp(s, o, op.(phase := Releasing))
    else
      var m := op.locks[op.taken];
      SetOp(s, o, op.(waiting := false, phase := Releasing))
      .(mutexes := s.mutexes[m := s.mutexes[m].(queue := Without(s.mutexes[m].queue, o))])
  }

  function AfterDrop(s: State, o: nat): State
    requires CanDrop(s, o)
  {
    var op := s.ops[o];
    if op.dropped >= |op.locks| then SetOp(s, o, op.(phase := Done))
    else
      var m := op.locks[op.dropped];
      var s1 := SetOp(s, o, op.(dropped := op.dropped + 1));
      if op.dropped < op.taken then s1.(mutexes := s.mutexes[m := s.mutexes[m].(owner := None)]) else s1
  }

  ghost function Apply(s: State, step: Step): State
    requires Enabled(s, step)
  {
    match step
    case Arrive(keys) => AfterArrive(s, keys)
    case Enter(o) => AfterEnter(s, o)
    case Resolve(o) => AfterResolve(s, o)
    case Leave(o) => AfterLeave(s, o)
    case Wait(o) => AfterWait(s, o)
    case Grant(o) => AfterGrant(s, o)
    case Quit(o) => AfterQuit(s, o)
    case Drop(o) => AfterDrop(s, o)
  }

  // ---------------------------------------------------------------- invariant

  ghost predicate OpOk(s: State, o: nat)
    requires o < |s.ops|
  {
    var op := s.ops[o];
    && Sorted(op.keys) && |op.locks| <= |op.keys| && op.taken <= |op.locks| && op.dropped <= |op.locks|
    && (op.phase.Queued? ==> op.locks == [])
    && (op.phase.Resolving? <==> s.inRegistry == Some(o))
    && (op.phase.Resolving? ==> op.taken == 0)
    && (op.phase.Acquiring? ==> |op.locks| == |op.keys|)
    && (!op.phase.Releasing? && !op.phase.Done? ==> op.dropped == 0)
    && (op.phase.Done? ==> op.dropped == |op.locks|)
    && (op.waiting ==> op.phase.Acquiring? && op.taken < |op.locks|)
  }

  /** Every live reference is the registered mutex of its key. */
  ghost predicate RefsOk(s: State, o: nat)
    requires o < |s.ops|
  {
    var op := s.ops[o];
    |op.locks| <= |op.keys| &&
    forall i: nat :: Refers(op, i) ==> op.keys[i] in s.registry && s.registry[op.keys[i]] == op.locks[i]
  }

  ghost predicate RegistryOk(s: State) {
    && (forall k :: k in s.registry ==> s.registry[k] < |s.mutexes|)
    && (forall k, l :: k in s.registry && l in s.registry && s.registry[k] == s.registry[l] ==> k == l)
  }

  /** Who has and who waits for the mutex, as the operations see it. */
  ghost predicate MutexOk(s: State, m: nat)
    requires m < |s.mutexes|
  {
    && (s.mutexes[m].owner.Some? ==> var o := s.mutexes[m].owner.value;
                                     o < |s.ops| && exists i: nat :: Holds(s.ops[o], i) && s.ops[o].locks[i] == m)
    && (forall o :: o in s.mutexes[m].queue ==> o < |s.ops| && s.ops[o].waiting && s.ops[o].taken < |s.ops[o].locks|
                                                && s.ops[o].locks[s.ops[o].taken] == m)
    && Distinct(s.mutexes[m].queue)
  }

  /** What an operation believes it holds or waits for is so. */
  ghost predicate ClaimsOk(s: State, o: nat)
    requires o < |s.ops|
  {
    var op := s.ops[o];
    && (forall i: nat :: Holds(op, i) ==> op.locks[i] < |s.mutexes| && s.mutexes[op.locks[i]].owner == Some(o))
    && (op.waiting ==>
          op.taken < |op.locks| && op.locks[op.taken] < |s.mutexes| && o in s.mutexes[op.locks[op.taken]].queue)
  }

  ghost predicate Inv(s: State) {
    && RegistryOk(s)
    && (s.inRegistry.Some? ==> s.inRegistry.value < |s.ops|)
    && (forall o: nat :: o < |s.ops| ==> OpOk(s, o))
    && (forall o: nat :: o < |s.ops| ==> RefsOk(s, o))
    && (forall o: nat :: o < |s.ops| ==> ClaimsOk(s, o))
    && (forall m: nat :: m < |s.mutexes| ==> MutexOk(s, m))
  }

  const EMPTY := State([], [], map[], None)

  /** References of one operation are to distinct mutexes. */
  lemma RefsAreDistinct(s: State, o: nat, i: nat, j: nat)
    requires RegistryOk(s) && o < |s.ops| && OpOk(s, o) && RefsOk(s, o)
    requires Refers(s.ops[o], i) && Refers(s.ops[o], j) && s.ops[o].locks[i] == s.ops[o].locks[j]
    ensures i == j
  {
    var op := s.ops[o];
    assert op.keys[i] == op.keys[j];
    LessIsIrreflexive(op.keys[i]);
  }

  // ---------------------------------------------------------------- every step keeps the invariant

  /** A mutex whose holders and waiters are undisturbed stays consistent. */
  lemma SameMutex(s: State, s': State, m: nat)
    requires m < |s.mutexes| && m < |s'.mutexes| && s'.mutexes[m] == s.mutexes[m] && MutexOk(s, m)
    requires |s.ops| <= |s'.ops|
    requires forall p: nat, i: nat :: p < |s.ops| && Holds(s.ops[p], i) && s.ops[p].locks[i] == m ==>
               Holds(s'.ops[p], i) && s'.ops[p].locks[i] == m
    requires forall p :: p in s.mutexes[m].queue ==>
               s'.ops[p].waiting && s'.ops[p].taken == s.ops[p].taken && s'.ops[p].locks == s.ops[p].locks
    ensures MutexOk(s', m)
  {
    if s.mutexes[m].owner.Some? {
      var p := s.mutexes[m].owner.value;
      var i: nat :| Holds(s.ops[p], i) && s.ops[p].locks[i] == m;
      assert Holds(s'.ops[p], i);
    }
  }

  lemma ArriveKeeps(s: State, keys: seq<string>)
    requires Inv(s)
    ensures Inv(AfterArrive(s, keys))
  {
    var s' := AfterArrive(s, keys);
    forall o: nat | o < |s'.ops|
      ensures OpOk(s', o) && RefsOk(s', o) && ClaimsOk(s', o)
    {
      if o < |s.ops| {
        assert OpOk(s, o) && RefsOk(s, o) && ClaimsOk(s, o);
      }
    }
    forall m: nat | m < |s'.mutexes|
      ensures MutexOk(s', m)
    {
      SameMutex(s, s', m);
    }
  }

  /** Steps that change the phase of one operation and nothing about its locks. */
  lemma PhaseKeeps(s: State, s': State, o: nat)
    requires Inv(s) && o < |s.ops| && |s'.ops| == |s.ops| && s'.ops == s.ops[o := s'.ops[o]]
    requires s'.mutexes == s.mutexes && s'.ops[o] == s.ops[o].(phase := s'.ops[o].phase) && !s.ops[o].waiting
    requires OpOk(s', o) && (s'.inRegistry == s.inRegistry || s'.inRegistry == None || s'.inRegistry == Some(o))
    requires s'.inRegistry != s.inRegistry ==> s.inRegistry.None? || s.inRegistry == Some(o)
    requires RegistryOk(s') && forall p: nat :: p < |s.ops| ==> RefsOk(s', p)
    ensures Inv(s')
  {
    forall p: nat | p < |s'.ops|
      ensures OpOk(s', p) && ClaimsOk(s', p)
    {
      assert OpOk(s, p) && ClaimsOk(s, p);
    }
    forall m: nat | m < |s'.mutexes|
      ensures MutexOk(s', m)
    {
      SameMutex(s, s', m);
    }
  }

  lemma EnterKeeps(s: State, o: nat)
    requires Inv(s) && CanEnter(s, o)
    ensures Inv(AfterEnter(s, o))
  {
    var s' := AfterEnter(s, o);
    assert OpOk(s, o);
    forall p: nat | p < |s.ops|
      ensures RefsOk(s', p)
    {
      assert RefsOk(s, p);
      forall i: nat | Refers(s.ops[p], i)
        ensures s.ops[p].keys[i] in s'.registry
      {
        assert Alive(s, s.ops[p].locks[i]);
      }
    }
    PhaseKeeps(s, s', o);
  }

  lemma LeaveKeeps(s: State, o: nat)
    requires Inv(s) && CanLeave(s, o)
    ensures Inv(AfterLeave(s, o))
  {
    var s' := AfterLeave(s, o);
    assert OpOk(s, o);
    forall p: nat | p < |s.ops|
      ensures RefsOk(s', p)
    {
      assert RefsOk(s, p);
    }
    PhaseKeeps(s, s', o);
  }

  lemma ResolveRefs(s: State, o: nat)
    requires Inv(s) && CanResolve(s, o)
    ensures var s' := AfterResolve(s, o);
            RegistryOk(s') && forall p: nat :: p < |s.ops| ==> RefsOk(s', p)
  {
    var s' := AfterResolve(s, o);
    var op := s.ops[o];
    var key := op.keys[|op.locks|];
    assert OpOk(s, o);
    forall p: nat | p < |s.ops|
      ensures RefsOk(s', p)
    {
      assert RefsOk(s, p);
      forall i: nat | Refers(s.ops[p], i)
        ensures s.ops[p].keys[i] in s'.registry && s'.registry[s.ops[p].keys[i]] == s.ops[p].locks[i]
      {
        // A live reference to the key would have made the upgrade succeed.
        assert Alive(s, s.ops[p].locks[i]);
      }
    }
  }

  lemma ResolveKeeps(s: State, o: nat)
    requires Inv(s) && CanResolve(s, o)
    ensures Inv(AfterResolve(s, o))
  {
    var s' := AfterResolve(s, o);
    ResolveRefs(s, o);
    forall p: nat | p < |s'.ops|
      ensures OpOk(s', p) && ClaimsOk(s', p)
    {
      assert OpOk(s, p) && ClaimsOk(s, p);
    }
    forall m: nat | m < |s'.mutexes|
      ensures MutexOk(s', m)
    {
      if m < |s.mutexes| {
        assert MutexOk(s, m);
        forall p | p in s.mutexes[m].queue
          ensures p != o
        {
          assert OpOk(s, p) && OpOk(s, o);
        }
        SameMutex(s, s', m);
      }
    }
  }

  /** Steps that touch one operation and one mutex, and no reference. */
  lemma MutexStepKeeps(s: State, s': State, o: nat, m: nat)
    requires Inv(s) && o < |s.ops| == |s'.ops| && m < |s.mutexes|
    requires s' == SetOp(s, o, s'.ops[o]).(mutexes := s'.mutexes)
    requires |s'.mutexes| == |s.mutexes| && s'.mutexes == s.mutexes[m := s'.mutexes[m]]
    requires s'.ops[o].keys == s.ops[o].keys && s'.ops[o].locks == s.ops[o].locks
    requires s.ops[o].dropped <= s'.ops[o].dropped
    requires OpOk(s', o) && ClaimsOk(s', o) && MutexOk(s', m)
    // The other mutexes do not notice the change of the operation.
    requires forall n: nat :: n < |s.mutexes| && n != m && MutexOk(s, n) ==> MutexOk(s', n)
    // The other operations do not notice the change of the mutex.
    requires s'.mutexes[m].owner == s.mutexes[m].owner || s.mutexes[m].owner.None? || s.mutexes[m].owner == Some(o)
    requires forall p :: p != o ==> (p in s.mutexes[m].queue <==> p in s'.mutexes[m].queue)
    ensures Inv(s')
  {
    forall p: nat | p < |s'.ops|
      ensures OpOk(s', p) && RefsOk(s', p) && ClaimsOk(s', p)
    {
      assert OpOk(s, p) && RefsOk(s, p) && ClaimsOk(s, p);
    }
  }

  lemma WaitKeeps(s: State, o: nat)
    requires Inv(s) && CanWait(s, o)
    ensures Inv(AfterWait(s, o))
  {
    var s' := AfterWait(s, o);
    var m := s.ops[o].locks[s.ops[o].taken];
    assert OpOk(s, o) && ClaimsOk(s, o);
    forall n: nat | n < |s.mutexes| && MutexOk(s, n)
      ensures MutexOk(s', n)
    {
      if s.mutexes[n].owner.Some? {
        var p := s.mutexes[n].owner.value;
        var i: nat :| Holds(s.ops[p], i) && s.ops[p].locks[i] == n;
        assert Holds(s'.ops[p], i);
      }
    }
    MutexStepKeeps(s, s', o, m);
  }

  lemma GrantKeeps(s: State, o: nat)
    requires Inv(s) && CanGrant(s, o)
    ensures Inv(AfterGrant(s, o))
  {
    var s' := AfterGrant(s, o);
    var m := s.ops[o].locks[s.ops[o].taken];
    assert OpOk(s, o) && ClaimsOk(s, o) && MutexOk(s, m);
    assert forall p :: p in s.mutexes[m].queue[1..] <==> p in s.mutexes[m].queue && p != o;
    assert Holds(s'.ops[o], s.ops[o].taken);
    forall n: nat | n < |s.mutexes| && n != m && MutexOk(s, n)
      ensures MutexOk(s', n)
    {
      if s.mutexes[n].owner.Some? {
        var p := s.mutexes[n].owner.value;
        var i: nat :| Holds(s.ops[p], i) && s.ops[p].locks[i] == n;
        assert Holds(s'.ops[p], i);
      }
    }
    assert MutexOk(s', m);
    MutexStepKeeps(s, s', o, m);
  }

  lemma {:induction false} WithoutRemoves(queue: seq<nat>, o: nat)
    ensures forall p :: p in Without(queue, o) <==> p in queue && p != o
    ensures Distinct(queue) ==> Distinct(Without(queue, o))
  {
    if queue != [] {
      WithoutRemoves(queue[1..], o);
      assert Distinct(queue) ==> Distinct(queue[1..]) && queue[0] !in queue[1..];
    }
  }

  lemma QuitKeeps(s: State, o: nat)
    requires Inv(s) && CanQuit(s, o)
    ensures Inv(AfterQuit(s, o))
  {
    var s' := AfterQuit(s, o);
    assert OpOk(s, o) && ClaimsOk(s, o);
    if !s.ops[o].waiting {
      forall p: nat | p < |s.ops|
        ensures RefsOk(s', p)
      {
        assert RefsOk(s, p);
      }
      PhaseKeeps(s, s', o);
    } else {
      var m := s.ops[o].locks[s.ops[o].taken];
      WithoutRemoves(s.mutexes[m].queue, o);
      forall n: nat | n < |s.mutexes| && MutexOk(s, n)
        ensures MutexOk(s', n)
      {
        if s.mutexes[n].owner.Some? {
          var p := s.mutexes[n].owner.value;
          var i: nat :| Holds(s.ops[p], i) && s.ops[p].locks[i] == n;
          assert Holds(s'.ops[p], i);
        }
      }
      MutexStepKeeps(s, s', o, m);
    }
  }

  lemma DropKeeps(s: State, o: nat)
    requires Inv(s) && CanDrop(s, o)
    ensures Inv(AfterDrop(s, o))
  {
    var op := s.ops[o];
    if op.dropped >= |op.locks| {
      LastDropKeeps(s, o);
    } else {
      var m := op.locks[op.dropped];
      forall n: nat | n < |s.mutexes| && n != m && MutexOk(s, n)
        ensures MutexOk(AfterDrop(s, o), n)
      {
        DropKeepsMutex(s, o, m, n);
      }
      DropMutex(s, o, m);
      assert OpOk(s, o) && ClaimsOk(s, o) && RefsOk(s, o);
      MutexStepKeeps(s, AfterDrop(s, o), o, m);
    }
  }

  lemma LastDropKeeps(s: State, o: nat)
    requires Inv(s) && CanDrop(s, o) && s.ops[o].dropped >= |s.ops[o].locks|
    ensures Inv(AfterDrop(s, o))
  {
    var s' := AfterDrop(s, o);
    assert OpOk(s, o);
    forall p: nat | p < |s.ops|
      ensures RefsOk(s', p)
    {
      assert RefsOk(s, p);
    }
    PhaseKeeps(s, s', o);
  }

  /** Dropping one reference leaves the other mutexes to their owners. */
  lemma DropKeepsMutex(s: State, o: nat, m: nat, n: nat)
    requires Inv(s) && CanDrop(s, o) && s.ops[o].dropped < |s.ops[o].locks| && m == s.ops[o].locks[s.ops[o].dropped]
    requires n < |s.mutexes| && n != m
    ensures MutexOk(AfterDrop(s, o), n)
  {
    assert MutexOk(s, n);
    if s.mutexes[n].owner.Some? {
      var p := s.mutexes[n].owner.value;
      var i: nat :| Holds(s.ops[p], i) && s.ops[p].locks[i] == n;
      assert Holds(AfterDrop(s, o).ops[p], i);
    }
  }

  lemma DropMutex(s: State, o: nat, m: nat)
    requires Inv(s) && CanDrop(s, o) && s.ops[o].dropped < |s.ops[o].locks| && m == s.ops[o].locks[s.ops[o].dropped]
    ensures MutexOk(AfterDrop(s, o), m) && ClaimsOk(AfterDrop(s, o), o) && OpOk(AfterDrop(s, o), o)
  {
    var s' := AfterDrop(s, o);
    var op := s.ops[o];
    assert OpOk(s, o) && ClaimsOk(s, o) && MutexOk(s, m);
    forall i: nat | Holds(s'.ops[o], i)
      ensures op.locks[i] != m && Holds(op, i)
    {
      if op.locks[i] == m {
        RefsAreDistinct(s, o, i, op.dropped);
      }
    }
    if op.dropped >= op.taken && s.mutexes[m].owner.Some? {
      var p := s.mutexes[m].owner.value;
      var i: nat :| Holds(s.ops[p], i) && s.ops[p].locks[i] == m;
      assert p == o ==> i < op.dropped by {
        if p == o && Refers(op, i) {
          RefsAreDistinct(s, o, i, op.dropped);
        }
      }
      assert Holds(s'.ops[p], i);
    }
  }

  // ---------------------------------------------------------------- main results

  ghost predicate HoldsKey(s: State, o: nat, key: string)
    requires o < |s.ops|
  {
    exists i: nat :: Holds(s.ops[o], i) && i < |s.ops[o].keys| && s.ops[o].keys[i] == key
  }

  /** Two operations never hold the same key at the same time. */
  lemma MutualExclusion(s: State, o: nat, p: nat, key: string)
    requires Inv(s) && o < |s.ops| && p < |s.ops| && HoldsKey(s, o, key) && HoldsKey(s, p, key)
    ensures o == p
  {
    var i: nat :| Holds(s.ops[o], i) && i < |s.ops[o].keys| && s.ops[o].keys[i] == key;
    var j: nat :| Holds(s.ops[p], j) && j < |s.ops[p].keys| && s.ops[p].keys[j] == key;
    assert RefsOk(s, o) && RefsOk(s, p) && ClaimsOk(s, o) && ClaimsOk(s, p);
  }

  /** Holders and waiters of a key share one mutex, however often the registry was pruned. */
  lemma OneMutexPerKey(s: State, o: nat, i: nat, p: nat, j: nat)
    requires Inv(s) && o < |s.ops| && p < |s.ops| && Refers(s.ops[o], i) && Refers(s.ops[p], j)
    requires OpOk(s, o) && OpOk(s, p)
    ensures s.ops[o].keys[i] == s.ops[p].keys[j] <==> s.ops[o].locks[i] == s.ops[p].locks[j]
  {
    assert RefsOk(s, o) && RefsOk(s, p);
  }

  // ---------------------------------------------------------------- freedom from deadlock

  /** An operation that has arrived and does not yet hold its whole guard. */
  predicate Pending(op: Op) {
    op.phase.Queued? || op.phase.Resolving? || (op.phase.Acquiring? && op.taken < |op.locks|)
  }

  /** The operation can take a step of its own, without waiting for anybody. */
  ghost predicate CanMove(s: State, o: nat) {
    CanEnter(s, o) || CanResolve(s, o) || CanLeave(s, o) || CanWait(s, o) || CanGrant(s, o) || CanDrop(s, o)
  }

  ghost predicate Blocked(s: State, o: nat) {
    && o < |s.ops| && s.ops[o].phase.Acquiring? && s.ops[o].waiting
    && s.ops[o].taken < |s.ops[o].locks| && s.ops[o].taken < |s.ops[o].keys|
  }

  function NextKey(op: Op): string
    requires op.taken < |op.keys|
  {
    op.keys[op.taken]
  }

  /** Waiting is always for a greater key: the owner of the mutex an operation waits for has
      either nothing left to wait for or waits for a strictly greater key. */
  lemma WaitsForGreaterKey(s: State, o: nat)
    requires Inv(s) && Blocked(s, o)
    ensures s.ops[o].locks[s.ops[o].taken] < |s.mutexes|
    ensures var m := s.ops[o].locks[s.ops[o].taken];
            if s.mutexes[m].owner.None? then exists h :: CanGrant(s, h)
            else var p := s.mutexes[m].owner.value;
                 && p < |s.ops| && (s.ops[p].phase.Acquiring? || s.ops[p].phase.Releasing?)
                 && (Blocked(s, p) ==> Less(NextKey(s.ops[o]), NextKey(s.ops[p])))
  {
    var op := s.ops[o];
    var m := op.locks[op.taken];
    assert OpOk(s, o) && ClaimsOk(s, o) && RefsOk(s, o) && MutexOk(s, m);
    if s.mutexes[m].owner.None? {
      var h := s.mutexes[m].queue[0];
      assert h in s.mutexes[m].queue;
      assert OpOk(s, h);
      assert CanGrant(s, h);
    } else {
      var p := s.mutexes[m].owner.value;
      var i: nat :| Holds(s.ops[p], i) && s.ops[p].locks[i] == m;
      assert OpOk(s, p) && RefsOk(s, p);
      assert Refers(op, op.taken);
      assert s.ops[p].keys[i] == NextKey(op);
    }
  }

  /** The operation is held up by this one: it is in the registry, owns the mutex waited for, or is next
      in line for it while it is free. */
  ghost predicate HeldUpBy(s: State, o: nat, p: nat) {
    && o < |s.ops| && p < |s.ops|
    && (|| (s.ops[o].phase.Queued? && s.inRegistry == Some(p))
        || (&& Blocked(s, o) && s.ops[o].locks[s.ops[o].taken] < |s.mutexes|
            && var m := s.mutexes[s.ops[o].locks[s.ops[o].taken]];
               m.owner == Some(p) || (m.owner.None? && m.queue != [] && m.queue[0] == p)))
  }

  /** Each operation is held up by the next, and the last can move or has its whole guard. */
  ghost predicate EndsWell(s: State, chain: seq<nat>) {
    && chain != [] && (forall i :: 0 <= i < |chain| - 1 ==> HeldUpBy(s, chain[i], chain[i + 1]))
    && var last := chain[|chain| - 1];
       last < |s.ops| && (CanMove(s, last) || Guarded(s.ops[last]))
  }

  /** The blocked operations that wait for a greater key than this one does. */
  ghost function Above(s: State, o: nat): set<nat>
    requires Blocked(s, o)
  {
    set p: nat | p < |s.ops| && Blocked(s, p) && Less(NextKey(s.ops[o]), NextKey(s.ops[p]))
  }

  lemma AboveShrinks(s: State, o: nat, p: nat)
    requires Blocked(s, o) && Blocked(s, p) && Less(NextKey(s.ops[o]), NextKey(s.ops[p]))
    ensures Above(s, p) < Above(s, o)
  {
    LessIsIrreflexive(NextKey(s.ops[p]));
    forall q | q in Above(s, p)
      ensures q in Above(s, o)
    {
      LessIsTransitive(NextKey(s.ops[o]), NextKey(s.ops[p]), NextKey(s.ops[q]));
    }
    assert p in Above(s, o) && p !in Above(s, p);
  }

  lemma {:induction false} BlockedChain(s: State, o: nat) returns (chain: seq<nat>)
    requires Inv(s) && Blocked(s, o)
    ensures chain != [] && chain[0] == o && EndsWell(s, chain)
    decreases Above(s, o)
  {
    WaitsForGreaterKey(s, o);
    var mutex := s.mutexes[s.ops[o].locks[s.ops[o].taken]];
    if mutex.owner.None? {
      chain := NextInLine(s, o);
    } else {
      var p := mutex.owner.value;
      var rest := [p];
      if Blocked(s, p) {
        AboveShrinks(s, o, p);
        rest := BlockedChain(s, p);
      } else {
        OwnerIsNotStuck(s, p);
      }
      chain := Prepended(s, o, rest);
    }
  }

  lemma Prepended(s: State, o: nat, rest: seq<nat>) returns (chain: seq<nat>)
    requires rest != [] && HeldUpBy(s, o, rest[0]) && EndsWell(s, rest)
    ensures chain == [o] + rest && EndsWell(s, chain)
  {
    chain := [o] + rest;
    forall i | 0 <= i < |chain| - 1
      ensures HeldUpBy(s, chain[i], chain[i + 1])
    {
      if i > 0 {
        assert HeldUpBy(s, rest[i - 1], rest[i - 1 + 1]);
      }
    }
  }

  /** A free mutex goes to whoever is next in line for it. */
  lemma NextInLine(s: State, o: nat) returns (chain: seq<nat>)
    requires Inv(s) && Blocked(s, o) && s.ops[o].locks[s.ops[o].taken] < |s.mutexes|
    requires s.mutexes[s.ops[o].locks[s.ops[o].taken]].owner.None?
    ensures chain != [] && chain[0] == o && EndsWell(s, chain)
  {
    var m := s.ops[o].locks[s.ops[o].taken];
    assert OpOk(s, o) && ClaimsOk(s, o) && MutexOk(s, m);
    var h := s.mutexes[m].queue[0];
    assert h in s.mutexes[m].queue;
    assert OpOk(s, h);
    assert CanGrant(s, h);
    chain := if h == o then [o] else [o, h];
  }

  /** No deadlock: from every operation that does not have its whole guard yet, following who holds up
      whom leads to one that can take a step, or has its whole guard and will release it. */
  lemma NoDeadlock(s: State, o: nat) returns (chain: seq<nat>)
    requires Inv(s) && o < |s.ops| && Pending(s.ops[o])
    ensures chain != [] && chain[0] == o && EndsWell(s, chain)
  {
    assert OpOk(s, o);
    if Blocked(s, o) {
      chain := BlockedChain(s, o);
    } else if s.ops[o].phase.Queued? && s.inRegistry.Some? {
      var r := s.inRegistry.value;
      assert OpOk(s, r);
      assert CanMove(s, r);
      chain := [o, r];
    } else {
      UnblockedMoves(s, o);
      chain := [o];
    }
  }

  lemma OwnerIsNotStuck(s: State, p: nat)
    requires Inv(s) && p < |s.ops| && (s.ops[p].phase.Acquiring? || s.ops[p].phase.Releasing?) && !Blocked(s, p)
    ensures CanMove(s, p) || Guarded(s.ops[p])
  {
    var op := s.ops[p];
    assert OpOk(s, p) && RefsOk(s, p);
    if op.phase.Releasing? {
      assert op.dropped < |op.locks| ==> Refers(op, op.dropped);
      assert CanDrop(s, p);
    } else if op.taken < |op.locks| {
      assert Refers(op, op.taken);
      assert CanWait(s, p);
    }
  }

  lemma UnblockedMoves(s: State, o: nat)
    requires Inv(s) && o < |s.ops| && Pending(s.ops[o]) && !Blocked(s, o)
    requires s.ops[o].phase.Queued? ==> s.inRegistry.None?
    ensures CanMove(s, o)
  {
    assert OpOk(s, o);
    if s.ops[o].phase.Acquiring? {
      OwnerIsNotStuck(s, o);
    }
  }

  // ---------------------------------------------------------------- whole runs

  lemma StepKeepsInv(s: State, step: Step)
    requires Inv(s) && Enabled(s, step)
    ensures Inv(Apply(s, step))
  {
    match step
    case Arrive(keys) => ArriveKeeps(s, keys);
    case Enter(o) => EnterKeeps(s, o);
    case Resolve(o) => ResolveKeeps(s, o);
    case Leave(o) => LeaveKeeps(s, o);
    case Wait(o) => WaitKeeps(s, o);
    case Grant(o) => GrantKeeps(s, o);
    case Quit(o) => QuitKeeps(s, o);
    case Drop(o) => DropKeeps(s, o);
  }

  ghost predicate Follows(s: State, step: Step, s': State) {
    Enabled(s, step) && s' == Apply(s, step)
  }

  ghost predicate IsRun(states: seq<State>, steps: seq<Step>) {
    && |states| == |steps| + 1 && states[0] == EMPTY
    && forall i :: 0 <= i < |steps| ==> Follows(states[i], steps[i], states[i + 1])
  }

  /** Every state reached from an empty registry, in any interleaving and with any cancellations,
      satisfies the invariant the results above are stated for. */
  lemma {:induction false} RunKeepsInv(states: seq<State>, steps: seq<Step>, i: nat)
    requires IsRun(states, steps) && i < |states|
    ensures Inv(states[i])
  {
    if i > 0 {
      RunKeepsInv(states, steps, i - 1);
      assert Follows(states[i - 1], steps[i - 1], states[i - 1 + 1]);
      StepKeepsInv(states[i - 1], steps[i - 1]);
    }
  }

  /** In every state of every run no key has two holders, all references to a key lead to one
      mutex, and nobody is stuck. */
  lemma RunsAreSafe(states: seq<State>, steps: seq<Step>, n: nat)
    requires IsRun(states, steps) && n < |states|
    ensures var s := states[n];
            && (forall o: nat, p: nat, key ::
                  o < |s.ops| && p < |s.ops| && HoldsKey(s, o, key) && HoldsKey(s, p, key) ==> o == p)
            && (forall o: nat, p: nat :: o < |s.ops| && p < |s.ops| ==> AgreeOnMutexes(s.ops[o], s.ops[p]))
            && (forall o: nat :: o < |s.ops| && Pending(s.ops[o]) ==>
                  exists chain :: EndsWell(s, chain) && chain[0] == o)
  {
    var s := states[n];
    RunKeepsInv(states, steps, n);
    forall o: nat, p: nat, key | o < |s.ops| && p < |s.ops| && HoldsKey(s, o, key) && HoldsKey(s, p, key)
      ensures o == p
    {
      MutualExclusion(s, o, p, key);
    }
    forall o: nat, p: nat | o < |s.ops| && p < |s.ops|
      ensures AgreeOnMutexes(s.ops[o], s.ops[p])
    {
      assert OpOk(s, o) && OpOk(s, p);
      forall i: nat, j: nat | Refers(s.ops[o], i) && Refers(s.ops[p], j)
        ensures s.ops[o].keys[i] == s.ops[p].keys[j] <==> s.ops[o].locks[i] == s.ops[p].locks[j]
      {
        OneMutexPerKey(s, o, i, p, j);
      }
    }
    forall o: nat | o < |s.ops| && Pending(s.ops[o])
      ensures exists chain :: EndsWell(s, chain) && chain[0] == o
    {
      var chain := NoDeadlock(s, o);
    }
  }

  /** Live references of two operations lead to the same mutex exactly when they are for the same key. */
  ghost predicate AgreeOnMutexes(a: Op, b: Op) {
    && |a.locks| <= |a.keys| && |b.locks| <= |b.keys|
    && forall i: nat, j: nat :: Refers(a, i) && Refers(b, j) ==> (a.keys[i] == b.keys[j] <==> a.locks[i] == b.locks[j])
  }

  // ---------------------------------------------------------------- the registry object

  /** The weak map itself. A mutex that nobody refers to any more is gone at any moment, so what is alive
      is given for each moment of a call: `alive(0)` when the map is pruned, `alive(n + 1)` when the
      reference of the `n`-th key is taken. */
  class KeyedLifecycleRegistry {
    var registry: map<string, nat>
    var created: nat

    ghost predicate Valid()
      reads this
    {
      && (forall k :: k in registry ==> registry[k] < created)
      && (forall k, l :: k in registry && l in registry && registry[k] == registry[l] ==> k == l)
    }

    constructor ()
      ensures Valid() && registry == map[]
    {
      registry, created := map[], 0;
    }

    /** The registered mutex of a key if it is still alive, or a new one registered for it. */
    method LockFor(key: string, alive: set<nat>) returns (m: nat)
      requires Valid()
      modifies this
      ensures Valid() && key in registry && registry[key] == m
      ensures if key in old(registry) && old(registry)[key] in alive
              then registry == old(registry) && created == old(created)
              else m == old(created) && registry == old(registry)[key := m] && created == old(created) + 1
    {
      if key !in registry || registry[key] !in alive {
        registry := registry[key := created];
        created := created + 1;
      }
      m := registry[key];
    }

    /** One mutex per distinct key, in key order: the registered one if it is alive when its reference is
        taken, otherwise a new one. Entries whose mutex is gone are pruned unless the key is asked for. */
    method LocksFor(keys: seq<string>, alive: nat -> set<nat>) returns (locks: seq<nat>)
      requires Valid()
      modifies this
      ensures Valid()
      ensures var live := map k | k in old(registry) && old(registry)[k] in alive(0) :: old(registry)[k];
              var ids := Identities(keys);
              && Extends(registry, live, old(created), ids) && |locks| == |ids|
              && forall i :: 0 <= i < |locks| ==> Chosen(registry, live, old(created), ids[i], locks[i], alive(i + 1))
    {
      registry := map k | k in registry && registry[k] in alive(0) :: registry[k];
      SortedIsDistinct(Identities(keys));
      locks := ResolveAll(Identities(keys), alive);
    }

    method ResolveAll(ids: seq<string>, alive: nat -> set<nat>) returns (locks: seq<nat>)
      requires Valid() && Distinct(ids)
      modifies this
      ensures Valid() && Extends(registry, old(registry), old(created), ids) && |locks| == |ids|
      ensures forall i :: 0 <= i < |locks| ==>
                Chosen(registry, old(registry), old(created), ids[i], locks[i], alive(i + 1))
    {
      ghost var live, floor := registry, created;
      locks := [];
      for n := 0 to |ids|
        invariant Valid() && created >= floor && |locks| == n && Extends(registry, live, floor, ids)
        invariant forall i :: n <= i < |ids| ==> Untouched(registry, live, ids[i])
        invariant forall i :: 0 <= i < n ==> Chosen(registry, live, floor, ids[i], locks[i], alive(i + 1))
      {
        ghost var before := registry;
        var m := LockFor(ids[n], alive(n + 1));
        OneMoreChosen(before, registry, live, floor, ids, n, m, alive(n + 1));
        OthersStay(before, registry, ids, n, m);
        locks := locks + [m];
      }
    }
  }

  /** What a call leaves behind: the live entries it found, plus the keys it was asked for. */
  ghost predicate Extends(registry: map<string, nat>, live: map<string, nat>, floor: nat, ids: seq<string>) {
    && (forall k :: k in live ==> k in registry && (registry[k] == live[k] || (k in ids && registry[k] >= floor)))
    && (forall k :: k in registry && k !in live ==> k in ids && registry[k] >= floor)
  }

  /** The key's mutex is the live one found, or a new one if that was gone by then. */
  ghost predicate Chosen(registry: map<string, nat>, live: map<string, nat>, floor: nat, id: string, m: nat,
                         alive: set<nat>) {
    && id in registry && registry[id] == m
    && if id in live && live[id] in alive then m == live[id] else m >= floor
  }

  /** The key's entry is still as it was found. */
  ghost predicate Untouched(registry: map<string, nat>, live: map<string, nat>, id: string) {
    if id in live then id in registry && registry[id] == live[id] else id !in registry
  }

  lemma OneMoreChosen(before: map<string, nat>, after: map<string, nat>, live: map<string, nat>, floor: nat,
                      ids: seq<string>, n: nat, m: nat, alive: set<nat>)
    requires n < |ids| && Untouched(before, live, ids[n]) && Extends(before, live, floor, ids)
    requires if ids[n] in before && before[ids[n]] in alive then after == before && m == before[ids[n]]
             else after == before[ids[n] := m] && m >= floor
    ensures Chosen(after, live, floor, ids[n], m, alive) && Extends(after, live, floor, ids)
  {
  }

  /** Resolving one key leaves the entries of the others alone. */
  lemma OthersStay(before: map<string, nat>, after: map<string, nat>, ids: seq<string>, n: nat, m: nat)
    requires n < |ids| && Distinct(ids) && (after == before || after == before[ids[n] := m])
    ensures forall i :: 0 <= i < |ids| && i != n ==> (ids[i] in before <==> ids[i] in after)
    ensures forall i :: 0 <= i < |ids| && i != n && ids[i] in before ==> after[ids[i]] == before[ids[i]]
  {
  }

  lemma SortedIsDistinct(keys: seq<string>)
    requires Sorted(keys)
    ensures Distinct(keys)
  {
    forall i, j | 0 <= i < j < |keys|
      ensures keys[i] != keys[j]
    {
      LessIsIrreflexive(keys[j]);
    }
  }
}
