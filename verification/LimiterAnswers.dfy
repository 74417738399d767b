/**
 What each call to the permit limiter answers and changes, told by the permits and the waiting requests
 alone, and who can take a permit away.
 */
module LimiterAnswers {
  import opened Common
  import opened ProviderLimiter

  // ---------------------------------------------------------------- promotion

  /** The permits of the first `n` waiting requests join the others, with the next `n` tokens. */
  ghost predicate Given(s: State, s': State, n: nat) {
    && n <= |s.queue| && s'.limit == s.limit
    && (forall t :: t in s'.active <==> t in s.active || |s.granted| <= t < |s.granted| + n)
    && (forall t :: t in s.active && t < |s.granted| ==> s'.active[t] == s.active[t])
    && (forall i :: 0 <= i < n ==> s'.active[|s.granted| + i] == Permit(s.queue[i], |s.granted| + i))
  }

  /** They leave the queue from the front, and are entered as granted in that order. */
  ghost predicate Served(s: State, s': State, n: nat) {
    n <= |s.queue| && s'.queue == s.queue[n..] && s'.granted == s.granted + Arrivals(s.queue[..n])
  }

  /** There is room for so many more of them. */
  function Room(limit: nat, active: nat, waiting: nat): nat {
    if active >= limit then 0 else if limit - active < waiting then limit - active else waiting
  }

  /** As many waiting requests as there is room for got permits, from the front. */
  ghost predicate Promoted(s: State, s': State) {
    var n := Room(s.limit, |s.active|, |s.queue|);
    Given(s, s', n) && Served(s, s', n)
  }

  /** Every token in use was given before. */
  ghost predicate TokensAreOld(s: State) {
    forall t :: t in s.active ==> t < |s.granted|
  }

  lemma GivenOne(s: State)
    requires s.queue != [] && TokensAreOld(s)
    ensures Given(s, PromoteOne(s), 1) && TokensAreOld(PromoteOne(s))
    ensures |PromoteOne(s).active| == |s.active| + 1
  {
    assert |s.granted| !in s.active;
  }

  lemma GivenMore(s: State, s1: State, s': State, n: nat)
    requires s.queue != [] && Given(s, s1, 1) && Given(s1, s', n)
    requires s1.queue == s.queue[1..] && |s1.granted| == |s.granted| + 1
    requires TokensAreOld(s)
    ensures Given(s, s', n + 1)
  {
    forall i | 0 <= i < n + 1
      ensures s'.active[|s.granted| + i] == Permit(s.queue[i], |s.granted| + i)
    {
      if i > 0 {
        assert s'.active[|s1.granted| + (i - 1)] == Permit(s1.queue[i - 1], |s1.granted| + (i - 1));
      }
    }
  }

  lemma {:induction false} PromoteGives(s: State)
    requires TokensAreOld(s)
    ensures Given(s, Promote(s), Room(s.limit, |s.active|, |s.queue|))
    decreases |s.queue|
  {
    if |s.active| < s.limit && s.queue != [] {
      GivenOne(s);
      PromoteGives(PromoteOne(s));
      GivenMore(s, PromoteOne(s), Promote(s), Room(s.limit, |s.active| + 1, |s.queue| - 1));
    }
  }

  lemma PromoteIsExact(s: State)
    requires Sound(s)
    ensures Promoted(s, Promote(s))
  {
    SoundTokensAreOld(s);
    PromoteGives(s);
    PromoteTakesTheFront(s);
  }

  lemma SoundTokensAreOld(s: State)
    requires Sound(s)
    ensures TokensAreOld(s)
  {
  }

  lemma PromoteTakesTheFront(s: State)
    requires Sound(s)
    ensures Served(s, Promote(s), Room(s.limit, |s.active|, |s.queue|))
  {
    PromoteGrantsTheFront(s);
  }

  // ---------------------------------------------------------------- who has or waits for what

  ghost predicate HasPermit(s: State, id: string, t: nat) {
    t in s.active && s.active[t].request.id == id
  }

  ghost predicate WaitsAt(s: State, id: string, k: nat) {
    k < |s.queue| && s.queue[k].id == id
  }

  lemma PermitIsKnown(s: State, id: string, t: nat)
    requires Inv(s) && HasPermit(s, id, t)
    ensures id in s.tokens && s.tokens[id] == t && OwnerOf(s, id) == Some(s.active[t].request.caller)
  {
  }

  lemma {:induction false} FirstPosition(queue: seq<Request>, low: int, high: int, taken: set<string>, k: nat)
    requires InLine(queue, low, high, taken) && k < |queue|
    ensures Position(queue, queue[k].id) == Some(k)
  {
    if k > 0 {
      InLinePair(queue, low, high, taken, 0, k);
      FirstPosition(queue[1..], queue[0].arrival, high, taken + {queue[0].id}, k - 1);
    }
  }

  lemma WaiterIsKnown(s: State, id: string, k: nat)
    requires Inv(s) && WaitsAt(s, id, k)
    ensures id !in s.tokens && Position(s.queue, id) == Some(k) && OwnerOf(s, id) == Some(s.queue[k].caller)
  {
    FirstPosition(s.queue, LastGranted(s.granted), s.issued, s.tokens.Keys, k);
    InLineAt(s.queue, LastGranted(s.granted), s.issued, s.tokens.Keys, k);
  }

  lemma StrangerIsUnknown(s: State, id: string)
    requires Inv(s) && (forall t :: !HasPermit(s, id, t)) && forall k: nat :: !WaitsAt(s, id, k)
    ensures id !in s.tokens && Position(s.queue, id).None?
  {
    if id in s.tokens {
      assert HasPermit(s, id, s.tokens[id]);
    }
    var index := Position(s.queue, id);
    if index.Some? {
      assert WaitsAt(s, id, index.value);
    }
  }

  // ---------------------------------------------------------------- acquire and status

  /** Identities are 1 to 200 letters, digits, hyphens, underscores and dots. */
  lemma ValidIdentityIff(value: string)
    ensures ValidIdentity(value) <==>
            && 1 <= |value| <= 200
            && forall c :: c in value ==> IsPlain(c)
  {
    assert forall i :: 0 <= i < |value| ==> value[i] in value && (IdentityCharacter(value[i]) <==> IsPlain(value[i]));
  }

  predicate IsPlain(c: char) {
    'a' <= c <= 'z' || 'A' <= c <= 'Z' || '0' <= c <= '9' || c in {'-', '_', '.'}
  }

  /** The answer to somebody who asks again: its place, if it is the caller's own. */
  lemma AskingForAPermitAgain(s: State, id: string, caller: Caller, slot: string, unitKind: string, unitId: string,
                              t: nat)
    requires Inv(s) && ValidIdentity(id) && ValidIdentity(slot) && ValidIdentity(unitKind) && ValidIdentity(unitId)
    requires HasPermit(s, id, t)
    ensures AfterAcquire(s, id, caller, slot, unitKind, unitId) ==
            (s, if s.active[t].request.caller == caller then Ok(Acquired(id, t, s.limit, |s.active|))
                else Err(IdentityConflict))
  {
    PermitIsKnown(s, id, t);
  }

  lemma AskingWhileWaiting(s: State, id: string, caller: Caller, slot: string, unitKind: string, unitId: string,
                           k: nat)
    requires Inv(s) && ValidIdentity(id) && ValidIdentity(slot) && ValidIdentity(unitKind) && ValidIdentity(unitId)
    requires WaitsAt(s, id, k)
    ensures AfterAcquire(s, id, caller, slot, unitKind, unitId) ==
            (s, if s.queue[k].caller == caller then Ok(Queued(id, k + 1, s.limit, |s.active|))
                else Err(IdentityConflict))
  {
    WaiterIsKnown(s, id, k);
  }

  /** The answer to a new request: a permit with the next token if there is one to be had, else the end of the
      queue, else an error. */
  ghost predicate IsFirstAnswer(s: State, request: Request, s': State, r: Result<Projection>) {
    var token := |s.granted|;
    if |s.active| < s.limit then
      && r == Ok(Acquired(request.id, token, s.limit, |s.active| + 1)) && token !in s.active
      && s'.active == s.active[token := Permit(request, token)] && s'.queue == s.queue && s'.limit == s.limit
    else if |s.queue| >= 512 then
      s' == s && r == Err(CapacityExhausted)
    else
      && r == Ok(Queued(request.id, |s.queue| + 1, s.limit, |s.active|))
      && s'.active == s.active && s'.queue == s.queue + [request] && s'.limit == s.limit
  }

  lemma AskingFirst(s: State, id: string, caller: Caller, slot: string, unitKind: string, unitId: string)
    requires Inv(s) && (forall t :: !HasPermit(s, id, t)) && forall k: nat :: !WaitsAt(s, id, k)
    ensures var (s', r) := AfterAcquire(s, id, caller, slot, unitKind, unitId);
            if ValidIdentity(id) && ValidIdentity(slot) && ValidIdentity(unitKind) && ValidIdentity(unitId)
            then IsFirstAnswer(s, Request(id, caller, slot, unitKind, unitId, s.issued), s', r)
            else s' == s && r == Err(IdentityInvalid)
  {
    StrangerIsUnknown(s, id);
    var request := Request(id, caller, slot, unitKind, unitId, s.issued);
    if |s.active| < s.limit {
      GrantIsFirstAnswer(s, request);
    } else if |s.queue| < MAX_QUEUE {
      QueuedIsFirstAnswer(s, request);
    }
  }

  lemma GrantIsFirstAnswer(s: State, request: Request)
    requires Inv(s) && |s.active| < s.limit && request.id !in s.tokens
    ensures var s' := Grant(s.(issued := s.issued + 1), request);
            IsFirstAnswer(s, request, s', Ok(Acquired(request.id, |s.granted|, s'.limit, |s'.active|)))
  {
    GrantKeepsInverse(s.(issued := s.issued + 1), request);
  }

  lemma QueuedIsFirstAnswer(s: State, request: Request)
    requires Inv(s) && |s.active| >= s.limit && |s.queue| < MAX_QUEUE && request.id !in s.tokens
    requires Position(s.queue, request.id).None?
    ensures var s' := s.(issued := s.issued + 1, queue := s.queue + [request]);
            && ProjectionFor(s', request.id).Some?
            && IsFirstAnswer(s, request, s', Ok(ProjectionFor(s', request.id).value))
  {
    LastPosition(s.queue, request);
  }

  /** The status of a permit is told to its owner alone. */
  lemma StatusOfAPermit(s: State, id: string, caller: Caller, t: nat)
    requires Inv(s) && HasPermit(s, id, t)
    ensures StatusOf(s, id, caller) == if s.active[t].request.caller == caller
                                       then Ok(Acquired(id, t, s.limit, |s.active|)) else Err(NotFound)
  {
    PermitIsKnown(s, id, t);
  }

  lemma StatusOfAWaiter(s: State, id: string, caller: Caller, k: nat)
    requires Inv(s) && WaitsAt(s, id, k)
    ensures StatusOf(s, id, caller) == if s.queue[k].caller == caller
                                       then Ok(Queued(id, k + 1, s.limit, |s.active|)) else Err(NotFound)
  {
    WaiterIsKnown(s, id, k);
  }

  lemma StatusOfNothing(s: State, id: string, caller: Caller)
    requires Inv(s) && (forall t :: !HasPermit(s, id, t)) && forall k: nat :: !WaitsAt(s, id, k)
    ensures StatusOf(s, id, caller) == Err(NotFound)
  {
    StrangerIsUnknown(s, id);
  }

  // ---------------------------------------------------------------- release and cancel

  function WithoutPermit(s: State, token: nat): State {
    s.(active := s.active - {token})
  }

  /** The permit is gone, and whoever there is room for is promoted. */
  ghost predicate Freed(s: State, s': State, token: nat) {
    Promoted(WithoutPermit(s, token), s') && token !in s'.active
  }

  lemma RemovalFrees(s: State, token: nat)
    requires Inv(s) && token in s.active
    ensures Freed(s, Promote(RemoveToken(s, token)), token)
  {
    RemoveKeepsInv(s, token);
    PromoteIsExact(RemoveToken(s, token));
    SamePromotion(RemoveToken(s, token), WithoutPermit(s, token), Promote(RemoveToken(s, token)));
  }

  /** The map from ids to tokens has no part in what is said about a promotion. */
  lemma SamePromotion(s: State, s1: State, s': State)
    requires s1.limit == s.limit && s1.active == s.active && s1.queue == s.queue && s1.granted == s.granted
    requires Promoted(s, s')
    ensures Promoted(s1, s')
  {
    SameGiven(s, s1, s', Room(s.limit, |s.active|, |s.queue|));
  }

  lemma SameGiven(s: State, s1: State, s': State, n: nat)
    requires s1.limit == s.limit && s1.active == s.active && s1.queue == s.queue && s1.granted == s.granted
    requires Given(s, s', n)
    ensures Given(s1, s', n)
  {
  }

  /** Its own caller frees a permit; anybody else is refused and changes nothing. */
  lemma ReleaseIsForTheOwner(s: State, token: nat, caller: Caller)
    requires Inv(s)
    ensures var (s', r) := AfterRelease(s, token, caller);
            if token !in s.active then s' == s && r == Ok(false)
            else if s.active[token].request.caller == caller then r == Ok(true) && Freed(s, s', token)
            else s' == s && r == Err(IdentityConflict)
  {
    if token in s.active {
      RemovalFrees(s, token);
    }
  }

  lemma {:induction false} OwnPositionIs(queue: seq<Request>, low: int, high: int, taken: set<string>, k: nat,
                                         caller: Caller)
    requires InLine(queue, low, high, taken) && k < |queue|
    ensures OwnPosition(queue, queue[k].id, caller) == if queue[k].caller == caller then Some(k) else None
  {
    if k > 0 {
      InLinePair(queue, low, high, taken, 0, k);
      OwnPositionIs(queue[1..], queue[0].arrival, high, taken + {queue[0].id}, k - 1, caller);
    } else {
      NotTwice(queue[1..], queue[0].arrival, high, taken + {queue[0].id}, queue[0].id, caller);
    }
  }

  lemma {:induction false} NotTwice(queue: seq<Request>, low: int, high: int, taken: set<string>, id: string,
                                    caller: Caller)
    requires InLine(queue, low, high, taken) && id in taken
    ensures OwnPosition(queue, id, caller).None?
  {
    if queue != [] {
      NotTwice(queue[1..], queue[0].arrival, high, taken + {queue[0].id}, id, caller);
    }
  }

  /** Its own caller takes a waiting request out of the queue, leaving the others in their order. */
  lemma CancelTakesTheWaiterOut(s: State, id: string, caller: Caller, k: nat)
    requires Inv(s) && WaitsAt(s, id, k)
    ensures AfterCancel(s, id, caller) ==
            if s.queue[k].caller == caller then (s.(queue := s.queue[..k] + s.queue[k + 1..]), Ok(true))
            else (s, Ok(false))
  {
    OwnPositionIs(s.queue, LastGranted(s.granted), s.issued, s.tokens.Keys, k, caller);
    WaiterIsKnown(s, id, k);
  }

  /** Its own caller frees a permit by its id; anybody else is refused. */
  lemma CancelFreesThePermit(s: State, id: string, caller: Caller, t: nat)
    requires Inv(s) && HasPermit(s, id, t)
    ensures var (s', r) := AfterCancel(s, id, caller);
            if s.active[t].request.caller == caller then r == Ok(true) && Freed(s, s', t)
            else s' == s && r == Err(IdentityConflict)
  {
    PermitIsKnown(s, id, t);
    NotTwice(s.queue, LastGranted(s.granted), s.issued, s.tokens.Keys, id, caller);
    RemovalFrees(s, t);
  }

  /** Whoever has nothing and waits for nothing has nothing to cancel. */
  lemma CancelOfNothing(s: State, id: string, caller: Caller)
    requires Inv(s) && (forall t :: !HasPermit(s, id, t)) && forall k: nat :: !WaitsAt(s, id, k)
    ensures AfterCancel(s, id, caller) == (s, Ok(false))
  {
    StrangerIsUnknown(s, id);
    NoOwnPosition(s.queue, id, caller);
  }

  lemma NoOwnPosition(queue: seq<Request>, id: string, caller: Caller)
    requires Position(queue, id).None?
    ensures OwnPosition(queue, id, caller).None?
  {
    assert forall i :: 0 <= i < |queue| ==> queue[i].id != id;
  }

  // ---------------------------------------------------------------- retire, limit and clear

  predicate IsOfGeneration(r: Request, workspace: string, session: string, generation: nat) {
    r.caller.workspace == workspace && r.caller.session == session && r.caller.generation == generation
  }

  /** The permits of other generations. */
  function OtherPermits(s: State, workspace: string, session: string, generation: nat): map<nat, Permit> {
    map t | t in s.active && !IsOfGeneration(s.active[t].request, workspace, session, generation) :: s.active[t]
  }

  function WithoutGeneration(s: State, workspace: string, session: string, generation: nat): State {
    s.(active := OtherPermits(s, workspace, session, generation),
       queue := Retained(s.queue, workspace, session, generation))
  }

  /** Retiring takes out exactly the permits and the waiting requests of that generation, reports how many,
      and promotes whoever there is room for. */
  lemma RetireTakesTheGeneration(s: State, workspace: string, session: string, generation: nat)
    requires Inv(s)
    ensures var (s', removed) := AfterRetire(s, workspace, session, generation);
            var rest := WithoutGeneration(s, workspace, session, generation);
            && Promoted(rest, s')
            && removed == (|s.active| - |rest.active|) + (|s.queue| - |rest.queue|)
    ensures forall r :: r in Retained(s.queue, workspace, session, generation) <==>
              r in s.queue && !IsOfGeneration(r, workspace, session, generation)
  {
    var rest := Without(s, workspace, session, generation);
    WithoutKeepsSound(s, workspace, session, generation);
    PromoteIsExact(rest);
    RestIsOthers(s, workspace, session, generation);
    SamePromotion(rest, WithoutGeneration(s, workspace, session, generation), Promote(rest));
    Counted(s.active, RetiredTokens(s.active, workspace, session, generation));
    forall r
      ensures r in Retained(s.queue, workspace, session, generation) <==>
              r in s.queue && !IsOfGeneration(r, workspace, session, generation)
    {
      RetainedAre(s.queue, workspace, session, generation, r);
    }
  }

  lemma RestIsOthers(s: State, workspace: string, session: string, generation: nat)
    ensures Without(s, workspace, session, generation).active == OtherPermits(s, workspace, session, generation)
    ensures s.active - RetiredTokens(s.active, workspace, session, generation)
         == OtherPermits(s, workspace, session, generation)
  {
  }

  lemma Counted(m: map<nat, Permit>, gone: set<nat>)
    requires gone <= m.Keys
    ensures |m| == |m - gone| + |gone|
  {
    assert (m - gone).Keys == m.Keys - gone;
    assert m.Keys == (m.Keys - gone) + gone;
    assert |m.Keys| == |m| && |(m - gone).Keys| == |m - gone|;
  }

  /** A new limit is brought between 1 and 16, and takes effect at once. */
  lemma LimitTakesEffect(s: State, limit: nat)
    requires Inv(s)
    ensures var brought := if limit < 1 then 1 else if limit > 16 then 16 else limit;
            Promoted(s.(limit := brought), Apply(s, SetLimit(limit)))
  {
    PromoteIsExact(s.(limit := Clamp(limit)));
  }

  lemma ClearedIsEmpty(s: State)
    ensures Apply(s, Clear).active == map[] && Apply(s, Clear).queue == [] && Apply(s, Clear).limit == s.limit
  {
  }

  // ---------------------------------------------------------------- who can take a permit away

  /** Its own caller releases or cancels it, its generation is retired, or everything is cleared. */
  predicate TakesAway(call: Call, p: Permit) {
    match call
    case Release(token, caller) => token == p.token && caller == p.request.caller
    case Cancel(id, caller) => id == p.request.id && caller == p.request.caller
    case Retire(workspace, session, generation) => IsOfGeneration(p.request, workspace, session, generation)
    case Clear => true
    case _ => false
  }

  lemma PromotedKeeps(s: State, s1: State, s': State, t: nat)
    requires Inv(s) && t in s.active && t in s1.active && s1.active[t] == s.active[t] && s1.granted == s.granted
    requires Promoted(s1, s')
    ensures t in s'.active && s'.active[t] == s.active[t]
  {
  }

  lemma ReleaseKeepsOthers(s: State, token: nat, caller: Caller, t: nat)
    requires Inv(s) && t in s.active && !TakesAway(Release(token, caller), s.active[t])
    ensures var s' := AfterRelease(s, token, caller).0; t in s'.active && s'.active[t] == s.active[t]
  {
    ReleaseIsForTheOwner(s, token, caller);
    var s', s1 := AfterRelease(s, token, caller).0, WithoutPermit(s, token);
    if s' != s {
      PromotedKeeps(s, s1, s', t);
    }
  }

  lemma CancelKeepsOthers(s: State, id: string, caller: Caller, t: nat)
    requires Inv(s) && t in s.active && !TakesAway(Cancel(id, caller), s.active[t])
    ensures var s' := AfterCancel(s, id, caller).0; t in s'.active && s'.active[t] == s.active[t]
  {
    var s' := AfterCancel(s, id, caller).0;
    if u :| HasPermit(s, id, u) {
      CancelFreesThePermit(s, id, caller, u);
      var s1 := WithoutPermit(s, u);
      if s' != s {
        PromotedKeeps(s, s1, s', t);
      }
    } else if k: nat :| WaitsAt(s, id, k) {
      CancelTakesTheWaiterOut(s, id, caller, k);
    } else {
      CancelOfNothing(s, id, caller);
    }
  }

  lemma RetireKeepsOthers(s: State, workspace: string, session: string, generation: nat, t: nat)
    requires Inv(s) && t in s.active && !IsOfGeneration(s.active[t].request, workspace, session, generation)
    ensures var s' := AfterRetire(s, workspace, session, generation).0; t in s'.active && s'.active[t] == s.active[t]
  {
    RetireTakesTheGeneration(s, workspace, session, generation);
    PromotedKeeps(s, WithoutGeneration(s, workspace, session, generation),
                  AfterRetire(s, workspace, session, generation).0, t);
  }

  lemma SetLimitKeepsPermits(s: State, limit: nat, t: nat)
    requires Inv(s) && t in s.active
    ensures var s' := Apply(s, SetLimit(limit)); t in s'.active && s'.active[t] == s.active[t]
  {
    var s1 := s.(limit := Clamp(limit));
    PromoteIsExact(s1);
    PromotedKeeps(s, s1, Promote(s1), t);
  }

  lemma AcquireKeepsPermits(s: State, id: string, caller: Caller, slot: string, unitKind: string, unitId: string,
                            t: nat)
    requires Inv(s) && t in s.active
    ensures var s' := AfterAcquire(s, id, caller, slot, unitKind, unitId).0;
            t in s'.active && s'.active[t] == s.active[t]
  {
  }

  lemma PermitStays(s: State, call: Call, t: nat)
    requires Inv(s) && t in s.active && !TakesAway(call, s.active[t])
    ensures t in Apply(s, call).active && Apply(s, call).active[t] == s.active[t]
  {
    match call
    case SetLimit(limit) => SetLimitKeepsPermits(s, limit, t);
    case Acquire(id, caller, slot, unitKind, unitId) => AcquireKeepsPermits(s, id, caller, slot, unitKind, unitId, t);
    case Release(token, caller) => ReleaseKeepsOthers(s, token, caller, t);
    case Cancel(id, caller) => CancelKeepsOthers(s, id, caller, t);
    case Retire(workspace, session, generation) => RetireKeepsOthers(s, workspace, session, generation, t);
  }

  lemma PermitIsTaken(s: State, call: Call, t: nat)
    requires Inv(s) && t in s.active && TakesAway(call, s.active[t])
    ensures t !in Apply(s, call).active
  {
    match call
    case Release(token, caller) => ReleaseIsForTheOwner(s, token, caller);
    case Cancel(id, caller) => CancelFreesThePermit(s, id, caller, t);
    case Retire(workspace, session, generation) => RetireTakesTheGeneration(s, workspace, session, generation);
    case Clear =>
  }

  /**
   A permit is still held later, unchanged, if and only if in between its own caller neither released nor
   cancelled it, its generation was not retired and nothing was cleared.
   */
  lemma PermitLastsIff(states: seq<State>, calls: seq<Call>, i: nat, j: nat, t: nat)
    requires IsRun(states, calls) && i <= j < |states| && t in states[i].active
    ensures t in states[j].active <==> forall k :: i <= k < j ==> !TakesAway(calls[k], states[i].active[t])
    ensures t in states[j].active ==> states[j].active[t] == states[i].active[t]
  {
    forall n: nat | i <= n < j
      ensures PermitStep(states, calls, n, t, states[i].active[t])
    {
      PermitAfterCall(states, calls, i, n, t);
    }
    PermitFrom(states, calls, i, j, t);
  }

  /** The call keeps the permit as it is, or takes it away. */
  ghost predicate PermitStep(states: seq<State>, calls: seq<Call>, n: nat, t: nat, p: Permit)
    requires n < |calls| && n + 1 < |states|
  {
    (t in states[n].active ==> states[n].active[t] == p) ==>
      && (t in states[n + 1].active <==> t in states[n].active && !TakesAway(calls[n], p))
      && (t in states[n + 1].active ==> states[n + 1].active[t] == p)
  }

  lemma {:induction false} PermitFrom(states: seq<State>, calls: seq<Call>, i: nat, j: nat, t: nat)
    requires |states| == |calls| + 1 && i <= j < |states| && t in states[i].active
    requires forall n: nat :: i <= n < j ==> PermitStep(states, calls, n, t, states[i].active[t])
    ensures t in states[j].active <==> forall k :: i <= k < j ==> !TakesAway(calls[k], states[i].active[t])
    ensures t in states[j].active ==> states[j].active[t] == states[i].active[t]
    decreases j
  {
    if i < j {
      PermitFrom(states, calls, i, j - 1, t);
      assert PermitStep(states, calls, j - 1, t, states[i].active[t]);
      OneMoreCall(calls, i, j, states[i].active[t]);
    }
  }

  lemma OneMoreCall(calls: seq<Call>, i: nat, j: nat, p: Permit)
    requires i < j <= |calls|
    ensures (forall k :: i <= k < j ==> !TakesAway(calls[k], p)) <==>
            (forall k :: i <= k < j - 1 ==> !TakesAway(calls[k], p)) && !TakesAway(calls[j - 1], p)
  {
  }

  lemma PermitAfterCall(states: seq<State>, calls: seq<Call>, i: nat, n: nat, t: nat)
    requires IsRun(states, calls) && i <= n < |calls| && t in states[i].active
    ensures PermitStep(states, calls, n, t, states[i].active[t])
  {
    RunKeepsInv(states, calls, i);
    RunKeepsInv(states, calls, n);
    GrantedGrows(states, calls, i, n);
    assert Follows(states[n], calls[n], states[n + 1]);
    FollowsPermit(states[n], calls[n], states[n + 1], t);
  }

  lemma FollowsPermit(s: State, call: Call, s': State, t: nat)
    requires Inv(s) && Follows(s, call, s') && t < |s.granted|
    ensures t in s'.active <==> t in s.active && !TakesAway(call, s.active[t])
    ensures t in s'.active ==> s'.active[t] == s.active[t]
  {
    if t !in s.active {
      StepTokensFresh(s, call);
    } else if TakesAway(call, s.active[t]) {
      PermitIsTaken(s, call, t);
    } else {
      PermitStays(s, call, t);
    }
  }

  lemma GrantedGrows(states: seq<State>, calls: seq<Call>, i: nat, j: nat)
    requires IsRun(states, calls) && i <= j < |states|
    ensures |states[i].granted| <= |states[j].granted|
  {
    for n := i to j
      invariant |states[i].granted| <= |states[n].granted|
    {
      GrantsOnce(states, calls, n);
    }
  }

  lemma GrantsOnce(states: seq<State>, calls: seq<Call>, n: nat)
    requires IsRun(states, calls) && n < |calls|
    ensures |states[n].granted| <= |states[n + 1].granted|
  {
    assert Follows(states[n], calls[n], states[n + 1]);
    FollowsGrants(states[n], calls[n], states[n + 1]);
  }

  lemma FollowsGrants(s: State, call: Call, s': State)
    requires Follows(s, call, s')
    ensures |s.granted| <= |s'.granted|
  {
    StepTokensFresh(s, call);
  }
}
