/**
 The limiter for heavy provider calls: two maps that mirror each other, a first-in first-out queue,
 and a limit that may change at any time.

 Every accepted request carries the number of its arrival, and `granted` lists the arrival numbers in
 the order in which permits were given. The `n`-th permit bears the token `n`, so tokens never repeat.
 */
module ProviderLimiter {
  import opened Common

  const MIN_CONCURRENCY := 1
  const MAX_CONCURRENCY := 16
  const MAX_QUEUE := 512
  const MAX_IDENTITY := 200

  datatype Caller = Caller(sidecar: string, generation: nat, workspace: string, session: string)
  datatype Request = Request(id: string, caller: Caller, slot: string, unitKind: string, unitId: string, arrival: nat)
  datatype Permit = Permit(request: Request, token: nat)

  datatype State = State(limit: nat, active: map<nat, Permit>, tokens: map<string, nat>, queue: seq<Request>,
                         issued: nat, granted: seq<nat>)

  datatype Projection =
    | Acquired(requestId: string, token: nat, limit: nat, activeCount: nat)
    | Queued(requestId: string, position: nat, limit: nat, activeCount: nat)

  datatype Error = IdentityInvalid | IdentityConflict | CapacityExhausted | QueueFailed | NotFound
  datatype Result<T> = Ok(value: T) | Err(error: Error)

  function Clamp(limit: nat): nat {
    if limit < MIN_CONCURRENCY then MIN_CONCURRENCY else if limit > MAX_CONCURRENCY then MAX_CONCURRENCY else limit
  }

  predicate IdentityCharacter(c: char) {
    'a' <= c <= 'z' || 'A' <= c <= 'Z' || '0' <= c <= '9' || c == '-' || c == '_' || c == '.'
  }

  predicate ValidIdentity(value: string) {
    0 < |value| <= MAX_IDENTITY && forall i :: 0 <= i < |value| ==> IdentityCharacter(value[i])
  }

  // ---------------------------------------------------------------- lookups

  /** The first position of a request in the queue. */
  function Position(queue: seq<Request>, id: string): (r: Option<nat>)
    ensures r.Some? ==> r.value < |queue| && queue[r.value].id == id
    ensures r.None? ==> forall i :: 0 <= i < |queue| ==> queue[i].id != id
  {
    if queue == [] then None
    else if queue[0].id == id then Some(0)
    else
      var rest := Position(queue[1..], id);
      if rest.Some? then Some(rest.value + 1) else None
  }

  function ProjectionFor(s: State, id: string): Option<Projection> {
    if id in s.tokens then Some(Acquired(id, s.tokens[id], s.limit, |s.active|))
    else
      var index := Position(s.queue, id);
      if index.Some? then Some(Queued(id, index.value + 1, s.limit, |s.active|)) else None
  }

  function OwnerOf(s: State, id: string): Option<Caller> {
    if id in s.tokens && s.tokens[id] in s.active then Some(s.active[s.tokens[id]].request.caller)
    else
      var index := Position(s.queue, id);
      if index.Some? then Some(s.queue[index.value].caller) else None
  }

  // ---------------------------------------------------------------- what the calls do

  function Grant(s: State, r: Request): State {
    var token := |s.granted|;
    s.(tokens := s.tokens[r.id := token],
       active := s.active[token := Permit(r, token)], granted := s.granted + [r.arrival])
  }

  function Promote(s: State): State
    decreases |s.queue|
  {
    if |s.active| < s.limit && s.queue != [] then Promote(Grant(s.(queue := s.queue[1..]), s.queue[0])) else s
  }

  function RemoveToken(s: State, token: nat): State {
    if token in s.active then s.(active := s.active - {token}, tokens := s.tokens - {s.active[token].request.id}) else s
  }

  datatype Call =
    | SetLimit(limit: nat)
    | Acquire(id: string, caller: Caller, slot: string, unitKind: string, unitId: string)
    | Release(token: nat, caller: Caller)
    | Cancel(id: string, caller: Caller)
    | Retire(workspace: string, session: string, generation: nat)
    | Clear

  function AfterAcquire(s: State, id: string, caller: Caller, slot: string, unitKind: string, unitId: string): (State,
                        Result<Projection>) {
    if !(ValidIdentity(id) && ValidIdentity(slot) && ValidIdentity(unitKind) && ValidIdentity(unitId)) then
      (s, Err(IdentityInvalid))
    else
      var existing := ProjectionFor(s, id);
      if existing.Some? then (s, if OwnerOf(s, id) == Some(caller) then Ok(existing.value) else Err(IdentityConflict))
      else
        var r, s1 := Request(id, caller, slot, unitKind, unitId, s.issued), s.(issued := s.issued + 1);
        if |s.active| < s.limit then
          var s2 := Grant(s1, r);
          (s2, Ok(Acquired(id, |s.granted|, s2.limit, |s2.active|)))
        else if |s.queue| >= MAX_QUEUE then (s, Err(CapacityExhausted))
        else
          var s2 := s1.(queue := s1.queue + [r]);
          var queued := ProjectionFor(s2, id);
          (s2, if queued.Some? then Ok(queued.value) else Err(QueueFailed))
  }

  function StatusOf(s: State, id: string, caller: Caller): Result<Projection> {
    if OwnerOf(s, id) != Some(caller) then Err(NotFound)
    else
      var p := ProjectionFor(s, id);
      if p.Some? then Ok(p.value) else Err(NotFound)
  }

  function AfterRelease(s: State, token: nat, caller: Caller): (State, Result<bool>) {
    if token !in s.active then (s, Ok(false))
    else if s.active[token].request.caller != caller || s.active[token].token != token then (s, Err(IdentityConflict))
    else (Promote(RemoveToken(s, token)), Ok(true))
  }

  /** The first queued request of that id and caller. */
  function OwnPosition(queue: seq<Request>, id: string, caller: Caller): (r: Option<nat>)
    ensures r.Some? ==> r.value < |queue| && queue[r.value].id == id && queue[r.value].caller == caller
  {
    if queue == [] then None
    else if queue[0].id == id && queue[0].caller == caller then Some(0)
    else
      var rest := OwnPosition(queue[1..], id, caller);
      if rest.Some? then Some(rest.value + 1) else None
  }

  function AfterCancel(s: State, id: string, caller: Caller): (State, Result<bool>) {
    var index := OwnPosition(s.queue, id, caller);
    if index.Some? then (s.(queue := s.queue[..index.value] + s.queue[index.value + 1..]), Ok(true))
    else if id !in s.tokens then (s, Ok(false))
    else if !(s.tokens[id] in s.active && s.active[s.tokens[id]].request.caller == caller)
      then (s, Err(IdentityConflict))
    else (Promote(RemoveToken(s, s.tokens[id])), Ok(true))
  }

  predicate OfGeneration(r: Request, workspace: string, session: string, generation: nat) {
    r.caller.workspace == workspace && r.caller.session == session && r.caller.generation == generation
  }

  function RetiredTokens(active: map<nat, Permit>, workspace: string, session: string, generation: nat): set<nat> {
    set t | t in active && OfGeneration(active[t].request, workspace, session, generation)
  }

  function RequestIds(active: map<nat, Permit>, tokens: set<nat>): set<string> {
    set t | t in tokens && t in active :: active[t].request.id
  }

  function Retained(queue: seq<Request>, workspace: string, session: string, generation: nat): (r: seq<Request>)
    ensures |r| <= |queue|
  {
    if queue == [] then []
    else
      var rest := Retained(queue[1..], workspace, session, generation);
      if OfGeneration(queue[0], workspace, session, generation) then rest else [queue[0]] + rest
  }

  /** The state with a generation's permits and waiting requests taken out, before anyone is promoted. */
  function Without(s: State, workspace: string, session: string, generation: nat): State {
    var gone := RetiredTokens(s.active, workspace, session, generation);
    s.(active := s.active - gone, tokens := s.tokens - RequestIds(s.active, gone),
       queue := Retained(s.queue, workspace, session, generation))
  }

  function AfterRetire(s: State, workspace: string, session: string, generation: nat): (State, nat) {
    var rest := Without(s, workspace, session, generation);
    (Promote(rest), |RetiredTokens(s.active, workspace, session, generation)| + (|s.queue| - |rest.queue|))
  }

  function Apply(s: State, call: Call): State {
    match call
    case SetLimit(limit) => Promote(s.(limit := Clamp(limit)))
    case Acquire(id, caller, slot, unitKind, unitId) => AfterAcquire(s, id, caller, slot, unitKind, unitId).0
    case Release(token, caller) => AfterRelease(s, token, caller).0
    case Cancel(id, caller) => AfterCancel(s, id, caller).0
    case Retire(workspace, session, generation) => AfterRetire(s, workspace, session, generation).0
    case Clear => s.(active := map[], tokens := map[], queue := [])
  }

  // ---------------------------------------------------------------- the invariant

  /** The two maps are inverse to each other, and each token is the place of its grant. */
  ghost predicate Inverse(s: State) {
    && (forall t :: t in s.active ==>
          && t < |s.granted| && s.active[t].token == t && s.active[t].request.arrival == s.granted[t]
          && s.active[t].request.id in s.tokens && s.tokens[s.active[t].request.id] == t)
    && (forall id :: id in s.tokens ==> s.tokens[id] in s.active && s.active[s.tokens[id]].request.id == id)
  }

  /** The arrival number of the latest grant. */
  function LastGranted(granted: seq<nat>): int {
    if granted == [] then -1 else granted[|granted| - 1]
  }

  ghost predicate Increasing(granted: seq<nat>) {
    forall i, j :: 0 <= i < j < |granted| ==> granted[i] < granted[j]
  }

  /** Waiting requests arrived in this order, after `low` and before `high`; their ids are distinct and
      not among `taken`. */
  ghost predicate InLine(queue: seq<Request>, low: int, high: int, taken: set<string>) {
    queue != [] ==>
      && low < queue[0].arrival < high && queue[0].id !in taken
      && InLine(queue[1..], queue[0].arrival, high, taken + {queue[0].id})
  }

  /** Grants follow arrival, and everyone still waiting arrived after everyone granted. */
  ghost predicate Ordered(s: State) {
    && Increasing(s.granted) && LastGranted(s.granted) < s.issued
    && InLine(s.queue, LastGranted(s.granted), s.issued, s.tokens.Keys)
  }

  ghost predicate Bounded(s: State) {
    MIN_CONCURRENCY <= s.limit <= MAX_CONCURRENCY && |s.active| <= MAX_CONCURRENCY && |s.queue| <= MAX_QUEUE
  }

  /** Everything but work conservation, which promotion restores. */
  ghost predicate Sound(s: State) {
    Inverse(s) && Ordered(s) && Bounded(s)
  }

  /** Nobody waits while a permit is free. */
  ghost predicate Busy(s: State) {
    s.queue != [] ==> |s.active| >= s.limit
  }

  ghost predicate Inv(s: State) {
    Sound(s) && Busy(s)
  }

  lemma {:induction false} InLineWeaken(queue: seq<Request>, low: int, high: int, taken: set<string>, low': int,
                                        high': int, taken': set<string>)
    requires InLine(queue, low, high, taken) && low' <= low && high <= high' && taken' <= taken
    ensures InLine(queue, low', high', taken')
  {
    if queue != [] {
      var r := queue[0];
      InLineWeaken(queue[1..], r.arrival, high, taken + {r.id}, r.arrival, high', taken' + {r.id});
    }
  }

  lemma {:induction false} InLineJoin(queue: seq<Request>, low: int, high: nat, taken: set<string>, r: Request)
    requires InLine(queue, low, high, taken) && low < high
    requires r.arrival == high && r.id !in taken && forall i :: 0 <= i < |queue| ==> queue[i].id != r.id
    ensures InLine(queue + [r], low, high + 1, taken)
  {
    if queue != [] {
      assert (queue + [r])[1..] == queue[1..] + [r];
      InLineJoin(queue[1..], queue[0].arrival, high, taken + {queue[0].id}, r);
    } else {
      assert (queue + [r])[1..] == [];
    }
  }

  lemma {:induction false} InLineWithout(queue: seq<Request>, low: int, high: int, taken: set<string>, k: nat)
    requires InLine(queue, low, high, taken) && k < |queue|
    ensures InLine(queue[..k] + queue[k + 1..], low, high, taken)
  {
    var rest, r := queue[..k] + queue[k + 1..], queue[0];
    if k == 0 {
      assert rest == queue[1..];
      InLineWeaken(rest, r.arrival, high, taken + {r.id}, low, high, taken);
    } else {
      assert rest[1..] == queue[1..][..k - 1] + queue[1..][k..];
      InLineWithout(queue[1..], r.arrival, high, taken + {r.id}, k - 1);
    }
  }

  lemma {:induction false} InLineRetained(queue: seq<Request>, low: int, high: int, taken: set<string>,
                                          workspace: string, session: string, generation: nat)
    requires InLine(queue, low, high, taken)
    ensures InLine(Retained(queue, workspace, session, generation), low, high, taken)
  {
    if queue != [] {
      var r, rest := queue[0], Retained(queue[1..], workspace, session, generation);
      InLineRetained(queue[1..], r.arrival, high, taken + {r.id}, workspace, session, generation);
      InLineWeaken(rest, r.arrival, high, taken + {r.id}, low, high, taken);
      assert ([r] + rest)[1..] == rest;
    }
  }

  lemma {:induction false} InLineAt(queue: seq<Request>, low: int, high: int, taken: set<string>, j: nat)
    requires InLine(queue, low, high, taken) && j < |queue|
    ensures low < queue[j].arrival < high && queue[j].id !in taken
  {
    if j > 0 {
      InLineAt(queue[1..], queue[0].arrival, high, taken + {queue[0].id}, j - 1);
    }
  }

  lemma {:induction false} InLinePair(queue: seq<Request>, low: int, high: int, taken: set<string>, i: nat, j: nat)
    requires InLine(queue, low, high, taken) && i < j < |queue|
    ensures queue[i].arrival < queue[j].arrival && queue[i].id != queue[j].id
  {
    if i == 0 {
      InLineAt(queue[1..], queue[0].arrival, high, taken + {queue[0].id}, j - 1);
    } else {
      InLinePair(queue[1..], queue[0].arrival, high, taken + {queue[0].id}, i - 1, j - 1);
    }
  }

  // ---------------------------------------------------------------- every call keeps it

  lemma GrantKeepsInverse(s: State, r: Request)
    requires Inverse(s) && r.id !in s.tokens
    ensures Inverse(Grant(s, r)) && |Grant(s, r).active| == |s.active| + 1
  {
    assert |s.granted| !in s.active;
  }

  /** One round of the promotion loop. */
  function PromoteOne(s: State): State
    requires s.queue != []
  {
    Grant(s.(queue := s.queue[1..]), s.queue[0])
  }

  lemma PromoteOneKeepsOrder(s: State)
    requires Ordered(s) && s.queue != []
    ensures Ordered(PromoteOne(s)) && s.queue[0].id !in s.tokens
  {
    assert PromoteOne(s).tokens.Keys == s.tokens.Keys + {s.queue[0].id};
  }

  lemma PromoteOneKeepsSound(s: State)
    requires Sound(s) && s.queue != [] && |s.active| < s.limit
    ensures Sound(PromoteOne(s)) && |PromoteOne(s).active| == |s.active| + 1
  {
    PromoteOneKeepsOrder(s);
    GrantKeepsInverse(s.(queue := s.queue[1..]), s.queue[0]);
  }

  /** Promotion restores work conservation and keeps the rest. */
  lemma {:induction false} PromoteKeepsSound(s: State)
    requires Sound(s)
    ensures Inv(Promote(s)) && Promote(s).limit == s.limit
    decreases |s.queue|
  {
    if |s.active| < s.limit && s.queue != [] {
      PromoteOneKeepsSound(s);
      PromoteKeepsSound(PromoteOne(s));
    }
  }

  lemma SmallerMap(m: map<nat, Permit>, gone: set<nat>)
    ensures |m - gone| <= |m|
  {
    assert (m - gone).Keys == m.Keys - gone;
    SubsetIsSmaller(m.Keys - gone, m.Keys);
    assert |(m - gone).Keys| == |m - gone| && |m.Keys| == |m|;
  }

  lemma SubsetIsSmaller(a: set<nat>, b: set<nat>)
    requires a <= b
    ensures |a| <= |b|
  {
    assert b == a + (b - a);
  }

  /** Taking permits out and their ids with them. */
  lemma RemovalKeepsInverse(s: State, gone: set<nat>)
    requires Inverse(s) && gone <= s.active.Keys
    ensures Inverse(s.(active := s.active - gone, tokens := s.tokens - RequestIds(s.active, gone)))
  {
    var ids := RequestIds(s.active, gone);
    forall t | t in s.active && t !in gone ensures s.active[t].request.id !in ids {
      assert forall u :: u in gone ==> s.tokens[s.active[u].request.id] == u;
    }
  }

  lemma RemovalKeepsSound(s: State, gone: set<nat>)
    requires Sound(s) && gone <= s.active.Keys
    ensures Sound(s.(active := s.active - gone, tokens := s.tokens - RequestIds(s.active, gone)))
  {
    RemovalKeepsInverse(s, gone);
    SmallerMap(s.active, gone);
    var tokens := s.tokens - RequestIds(s.active, gone);
    InLineWeaken(s.queue, LastGranted(s.granted), s.issued, s.tokens.Keys,
                 LastGranted(s.granted), s.issued, tokens.Keys);
  }

  lemma RemoveIsRemoval(s: State, token: nat)
    requires token in s.active
    ensures RemoveToken(s, token)
         == s.(active := s.active - {token}, tokens := s.tokens - RequestIds(s.active, {token}))
  {
    assert RequestIds(s.active, {token}) == {s.active[token].request.id};
  }

  lemma RemoveKeepsInv(s: State, token: nat)
    requires Sound(s) && token in s.active
    ensures Sound(RemoveToken(s, token)) && Inv(Promote(RemoveToken(s, token)))
  {
    RemoveIsRemoval(s, token);
    RemovalKeepsSound(s, {token});
    PromoteKeepsSound(RemoveToken(s, token));
  }

  lemma WithoutKeepsSound(s: State, workspace: string, session: string, generation: nat)
    requires Sound(s)
    ensures Sound(Without(s, workspace, session, generation))
  {
    var gone := RetiredTokens(s.active, workspace, session, generation);
    RemovalKeepsSound(s, gone);
    var tokens := s.tokens - RequestIds(s.active, gone);
    InLineRetained(s.queue, LastGranted(s.granted), s.issued, tokens.Keys, workspace, session, generation);
  }

  lemma JoinKeepsInv(s: State, r: Request)
    requires Inv(s) && r.arrival == s.issued && r.id !in s.tokens && |s.active| >= s.limit && |s.queue| < MAX_QUEUE
    requires forall i :: 0 <= i < |s.queue| ==> s.queue[i].id != r.id
    ensures Inv(s.(issued := s.issued + 1, queue := s.queue + [r]))
  {
    InLineJoin(s.queue, LastGranted(s.granted), s.issued, s.tokens.Keys, r);
  }

  lemma GrantAtOnceKeepsInv(s: State, r: Request)
    requires Inv(s) && r.arrival == s.issued && r.id !in s.tokens && |s.active| < s.limit
    ensures Inv(Grant(s.(issued := s.issued + 1), r)) && |Grant(s.(issued := s.issued + 1), r).active| == |s.active| + 1
  {
    GrantKeepsInverse(s.(issued := s.issued + 1), r);
    GrantAtOnceKeepsOrder(s, r);
  }

  lemma GrantAtOnceKeepsOrder(s: State, r: Request)
    requires Ordered(s) && s.queue == [] && r.arrival == s.issued
    ensures Ordered(Grant(s.(issued := s.issued + 1), r))
  {
  }

  lemma AcquireKeepsInv(s: State, id: string, caller: Caller, slot: string, unitKind: string, unitId: string)
    requires Inv(s)
    ensures Inv(AfterAcquire(s, id, caller, slot, unitKind, unitId).0)
  {
    if ProjectionFor(s, id).None? {
      var r := Request(id, caller, slot, unitKind, unitId, s.issued);
      if |s.active| < s.limit {
        GrantAtOnceKeepsInv(s, r);
      } else if |s.queue| < MAX_QUEUE {
        JoinKeepsInv(s, r);
      }
    }
  }

  lemma CancelKeepsInv(s: State, id: string, caller: Caller)
    requires Inv(s)
    ensures Inv(AfterCancel(s, id, caller).0)
  {
    var index := OwnPosition(s.queue, id, caller);
    if index.Some? {
      InLineWithout(s.queue, LastGranted(s.granted), s.issued, s.tokens.Keys, index.value);
    } else if id in s.tokens {
      RemoveKeepsInv(s, s.tokens[id]);
    }
  }

  lemma ClearKeepsInv(s: State)
    requires Inv(s)
    ensures Inv(s.(active := map[], tokens := map[], queue := []))
  {
  }

  lemma ReleaseKeepsInv(s: State, token: nat, caller: Caller)
    requires Inv(s)
    ensures Inv(AfterRelease(s, token, caller).0)
  {
    if token in s.active {
      RemoveKeepsInv(s, token);
    }
  }

  lemma RetireKeepsInv(s: State, workspace: string, session: string, generation: nat)
    requires Inv(s)
    ensures Inv(AfterRetire(s, workspace, session, generation).0)
  {
    WithoutKeepsSound(s, workspace, session, generation);
    PromoteKeepsSound(Without(s, workspace, session, generation));
  }

  /** Every call keeps the invariant. */
  lemma StepKeepsInv(s: State, call: Call)
    requires Inv(s)
    ensures Inv(Apply(s, call))
  {
    match call
    case SetLimit(limit) => PromoteKeepsSound(s.(limit := Clamp(limit)));
    case Acquire(id, caller, slot, unitKind, unitId) => AcquireKeepsInv(s, id, caller, slot, unitKind, unitId);
    case Release(token, caller) => ReleaseKeepsInv(s, token, caller);
    case Cancel(id, caller) => CancelKeepsInv(s, id, caller);
    case Retire(workspace, session, generation) => RetireKeepsInv(s, workspace, session, generation);
    case Clear => ClearKeepsInv(s);
  }

  // ---------------------------------------------------------------- whole runs

  function AtStart(limit: nat): State {
    State(Clamp(limit), map[], map[], [], 0, [])
  }

  ghost predicate IsRun(states: seq<State>, calls: seq<Call>) {
    && |states| == |calls| + 1
    && (exists limit: nat :: states[0] == AtStart(limit))
    && forall i :: 0 <= i < |calls| ==> Follows(states[i], calls[i], states[i + 1])
  }

  ghost predicate Follows(s: State, call: Call, s': State) {
    s' == Apply(s, call)
  }

  lemma {:induction false} RunKeepsInv(states: seq<State>, calls: seq<Call>, i: nat)
    requires IsRun(states, calls) && i < |states|
    ensures Inv(states[i])
  {
    if i == 0 {
      var limit: nat :| states[0] == AtStart(limit);
      StartIsInv(limit);
    } else {
      RunKeepsInv(states, calls, i - 1);
      assert Follows(states[i - 1], calls[i - 1], states[i - 1 + 1]);
      FollowsKeepsInv(states[i - 1], calls[i - 1], states[i]);
    }
  }

  lemma FollowsKeepsInv(s: State, call: Call, s': State)
    requires Inv(s) && Follows(s, call, s')
    ensures Inv(s')
  {
    StepKeepsInv(s, call);
  }

  lemma StartIsInv(limit: nat)
    ensures Inv(AtStart(limit))
  {
  }

  // ---------------------------------------------------------------- what promotion grants

  function Free(s: State): nat {
    var free := if |s.active| < s.limit then s.limit - |s.active| else 0;
    if free < |s.queue| then free else |s.queue|
  }

  function Arrivals(queue: seq<Request>): seq<nat> {
    seq(|queue|, i requires 0 <= i < |queue| => queue[i].arrival)
  }

  lemma {:induction false} PromoteGrantsFree(s: State)
    requires Sound(s)
    ensures |Promote(s).active| == |s.active| + Free(s)
    decreases |s.queue|
  {
    if |s.active| < s.limit && s.queue != [] {
      PromoteOneKeepsSound(s);
      PromoteGrantsFree(PromoteOne(s));
    }
  }

  lemma {:induction false} PromoteLeavesRest(s: State)
    requires Sound(s)
    ensures Promote(s).queue == s.queue[Free(s)..]
    decreases |s.queue|
  {
    if |s.active| < s.limit && s.queue != [] {
      PromoteOneKeepsSound(s);
      PromoteLeavesRest(PromoteOne(s));
      FrontThenRest(s.queue, Free(s));
    }
  }

  lemma {:induction false} PromoteGrantsInOrder(s: State)
    requires Sound(s)
    ensures Promote(s).granted == s.granted + Arrivals(s.queue[..Free(s)])
    decreases |s.queue|
  {
    if |s.active| < s.limit && s.queue != [] {
      PromoteOneKeepsSound(s);
      PromoteGrantsInOrder(PromoteOne(s));
      FrontThenRest(s.queue, Free(s));
      AppendAssociates(s.granted, [s.queue[0].arrival], Arrivals(s.queue[1..][..Free(s) - 1]));
    } else {
      assert s.granted + Arrivals(s.queue[..0]) == s.granted;
    }
  }

  /** Promotion grants exactly as many waiting requests as there is room for, from the front, in order. */
  lemma PromoteGrantsTheFront(s: State)
    requires Sound(s)
    ensures Promote(s).queue == s.queue[Free(s)..]
    ensures Promote(s).granted == s.granted + Arrivals(s.queue[..Free(s)])
    ensures |Promote(s).active| == |s.active| + Free(s)
  {
    PromoteLeavesRest(s);
    PromoteGrantsInOrder(s);
    PromoteGrantsFree(s);
  }

  lemma FrontThenRest(queue: seq<Request>, n: nat)
    requires 0 < n <= |queue|
    ensures queue[1..][n - 1..] == queue[n..]
    ensures Arrivals(queue[..n]) == [queue[0].arrival] + Arrivals(queue[1..][..n - 1])
  {
  }

  /** Permits given from one state to the next leave no more active permits than the limit. */
  ghost predicate Respects(s: State, s': State) {
    s.granted <= s'.granted && (|s'.granted| > |s.granted| ==> |s'.active| <= s'.limit)
  }

  lemma PromoteRespects(s: State, s1: State)
    requires Sound(s1) && s1.granted == s.granted
    ensures Respects(s, Promote(s1))
  {
    PromoteGrantsTheFront(s1);
    PromoteKeepsSound(s1);
  }

  lemma RemoveRespects(s: State, token: nat)
    requires Sound(s) && token in s.active
    ensures Respects(s, Promote(RemoveToken(s, token)))
  {
    RemoveKeepsInv(s, token);
    PromoteRespects(s, RemoveToken(s, token));
  }

  lemma CancelRespects(s: State, id: string, caller: Caller)
    requires Inv(s)
    ensures Respects(s, AfterCancel(s, id, caller).0)
  {
    if id in s.tokens {
      RemoveRespects(s, s.tokens[id]);
    }
  }

  /** A call that gives a permit leaves no more active permits than the limit. */
  lemma GrantsRespectTheLimit(s: State, call: Call)
    requires Inv(s)
    ensures Respects(s, Apply(s, call))
  {
    match call
    case SetLimit(limit) => PromoteRespects(s, s.(limit := Clamp(limit)));
    case Acquire(id, caller, slot, unitKind, unitId) => AcquireRespects(s, id, caller, slot, unitKind, unitId);
    case Release(token, caller) => ReleaseRespects(s, token, caller);
    case Cancel(id, caller) => CancelRespects(s, id, caller);
    case Retire(workspace, session, generation) => RetireRespects(s, workspace, session, generation);
    case Clear =>
  }

  lemma ReleaseRespects(s: State, token: nat, caller: Caller)
    requires Inv(s)
    ensures Respects(s, AfterRelease(s, token, caller).0)
  {
    if token in s.active {
      RemoveRespects(s, token);
    }
  }

  lemma RetireRespects(s: State, workspace: string, session: string, generation: nat)
    requires Inv(s)
    ensures Respects(s, AfterRetire(s, workspace, session, generation).0)
  {
    WithoutKeepsSound(s, workspace, session, generation);
    PromoteRespects(s, Without(s, workspace, session, generation));
  }

  lemma AcquireRespects(s: State, id: string, caller: Caller, slot: string, unitKind: string, unitId: string)
    requires Inv(s)
    ensures Respects(s, AfterAcquire(s, id, caller, slot, unitKind, unitId).0)
  {
    if ProjectionFor(s, id).None? && |s.active| < s.limit {
      GrantKeepsInverse(s.(issued := s.issued + 1), Request(id, caller, slot, unitKind, unitId, s.issued));
    }
  }

  /** The queue-failed error cannot happen: a request that was just queued is reported at its place. */
  lemma QueuedRequestIsFound(s: State, id: string, caller: Caller, slot: string, unitKind: string, unitId: string)
    requires Inv(s)
    ensures var (s', r) := AfterAcquire(s, id, caller, slot, unitKind, unitId);
            && r != Err(QueueFailed)
            && (s'.queue != s.queue ==> r == Ok(Queued(id, |s.queue| + 1, s.limit, |s.active|)))
            && (r.Ok? ==> StatusOf(s', id, caller) == r)
  {
    if ProjectionFor(s, id).None? && |s.active| >= s.limit {
      LastPosition(s.queue, Request(id, caller, slot, unitKind, unitId, s.issued));
    }
  }

  lemma {:induction false} LastPosition(queue: seq<Request>, r: Request)
    requires forall i :: 0 <= i < |queue| ==> queue[i].id != r.id
    ensures Position(queue + [r], r.id) == Some(|queue|)
  {
    if queue != [] {
      assert (queue + [r])[1..] == queue[1..] + [r];
      LastPosition(queue[1..], r);
    }
  }

  // ---------------------------------------------------------------- nobody is overtaken

  /** A call that takes this waiting request out of the queue without granting it. */
  predicate Drops(call: Call, r: Request) {
    match call
    case Cancel(id, caller) => id == r.id && caller == r.caller
    case Retire(workspace, session, generation) => OfGeneration(r, workspace, session, generation)
    case Clear => true
    case _ => false
  }

  ghost predicate StillServed(s: State, r: Request) {
    r in s.queue || r.arrival in s.granted
  }

  lemma PromoteServes(s: State, r: Request)
    requires Sound(s) && StillServed(s, r)
    ensures StillServed(Promote(s), r)
  {
    PromoteGrantsTheFront(s);
    var n := Free(s);
    assert s.queue == s.queue[..n] + s.queue[n..];
    if r in s.queue[..n] {
      var i :| 0 <= i < n && s.queue[..n][i] == r;
      assert Arrivals(s.queue[..n])[i] == r.arrival;
    }
  }

  lemma LeavingServes(s: State, k: nat, r: Request)
    requires k < |s.queue| && s.queue[k] != r && StillServed(s, r)
    ensures StillServed(s.(queue := s.queue[..k] + s.queue[k + 1..]), r)
  {
    assert s.queue == s.queue[..k] + [s.queue[k]] + s.queue[k + 1..];
  }

  lemma RemoveServes(s: State, token: nat, r: Request)
    requires Sound(s) && token in s.active && StillServed(s, r)
    ensures StillServed(Promote(RemoveToken(s, token)), r)
  {
    RemoveKeepsInv(s, token);
    PromoteServes(RemoveToken(s, token), r);
  }

  lemma CancelServes(s: State, id: string, caller: Caller, r: Request)
    requires Inv(s) && StillServed(s, r) && !(id == r.id && caller == r.caller)
    ensures StillServed(AfterCancel(s, id, caller).0, r)
  {
    var index := OwnPosition(s.queue, id, caller);
    if index.Some? {
      LeavingServes(s, index.value, r);
    } else if id in s.tokens {
      RemoveServes(s, s.tokens[id], r);
    }
  }

  lemma AcquireServes(s: State, id: string, caller: Caller, slot: string, unitKind: string, unitId: string, r: Request)
    requires StillServed(s, r)
    ensures StillServed(AfterAcquire(s, id, caller, slot, unitKind, unitId).0, r)
  {
  }

  lemma RetireServes(s: State, workspace: string, session: string, generation: nat, r: Request)
    requires Inv(s) && StillServed(s, r) && !OfGeneration(r, workspace, session, generation)
    ensures StillServed(AfterRetire(s, workspace, session, generation).0, r)
  {
    WithoutKeepsSound(s, workspace, session, generation);
    RetainedAre(s.queue, workspace, session, generation, r);
    PromoteServes(Without(s, workspace, session, generation), r);
  }

  /** Only a cancellation, a retired generation or a reset takes a waiting request out ungranted. */
  lemma StepServes(s: State, call: Call, r: Request)
    requires Inv(s) && StillServed(s, r) && !Drops(call, r)
    ensures StillServed(Apply(s, call), r)
  {
    match call
    case SetLimit(limit) => PromoteServes(s.(limit := Clamp(limit)), r);
    case Acquire(id, caller, slot, unitKind, unitId) => AcquireServes(s, id, caller, slot, unitKind, unitId, r);
    case Release(token, caller) =>
      if token in s.active {
        RemoveServes(s, token, r);
      }
    case Cancel(id, caller) => CancelServes(s, id, caller, r);
    case Retire(workspace, session, generation) => RetireServes(s, workspace, session, generation, r);
  }

  /** Who is kept: exactly the requests of other generations. */
  lemma {:induction false} RetainedAre(queue: seq<Request>, workspace: string, session: string, generation: nat,
                                       r: Request)
    ensures r in Retained(queue, workspace, session, generation) <==>
            r in queue && !OfGeneration(r, workspace, session, generation)
  {
    if queue != [] {
      assert queue == [queue[0]] + queue[1..];
      RetainedAre(queue[1..], workspace, session, generation, r);
    }
  }

  lemma {:induction false} RunServes(states: seq<State>, calls: seq<Call>, i: nat, j: nat, r: Request)
    requires IsRun(states, calls) && i <= j < |states| && r in states[i].queue
    requires forall k :: i <= k < j ==> !Drops(calls[k], r)
    ensures StillServed(states[j], r)
  {
    if i < j {
      RunServes(states, calls, i, j - 1, r);
      RunStepServes(states, calls, j - 1, r);
    }
  }

  lemma RunStepServes(states: seq<State>, calls: seq<Call>, k: nat, r: Request)
    requires IsRun(states, calls) && k < |calls| && StillServed(states[k], r) && !Drops(calls[k], r)
    ensures StillServed(states[k + 1], r)
  {
    RunKeepsInv(states, calls, k);
    assert Follows(states[k], calls[k], states[k + 1]);
    FollowsServes(states[k], calls[k], states[k + 1], r);
  }

  lemma FollowsServes(s: State, call: Call, s': State, r: Request)
    requires Inv(s) && Follows(s, call, s') && StillServed(s, r) && !Drops(call, r)
    ensures StillServed(s', r)
  {
    StepServes(s, call, r);
  }

  /**
   Permits are given in the order of arrival: if someone who arrived later than a waiting request has
   a permit by now, and the request was neither cancelled, retired nor cleared, then it had its
   permit before.
   */
  lemma NobodyIsOvertaken(states: seq<State>, calls: seq<Call>, i: nat, j: nat, r: Request, later: nat)
    requires IsRun(states, calls) && i <= j < |states| && r in states[i].queue
    requires forall k :: i <= k < j ==> !Drops(calls[k], r)
    requires later < |states[j].granted| && states[j].granted[later] > r.arrival
    ensures exists earlier :: 0 <= earlier < later && states[j].granted[earlier] == r.arrival
  {
    var s := states[j];
    RunServes(states, calls, i, j, r);
    RunKeepsInv(states, calls, j);
    WaitingIsAfterGranted(s, r);
    assert r.arrival in s.granted;
    var earlier :| 0 <= earlier < |s.granted| && s.granted[earlier] == r.arrival;
    assert Increasing(s.granted);
  }

  lemma WaitingIsAfterGranted(s: State, r: Request)
    requires Ordered(s)
    ensures r in s.queue ==> forall k :: 0 <= k < |s.granted| ==> s.granted[k] < r.arrival
  {
    if r in s.queue {
      var j :| 0 <= j < |s.queue| && s.queue[j] == r;
      InLineAt(s.queue, LastGranted(s.granted), s.issued, s.tokens.Keys, j);
    }
  }

  // ---------------------------------------------------------------- every reachable state

  /** What the invariant says, pair by pair. */
  lemma RunsAreSafe(states: seq<State>, calls: seq<Call>, i: nat)
    requires IsRun(states, calls) && i < |states|
    ensures var s := states[i];
            && Inverse(s)
            && (forall a, b :: 0 <= a < b < |s.queue| ==>
                  s.queue[a].id != s.queue[b].id && s.queue[a].arrival < s.queue[b].arrival)
            && (forall a :: 0 <= a < |s.queue| ==> s.queue[a].id !in s.tokens)
            && Increasing(s.granted)
            && (s.queue != [] ==> |s.active| >= s.limit)
            && 1 <= s.limit <= 16 && |s.active| <= 16 && |s.queue| <= 512
  {
    var s := states[i];
    RunKeepsInv(states, calls, i);
    var low, taken := LastGranted(s.granted), s.tokens.Keys;
    assert InLine(s.queue, low, s.issued, taken);
    forall a, b | 0 <= a < b < |s.queue|
      ensures s.queue[a].id != s.queue[b].id && s.queue[a].arrival < s.queue[b].arrival {
      InLinePair(s.queue, low, s.issued, taken, a, b);
    }
    forall a | 0 <= a < |s.queue| ensures s.queue[a].id !in s.tokens {
      InLineAt(s.queue, low, s.issued, taken, a);
    }
  }

  /** Active permits are old ones, unchanged, or bear tokens never given before. */
  ghost predicate TokensFresh(s: State, s': State) {
    && |s.granted| <= |s'.granted|
    && forall t :: t in s'.active ==> t >= |s.granted| || (t in s.active && s'.active[t] == s.active[t])
  }

  lemma {:induction false} PromoteTokensFresh(s: State, s1: State)
    requires TokensFresh(s, s1)
    ensures TokensFresh(s, Promote(s1))
    decreases |s1.queue|
  {
    if |s1.active| < s1.limit && s1.queue != [] {
      PromoteTokensFresh(s, PromoteOne(s1));
    }
  }

  lemma AcquireTokensFresh(s: State, id: string, caller: Caller, slot: string, unitKind: string, unitId: string)
    ensures TokensFresh(s, AfterAcquire(s, id, caller, slot, unitKind, unitId).0)
  {
  }

  lemma CancelTokensFresh(s: State, id: string, caller: Caller)
    ensures TokensFresh(s, AfterCancel(s, id, caller).0)
  {
    if id in s.tokens {
      PromoteTokensFresh(s, RemoveToken(s, s.tokens[id]));
    }
  }

  lemma ReleaseTokensFresh(s: State, token: nat, caller: Caller)
    ensures TokensFresh(s, AfterRelease(s, token, caller).0)
  {
    PromoteTokensFresh(s, RemoveToken(s, token));
  }

  lemma RetireTokensFresh(s: State, workspace: string, session: string, generation: nat)
    ensures TokensFresh(s, AfterRetire(s, workspace, session, generation).0)
  {
    PromoteTokensFresh(s, Without(s, workspace, session, generation));
  }

  lemma StepTokensFresh(s: State, call: Call)
    ensures TokensFresh(s, Apply(s, call))
  {
    match call
    case SetLimit(limit) => PromoteTokensFresh(s, s.(limit := Clamp(limit)));
    case Acquire(id, caller, slot, unitKind, unitId) => AcquireTokensFresh(s, id, caller, slot, unitKind, unitId);
    case Release(token, caller) => ReleaseTokensFresh(s, token, caller);
    case Cancel(id, caller) => CancelTokensFresh(s, id, caller);
    case Retire(workspace, session, generation) => RetireTokensFresh(s, workspace, session, generation);
    case Clear =>
  }

  /** A permit once given up never comes back, so releasing its token again frees nobody else's permit. */
  lemma SpentTokensStaySpent(states: seq<State>, calls: seq<Call>, i: nat, j: nat, token: nat, caller: Caller)
    requires IsRun(states, calls) && i <= j < |states| && token < |states[i].granted| && token !in states[i].active
    ensures token < |states[j].granted| && token !in states[j].active
    ensures AfterRelease(states[j], token, caller) == (states[j], Ok(false))
  {
    for n := i to j
      invariant token < |states[n].granted| && token !in states[n].active
    {
      assert Follows(states[n], calls[n], states[n + 1]);
      StepTokensFresh(states[n], calls[n]);
    }
  }

  // ---------------------------------------------------------------- the limiter object

  /** Every call does exactly what `Apply` says; `StepKeepsInv` then keeps the invariant. */
  class GeoProviderLimiter {
    var limit: nat
    var active: map<nat, Permit>
    var requestTokens: map<string, nat>
    var queue: seq<Request>
    var issued: nat
    var granted: seq<nat>

    ghost function Now(): State reads this {
      State(limit, active, requestTokens, queue, issued, granted)
    }

    constructor (initial: nat)
      ensures Now() == AtStart(initial)
    {
      limit := Clamp(initial);
      active, requestTokens, queue, issued, granted := map[], map[], [], 0, [];
    }

    method GrantTo(r: Request) returns (p: Projection)
      modifies this
      ensures Now() == Grant(old(Now()), r)
      ensures p == Acquired(r.id, |old(granted)|, limit, |active|)
    {
      var token := |granted|;
      requestTokens := requestTokens[r.id := token];
      active := active[token := Permit(r, token)];
      granted := granted + [r.arrival];
      p := Acquired(r.id, token, limit, |active|);
    }

    method PromoteWaiting()
      modifies this
      ensures Now() == Promote(old(Now())) && limit == old(limit)
    {
      while |active| < limit && queue != []
        invariant Promote(Now()) == Promote(old(Now())) && limit == old(limit)
        decreases |queue|
      {
        var r := queue[0];
        queue := queue[1..];
        var _ := GrantTo(r);
      }
    }

    method RemoveActiveToken(token: nat) returns (removed: bool)
      modifies this
      ensures Now() == RemoveToken(old(Now()), token) && removed == (token in old(active))
    {
      if token !in active {
        return false;
      }
      requestTokens := requestTokens - {active[token].request.id};
      active := active - {token};
      removed := true;
    }

    method SetLimit(value: nat) returns (r: nat)
      modifies this
      ensures Now() == Apply(old(Now()), Call.SetLimit(value)) && r == Clamp(value)
    {
      limit := Clamp(value);
      PromoteWaiting();
      r := limit;
    }

    method Acquire(id: string, caller: Caller, slot: string, unitKind: string, unitId: string)
      returns (r: Result<Projection>)
      modifies this
      ensures Now() == Apply(old(Now()), Call.Acquire(id, caller, slot, unitKind, unitId))
      ensures r == AfterAcquire(old(Now()), id, caller, slot, unitKind, unitId).1
    {
      if !(ValidIdentity(id) && ValidIdentity(slot) && ValidIdentity(unitKind) && ValidIdentity(unitId)) {
        return Err(IdentityInvalid);
      }
      var existing := Project(id);
      if existing.Some? {
        var same := IsOwner(id, caller);
        return if same then Ok(existing.value) else Err(IdentityConflict);
      }
      var request := Request(id, caller, slot, unitKind, unitId, issued);
      if |active| < limit {
        issued := issued + 1;
        var p := GrantTo(request);
        return Ok(p);
      }
      if |queue| >= MAX_QUEUE {
        return Err(CapacityExhausted);
      }
      issued := issued + 1;
      queue := queue + [request];
      var queued := Project(id);
      return if queued.Some? then Ok(queued.value) else Err(QueueFailed);
    }

    method Project(id: string) returns (p: Option<Projection>)
      ensures p == ProjectionFor(Now(), id)
    {
      if id in requestTokens {
        return Some(Acquired(id, requestTokens[id], limit, |active|));
      }
      var index := Position(queue, id);
      p := if index.Some? then Some(Queued(id, index.value + 1, limit, |active|)) else None;
    }

    method IsOwner(id: string, caller: Caller) returns (same: bool)
      ensures same == (OwnerOf(Now(), id) == Some(caller))
    {
      if id in requestTokens && requestTokens[id] in active {
        return active[requestTokens[id]].request.caller == caller;
      }
      var index := Position(queue, id);
      same := index.Some? && queue[index.value].caller == caller;
    }

    method Status(id: string, caller: Caller) returns (r: Result<Projection>)
      ensures r == StatusOf(Now(), id, caller)
    {
      var matches := IsOwner(id, caller);
      if !matches {
        return Err(NotFound);
      }
      var p := Project(id);
      r := if p.Some? then Ok(p.value) else Err(NotFound);
    }

    method Release(token: nat, caller: Caller) returns (r: Result<bool>)
      modifies this
      ensures Now() == Apply(old(Now()), Call.Release(token, caller))
      ensures r == AfterRelease(old(Now()), token, caller).1
    {
      if token !in active {
        return Ok(false);
      }
      if active[token].request.caller != caller || active[token].token != token {
        return Err(IdentityConflict);
      }
      var removed := RemoveActiveToken(token);
      PromoteWaiting();
      r := Ok(removed);
    }

    method Cancel(id: string, caller: Caller) returns (r: Result<bool>)
      modifies this
      ensures Now() == Apply(old(Now()), Call.Cancel(id, caller))
      ensures r == AfterCancel(old(Now()), id, caller).1
    {
      var index := OwnPosition(queue, id, caller);
      if index.Some? {
        queue := queue[..index.value] + queue[index.value + 1..];
        return Ok(true);
      }
      if id !in requestTokens {
        return Ok(false);
      }
      var token := requestTokens[id];
      if !(token in active && active[token].request.caller == caller) {
        return Err(IdentityConflict);
      }
      var removed := RemoveActiveToken(token);
      PromoteWaiting();
      r := Ok(removed);
    }

    /** The permits of a generation are removed one by one, in any order. */
    method RemovePermits(gone: set<nat>) returns (removed: nat)
      requires gone <= active.Keys
      modifies this
      ensures Now() == WithoutTokens(old(Now()), gone)
      ensures removed == |gone|
    {
      var left := gone;
      removed := 0;
      ghost var before := Now();
      ghost var done: set<nat> := {};
      WithoutNothing(before);
      while left != {}
        invariant done + left == gone && done !! left && removed == |gone| - |left|
        invariant Now() == WithoutTokens(before, done)
      {
        var token :| token in left;
        WithoutOneMore(before, done, token);
        var was := RemoveActiveToken(token);
        removed := removed + 1;
        left, done := left - {token}, done + {token};
      }
      assert done == gone;
    }

    method RetireGeneration(workspace: string, session: string, generation: nat) returns (removed: nat)
      modifies this
      ensures Now() == Apply(old(Now()), Retire(workspace, session, generation))
      ensures removed == AfterRetire(old(Now()), workspace, session, generation).1
    {
      removed := RemovePermits(RetiredTokens(active, workspace, session, generation));
      var before := |queue|;
      queue := Retained(queue, workspace, session, generation);
      removed := removed + (before - |queue|);
      PromoteWaiting();
    }

    method Clear()
      modifies this
      ensures Now() == Apply(old(Now()), Call.Clear)
    {
      active, requestTokens, queue := map[], map[], [];
    }
  }

  /** The state without these permits and their ids. */
  function WithoutTokens(s: State, gone: set<nat>): State {
    s.(active := s.active - gone, tokens := s.tokens - RequestIds(s.active, gone))
  }

  lemma WithoutNothing(s: State)
    ensures WithoutTokens(s, {}) == s
  {
    assert RequestIds(s.active, {}) == {};
  }

  lemma WithoutOneMore(s: State, done: set<nat>, token: nat)
    requires token in s.active && token !in done
    ensures RemoveToken(WithoutTokens(s, done), token) == WithoutTokens(s, done + {token})
  {
    OneMoreId(s.active, done, token);
    assert s.active - done - {token} == s.active - (done + {token});
  }

  lemma OneMoreId(active: map<nat, Permit>, done: set<nat>, token: nat)
    requires token in active
    ensures RequestIds(active, done + {token}) == RequestIds(active, done) + {active[token].request.id}
  {
  }
}
