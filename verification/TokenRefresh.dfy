/**
 Refreshing the account's access token. Any number of callers interleave: those that resolve a fresh
 token take the refresh lock and check twice, authenticated calls refresh without the lock. Refresh
 tokens are one-use, so none may be sent again once its exchange was stored. Logging in and out happen
 at any time, and an exchange may fail at any point.
 */
module TokenRefresh {
  import opened Common

  const REFRESH_MARGIN_SECONDS := 120

  /** The expiry an access token carries, if it can be read. */
  datatype Access = Access(id: nat, exp: Option<int>)
  datatype Secret = Secret(access: Access, refresh: nat)

  /** Near or past its expiry; a token whose expiry is unknown is left to the gateway. */
  predicate NeedsRefresh(access: Access, now: int) {
    access.exp.Some? && access.exp.value - now <= REFRESH_MARGIN_SECONDS
  }

  datatype Phase =
    | Entered
    | Waiting                                        // wants the lock
    | Locked                                         // holds the lock
    | Ready(secret: Secret, checkedAt: int)          // holds the lock, found the stored token near expiry
    | Using(secret: Secret)                          // authenticated call with the token it read, no lock
    | Sent(secret: Secret, k: nat)                   // waits for the gateway to answer exchange k
    | Answered(secret: Secret, k: nat, renewed: Secret)
    | Returned(access: Option<Access>)

  datatype Outcome = Pending | Stored | Failed

  /** One refresh token sent to the gateway. Under the lock, `access` was found near expiry at `checkedAt`. */
  datatype Exchange = Exchange(refresh: nat, locked: bool, access: Access, checkedAt: int, outcome: Outcome)

  /** `nextRefresh` is the first refresh token the gateway has not issued yet. */
  datatype State = State(store: Option<Secret>, callers: map<nat, Phase>, holder: Option<nat>,
                         exchanges: seq<Exchange>, nextRefresh: nat)

  datatype Step =
    | Call(c: nat)
    | Read(c: nat, now: int)
    | TakeLock(c: nat)
    | ReadAgain(c: nat, now: int)
    | Send(c: nat)
    | CallUnlocked(c: nat)
    | SendUnlocked(c: nat)
    | Answer(c: nat, access: Access)
    /** The renewed pair is stored; recording the contact afterwards may still fail. */
    | Store(c: nat, recorded: bool)
    | Fail(c: nat, sessionDead: bool)
    | LogIn(access: Access)
    | LogOut

  // ---------------------------------------------------------------- the steps

  ghost predicate At(s: State, c: nat, phase: Phase) {
    c in s.callers && s.callers[c] == phase
  }

  predicate InFlight(phase: Phase) {
    phase.Sent? || phase.Answered?
  }

  function Move(s: State, c: nat, phase: Phase): State {
    s.(callers := s.callers[c := phase])
  }

  /** Return, and give the lock back if it is held. */
  function Return(s: State, c: nat, access: Option<Access>): State {
    Move(s, c, Returned(access)).(holder := if s.holder == Some(c) then None else s.holder)
  }

  function Close(exchanges: seq<Exchange>, k: nat, outcome: Outcome): seq<Exchange>
    requires k < |exchanges|
  {
    exchanges[k := exchanges[k].(outcome := outcome)]
  }

  ghost predicate CanClose(s: State, c: nat) {
    c in s.callers && InFlight(s.callers[c]) && s.callers[c].k < |s.exchanges|
  }

  ghost predicate Enabled(s: State, step: Step) {
    match step
    case Call(c) => c !in s.callers
    case Read(c, _) => At(s, c, Entered)
    case TakeLock(c) => At(s, c, Waiting) && s.holder.None?
    case ReadAgain(c, _) => At(s, c, Locked)
    case Send(c) => c in s.callers && s.callers[c].Ready?
    case CallUnlocked(c) => c !in s.callers && s.store.Some?
    case SendUnlocked(c) => c in s.callers && s.callers[c].Using?
    case Answer(c, _) => c in s.callers && s.callers[c].Sent?
    case Store(c, _) => CanClose(s, c) && s.callers[c].Answered?
    case Fail(c, dead) => CanClose(s, c) && (dead ==> s.callers[c].Sent?)
    case LogIn(_) => true
    case LogOut => true
  }

  function AfterRead(s: State, c: nat, now: int): State {
    match s.store
    case None => Return(s, c, None)
    case Some(secret) => if NeedsRefresh(secret.access, now)
      then Move(s, c, Waiting) else Return(s, c, Some(secret.access))
  }

  /** The second check, under the lock. */
  function AfterReadAgain(s: State, c: nat, now: int): State {
    match s.store
    case None => Return(s, c, None)
    case Some(secret) => if NeedsRefresh(secret.access, now)
      then Move(s, c, Ready(secret, now)) else Return(s, c, Some(secret.access))
  }

  function AfterSend(s: State, c: nat, secret: Secret, locked: bool, checkedAt: int): State {
    Move(s, c, Sent(secret, |s.exchanges|)).(
      exchanges := s.exchanges + [Exchange(secret.refresh, locked, secret.access, checkedAt, Pending)])
  }

  ghost function Apply(s: State, step: Step): State
    requires Enabled(s, step)
  {
    match step
    case Call(c) => Move(s, c, Entered)
    case Read(c, now) => AfterRead(s, c, now)
    case TakeLock(c) => Move(s, c, Locked).(holder := Some(c))
    case ReadAgain(c, now) => AfterReadAgain(s, c, now)
    case Send(c) => AfterSend(s, c, s.callers[c].secret, true, s.callers[c].checkedAt)
    case CallUnlocked(c) => Move(s, c, Using(s.store.value))
    case SendUnlocked(c) => AfterSend(s, c, s.callers[c].secret, false, 0)
    case Answer(c, access) =>
      var Sent(secret, k) := s.callers[c];
      Move(s, c, Answered(secret, k, Secret(access, s.nextRefresh))).(nextRefresh := s.nextRefresh + 1)
    case Store(c, recorded) =>
      var Answered(secret, k, renewed) := s.callers[c];
      Return(s, c, Some(if recorded then renewed.access else secret.access)).(
        store := Some(renewed), exchanges := Close(s.exchanges, k, Stored))
    case Fail(c, dead) =>
      Return(s, c, Some(s.callers[c].secret.access)).(
        store := if dead then None else s.store, exchanges := Close(s.exchanges, s.callers[c].k, Failed))
    case LogIn(access) => s.(store := Some(Secret(access, s.nextRefresh)), nextRefresh := s.nextRefresh + 1)
    case LogOut => s.(store := None)
  }

  // ---------------------------------------------------------------- the invariant

  /** Past the lock: inside the critical section, or in flight with an exchange sent under the lock. */
  ghost predicate HoldsLock(s: State, phase: Phase) {
    || phase.Locked? || phase.Ready?
    || (InFlight(phase) && phase.k < |s.exchanges| && s.exchanges[phase.k].locked)
  }

  ghost predicate LockOk(s: State) {
    && (forall c :: c in s.callers && HoldsLock(s, s.callers[c]) ==> s.holder == Some(c))
    && (s.holder.Some? ==> s.holder.value in s.callers && HoldsLock(s, s.callers[s.holder.value]))
  }

  /** Every caller in flight has its own open exchange. */
  ghost predicate FlightOk(s: State) {
    && (forall c :: c in s.callers && InFlight(s.callers[c]) ==>
          s.callers[c].k < |s.exchanges| && s.exchanges[s.callers[c].k].outcome.Pending?)
    && (forall c, d :: c in s.callers && d in s.callers && c != d
                       && InFlight(s.callers[c]) && InFlight(s.callers[d]) ==>
          s.callers[c].k != s.callers[d].k)
  }

  /** An open exchange sent under the lock is the holder's, and no later one was sent under the lock. */
  ghost predicate PendingOk(s: State) {
    forall i :: 0 <= i < |s.exchanges| && s.exchanges[i].locked && s.exchanges[i].outcome.Pending? ==>
      && s.holder.Some? && s.holder.value in s.callers
      && InFlight(s.callers[s.holder.value]) && s.callers[s.holder.value].k == i
      && forall j :: i < j < |s.exchanges| ==> !s.exchanges[j].locked
  }

  /** No stored exchange sent under the lock has spent this token. */
  ghost predicate Unspent(s: State, refresh: nat) {
    forall i :: 0 <= i < |s.exchanges| && s.exchanges[i].locked && s.exchanges[i].outcome.Stored? ==>
      s.exchanges[i].refresh != refresh
  }

  ghost predicate TokensOk(s: State) {
    && (s.store.Some? ==> Unspent(s, s.store.value.refresh))
    && (forall c :: c in s.callers && s.callers[c].Ready? ==> Unspent(s, s.callers[c].secret.refresh))
  }

  predicate Carries(phase: Phase) {
    phase.Ready? || phase.Using?
  }

  /** The token was sent, is stored, or was read by a caller that may send it. */
  ghost predicate Known(s: State, refresh: nat) {
    || (exists i :: 0 <= i < |s.exchanges| && s.exchanges[i].refresh == refresh)
    || (s.store.Some? && s.store.value.refresh == refresh)
    || (exists c :: c in s.callers && Carries(s.callers[c]) && s.callers[c].secret.refresh == refresh)
  }

  ghost predicate IssuedOk(s: State) {
    && (forall refresh: nat :: Known(s, refresh) ==> refresh < s.nextRefresh)
    && (forall c :: c in s.callers && s.callers[c].Answered? ==> s.callers[c].renewed.refresh < s.nextRefresh)
  }

  /** A renewed pair that is not stored yet is known to nobody else. */
  ghost predicate FreshOk(s: State) {
    && (forall c :: c in s.callers && s.callers[c].Answered? ==> !Known(s, s.callers[c].renewed.refresh))
    && (forall c, d :: c in s.callers && d in s.callers && c != d
                       && s.callers[c].Answered? && s.callers[d].Answered? ==>
          s.callers[c].renewed.refresh != s.callers[d].renewed.refresh)
  }

  /** Under the lock a token is sent again only after an exchange that failed. */
  ghost predicate OnceStored(exchanges: seq<Exchange>) {
    forall i, j :: 0 <= i < j < |exchanges| && exchanges[i].locked && exchanges[j].locked ==>
      (exchanges[i].refresh == exchanges[j].refresh ==> exchanges[i].outcome == Failed)
  }

  ghost predicate Needed(s: State) {
    && (forall i :: 0 <= i < |s.exchanges| && s.exchanges[i].locked ==>
          NeedsRefresh(s.exchanges[i].access, s.exchanges[i].checkedAt))
    && (forall c :: c in s.callers && s.callers[c].Ready? ==>
          NeedsRefresh(s.callers[c].secret.access, s.callers[c].checkedAt))
  }

  ghost predicate Inv(s: State) {
    LockOk(s) && FlightOk(s) && PendingOk(s) && TokensOk(s)
    && IssuedOk(s) && FreshOk(s) && OnceStored(s.exchanges) && Needed(s)
  }

  lemma SendKeepsLock(s: State, c: nat, secret: Secret, locked: bool, checkedAt: int)
    requires LockOk(s) && FlightOk(s) && c in s.callers && (if locked then s.callers[c].Ready? else s.callers[c].Using?)
    ensures LockOk(AfterSend(s, c, secret, locked, checkedAt))
  {
  }

  lemma CloseKeepsLock(s: State, s': State, c: nat, outcome: Outcome)
    requires LockOk(s) && FlightOk(s) && CanClose(s, c) && s'.exchanges == Close(s.exchanges, s.callers[c].k, outcome)
    requires c in s'.callers && s'.callers[c].Returned? && s'.callers == s.callers[c := s'.callers[c]]
    requires s'.holder == if s.holder == Some(c) then None else s.holder
    ensures LockOk(s')
  {
  }

  /** The steps that neither send nor close an exchange. */
  predicate IsQuiet(step: Step) {
    !step.Send? && !step.SendUnlocked? && !step.Store? && !step.Fail?
  }

  /** The steps of a caller that holds the lock or takes it, and the answer to an exchange. */
  predicate IsInside(step: Step) {
    step.TakeLock? || step.ReadAgain? || step.Answer?
  }

  lemma InsideKeepsLock(s: State, step: Step)
    requires LockOk(s) && FlightOk(s) && Enabled(s, step) && IsInside(step)
    ensures LockOk(Apply(s, step))
  {
  }

  lemma OutsideKeepsLock(s: State, step: Step)
    requires LockOk(s) && FlightOk(s) && Enabled(s, step) && IsQuiet(step) && !IsInside(step)
    ensures LockOk(Apply(s, step))
  {
  }

  lemma StepKeepsLock(s: State, step: Step)
    requires LockOk(s) && FlightOk(s) && Enabled(s, step)
    ensures LockOk(Apply(s, step))
  {
    if IsInside(step) {
      InsideKeepsLock(s, step);
    } else if IsQuiet(step) {
      OutsideKeepsLock(s, step);
    } else {
      match step
      case Send(c) => SendKeepsLock(s, c, s.callers[c].secret, true, s.callers[c].checkedAt);
      case SendUnlocked(c) => SendKeepsLock(s, c, s.callers[c].secret, false, 0);
      case Store(c, _) => CloseKeepsLock(s, Apply(s, step), c, Stored);
      case Fail(c, _) => CloseKeepsLock(s, Apply(s, step), c, Failed);
    }
  }

  lemma SendKeepsFlight(s: State, c: nat, secret: Secret, locked: bool, checkedAt: int)
    requires FlightOk(s)
    ensures FlightOk(AfterSend(s, c, secret, locked, checkedAt))
  {
  }

  lemma CloseKeepsFlight(s: State, s': State, c: nat, outcome: Outcome)
    requires FlightOk(s) && CanClose(s, c) && s'.exchanges == Close(s.exchanges, s.callers[c].k, outcome)
    requires c in s'.callers && s'.callers[c].Returned? && s'.callers == s.callers[c := s'.callers[c]]
    ensures FlightOk(s')
  {
  }

  /** Whoever is in flight was in flight with the same exchange before. */
  ghost predicate SameFlight(s: State, s': State) {
    && s'.exchanges == s.exchanges
    && forall c :: c in s'.callers && InFlight(s'.callers[c]) ==>
         c in s.callers && InFlight(s.callers[c]) && s.callers[c].k == s'.callers[c].k
  }

  lemma SameKeepsFlight(s: State, s': State)
    requires FlightOk(s) && SameFlight(s, s')
    ensures FlightOk(s')
  {
  }

  lemma QuietIsSameFlight(s: State, step: Step)
    requires Enabled(s, step) && IsQuiet(step)
    ensures SameFlight(s, Apply(s, step))
  {
  }

  lemma StepKeepsFlight(s: State, step: Step)
    requires FlightOk(s) && Enabled(s, step)
    ensures FlightOk(Apply(s, step))
  {
    if IsQuiet(step) {
      QuietIsSameFlight(s, step);
      SameKeepsFlight(s, Apply(s, step));
    } else {
      match step
      case Send(c) => SendKeepsFlight(s, c, s.callers[c].secret, true, s.callers[c].checkedAt);
      case SendUnlocked(c) => SendKeepsFlight(s, c, s.callers[c].secret, false, 0);
      case Store(c, _) => CloseKeepsFlight(s, Apply(s, step), c, Stored);
      case Fail(c, _) => CloseKeepsFlight(s, Apply(s, step), c, Failed);
    }
  }

  lemma QuietKeepsPending(s: State, step: Step)
    requires LockOk(s) && FlightOk(s) && PendingOk(s) && Enabled(s, step) && IsQuiet(step)
    ensures PendingOk(Apply(s, step))
  {
  }

  lemma StepKeepsPending(s: State, step: Step)
    requires LockOk(s) && FlightOk(s) && PendingOk(s) && Enabled(s, step)
    ensures PendingOk(Apply(s, step))
  {
    if IsQuiet(step) {
      QuietKeepsPending(s, step);
    }
  }

  /** A step makes known only the token of a login, or the one it stores. */
  lemma StepMakesKnown(s: State, step: Step, refresh: nat)
    requires Enabled(s, step) && Known(Apply(s, step), refresh)
    ensures Known(s, refresh) || (step.LogIn? && refresh == s.nextRefresh)
            || (step.Store? && refresh == s.callers[step.c].renewed.refresh)
  {
  }

  lemma StepRenews(s: State, step: Step, c: nat)
    requires Enabled(s, step) && c in Apply(s, step).callers && Apply(s, step).callers[c].Answered?
    ensures || (c in s.callers && s.callers[c] == Apply(s, step).callers[c] && !(step.Store? && step.c == c))
            || (step.Answer? && step.c == c && Apply(s, step).callers[c].renewed.refresh == s.nextRefresh
                && Apply(s, step).nextRefresh == s.nextRefresh + 1)
  {
  }

  lemma StepKeepsIssued(s: State, step: Step)
    requires IssuedOk(s) && Enabled(s, step)
    ensures IssuedOk(Apply(s, step))
  {
    var s' := Apply(s, step);
    assert s.nextRefresh <= s'.nextRefresh <= s.nextRefresh + 1;
    forall refresh: nat | Known(s', refresh) ensures refresh < s'.nextRefresh {
      StepMakesKnown(s, step, refresh);
    }
    forall c | c in s'.callers && s'.callers[c].Answered? ensures s'.callers[c].renewed.refresh < s'.nextRefresh {
      StepRenews(s, step, c);
    }
  }

  lemma StepKeepsFresh(s: State, step: Step)
    requires IssuedOk(s) && FreshOk(s) && Enabled(s, step)
    ensures FreshOk(Apply(s, step))
  {
    var s' := Apply(s, step);
    forall c | c in s'.callers && s'.callers[c].Answered? ensures !Known(s', s'.callers[c].renewed.refresh) {
      StepRenews(s, step, c);
      var refresh := s'.callers[c].renewed.refresh;
      if Known(s', refresh) {
        StepMakesKnown(s, step, refresh);
      }
    }
    forall c, d | c in s'.callers && d in s'.callers && c != d && s'.callers[c].Answered? && s'.callers[d].Answered?
      ensures s'.callers[c].renewed.refresh != s'.callers[d].renewed.refresh
    {
      StepRenews(s, step, c);
      StepRenews(s, step, d);
    }
  }

  lemma StepKeepsTokens(s: State, step: Step)
    requires LockOk(s) && TokensOk(s) && IssuedOk(s) && FreshOk(s) && Enabled(s, step)
    ensures TokensOk(Apply(s, step))
  {
    if step.LogIn? {
      assert !Known(s, s.nextRefresh);
    } else if step.Store? {
      StoreKeepsTokens(s, step.c, step.recorded);
    }
  }

  /** The stored pair is new, and whoever is ready to send under the lock is not in flight under it. */
  lemma StoreKeepsTokens(s: State, c: nat, recorded: bool)
    requires LockOk(s) && TokensOk(s) && FreshOk(s) && Enabled(s, Store(c, recorded))
    ensures TokensOk(Apply(s, Store(c, recorded)))
  {
    assert !Known(s, s.callers[c].renewed.refresh);
  }

  lemma StepKeepsOnce(s: State, step: Step)
    requires Inv(s) && Enabled(s, step)
    ensures OnceStored(Apply(s, step).exchanges)
  {
  }

  lemma StepKeepsNeeded(s: State, step: Step)
    requires Needed(s) && Enabled(s, step)
    ensures Needed(Apply(s, step))
  {
  }

  lemma StepKeepsInv(s: State, step: Step)
    requires Inv(s) && Enabled(s, step)
    ensures Inv(Apply(s, step))
  {
    StepKeepsLock(s, step);
    StepKeepsFlight(s, step);
    StepKeepsPending(s, step);
    StepKeepsTokens(s, step);
    StepKeepsIssued(s, step);
    StepKeepsFresh(s, step);
    StepKeepsOnce(s, step);
    StepKeepsNeeded(s, step);
  }

  // ---------------------------------------------------------------- whole runs

  const AT_START := State(None, map[], None, [], 0)

  ghost predicate Follows(s: State, step: Step, s': State) {
    Enabled(s, step) && s' == Apply(s, step)
  }

  ghost predicate IsRun(states: seq<State>, steps: seq<Step>) {
    && |states| == |steps| + 1
    && states[0] == AT_START
    && forall i :: 0 <= i < |steps| ==> Follows(states[i], steps[i], states[i + 1])
  }

  lemma {:induction false} RunKeepsInv(states: seq<State>, steps: seq<Step>, n: nat)
    requires IsRun(states, steps) && n < |states|
    ensures Inv(states[n])
  {
    if n > 0 {
      RunKeepsInv(states, steps, n - 1);
      assert Follows(states[n - 1], steps[n - 1], states[n - 1 + 1]);
      StepKeepsInv(states[n - 1], steps[n - 1]);
    }
  }

  /** Among the exchanges sent under the lock, in every run: a token is sent again only after an exchange
      that failed, an open one is the last, and each was for a token found near expiry under the lock.
      Unlocked refreshes, logins and logouts in between change nothing about it. */
  lemma RefreshIsSingleFlight(states: seq<State>, steps: seq<Step>, n: nat, i: nat, j: nat)
    requires IsRun(states, steps) && n < |states| && i < j < |states[n].exchanges|
    requires states[n].exchanges[i].locked && states[n].exchanges[j].locked
    ensures var e := states[n].exchanges;
            && (e[i].refresh == e[j].refresh ==> e[i].outcome == Failed)
            && !e[i].outcome.Pending?
            && NeedsRefresh(e[i].access, e[i].checkedAt) && NeedsRefresh(e[j].access, e[j].checkedAt)
  {
    RunKeepsInv(states, steps, n);
  }

  // ---------------------------------------------------------------- exactly when no token is sent twice

  /** No refresh token occurs twice. */
  ghost predicate NoRepeats(exchanges: seq<Exchange>) {
    forall i, j :: 0 <= i < j < |exchanges| ==> exchanges[i].refresh != exchanges[j].refresh
  }

  /** A run in which these callers resolve a token, those make an authenticated call, and no exchange fails. */
  ghost predicate RunBy(steps: seq<Step>, locked: set<nat>, unlocked: set<nat>) {
    forall i :: 0 <= i < |steps| ==> StepBy(steps[i], locked, unlocked)
  }

  predicate StepBy(step: Step, locked: set<nat>, unlocked: set<nat>) {
    (step.Call? ==> step.c in locked) && (step.CallUnlocked? ==> step.c in unlocked) && !step.Fail?
  }

  /** Where such runs can lead. */
  ghost predicate LeadsTo(s: State, locked: set<nat>, unlocked: set<nat>) {
    exists states, steps :: IsRun(states, steps) && RunBy(steps, locked, unlocked) && states[|states| - 1] == s
  }

  /** Without unlocked callers every exchange was sent under the lock, and none failed. */
  lemma {:induction false} LockedAndNotFailed(states: seq<State>, steps: seq<Step>, n: nat, locked: set<nat>)
    requires IsRun(states, steps) && n < |states| && RunBy(steps, locked, {})
    ensures forall c :: c in states[n].callers ==> !states[n].callers[c].Using?
    ensures forall i :: 0 <= i < |states[n].exchanges| ==>
            states[n].exchanges[i].locked && states[n].exchanges[i].outcome != Failed
  {
    if n > 0 {
      LockedAndNotFailed(states, steps, n - 1, locked);
      assert Follows(states[n - 1], steps[n - 1], states[n - 1 + 1]);
      assert StepBy(steps[n - 1], locked, {});
    }
  }

  /** A caller sends at most one token. */
  lemma {:induction false} LoneCallerSendsOnce(states: seq<State>, steps: seq<Step>, n: nat, locked: set<nat>,
                                               unlocked: set<nat>, c: nat)
    requires IsRun(states, steps) && n < |states| && RunBy(steps, locked, unlocked) && locked + unlocked <= {c}
    ensures states[n].callers.Keys <= {c} && |states[n].exchanges| <= 1
    ensures states[n].exchanges != [] ==>
              c in states[n].callers && (InFlight(states[n].callers[c]) || states[n].callers[c].Returned?)
  {
    if n > 0 {
      LoneCallerSendsOnce(states, steps, n - 1, locked, unlocked, c);
      assert Follows(states[n - 1], steps[n - 1], states[n - 1 + 1]);
      assert StepBy(steps[n - 1], locked, unlocked);
    }
  }

  lemma LockedCallersNeverRepeat(states: seq<State>, steps: seq<Step>, locked: set<nat>)
    requires IsRun(states, steps) && RunBy(steps, locked, {})
    ensures NoRepeats(states[|states| - 1].exchanges)
  {
    var n := |states| - 1;
    LockedAndNotFailed(states, steps, n, locked);
    forall i, j | 0 <= i < j < |states[n].exchanges|
      ensures states[n].exchanges[i].refresh != states[n].exchanges[j].refresh
    {
      RefreshIsSingleFlight(states, steps, n, i, j);
    }
  }

  lemma SmallSet(s: set<nat>) returns (c: nat)
    requires |s| <= 1
    ensures s <= {c}
  {
    c := 0;
    if s != {} {
      c :| c in s;
      assert |s - {c}| == 0;
    }
  }

  /** The condition is sufficient. */
  lemma NoRepeatsIfLocked(states: seq<State>, steps: seq<Step>, locked: set<nat>, unlocked: set<nat>)
    requires IsRun(states, steps) && RunBy(steps, locked, unlocked) && (unlocked == {} || |locked + unlocked| <= 1)
    ensures NoRepeats(states[|states| - 1].exchanges)
  {
    if unlocked == {} {
      LockedCallersNeverRepeat(states, steps, locked);
    } else {
      var c := SmallSet(locked + unlocked);
      LoneCallerSendsOnce(states, steps, |states| - 1, locked, unlocked, c);
    }
  }

  lemma LeadsOn(s: State, step: Step, s': State, locked: set<nat>, unlocked: set<nat>)
    requires LeadsTo(s, locked, unlocked) && Follows(s, step, s') && StepBy(step, locked, unlocked)
    ensures LeadsTo(s', locked, unlocked)
  {
    var states, steps :| IsRun(states, steps) && RunBy(steps, locked, unlocked) && states[|states| - 1] == s;
    var states', steps' := states + [s'], steps + [step];
    forall i | 0 <= i < |steps'|
      ensures Follows(states'[i], steps'[i], states'[i + 1]) && StepBy(steps'[i], locked, unlocked)
    {
      if i < |steps| {
        assert Follows(states[i], steps[i], states[i + 1]) && StepBy(steps[i], locked, unlocked);
      }
    }
    assert IsRun(states', steps') && RunBy(steps', locked, unlocked);
  }

  const NEAR := Access(0, Some(0))
  const SECRET := Secret(NEAR, 0)

  /** Logged in with a token near expiry, and some callers on their way. */
  function LoggedIn(callers: map<nat, Phase>, holder: Option<nat>, exchanges: seq<Exchange>): State {
    State(Some(SECRET), callers, holder, exchanges, 1)
  }

  function Sending(locked: bool): Exchange {
    Exchange(0, locked, NEAR, 0, Pending)
  }

  lemma ReadWithoutLock(u: nat, locked: set<nat>, unlocked: set<nat>)
    requires u in unlocked
    ensures LeadsTo(LoggedIn(map[u := Using(SECRET)], None, []), locked, unlocked)
  {
    assert IsRun([AT_START], []) && RunBy([], locked, unlocked);
    LeadsOn(AT_START, LogIn(NEAR), LoggedIn(map[], None, []), locked, unlocked);
    LeadsOn(LoggedIn(map[], None, []), CallUnlocked(u), LoggedIn(map[u := Using(SECRET)], None, []), locked, unlocked);
  }

  /** Two authenticated calls that read the same secret send the same token. */
  lemma TwoUnlockedRepeat(u: nat, v: nat, locked: set<nat>, unlocked: set<nat>)
    requires u in unlocked && v in unlocked && u != v
    ensures exists s :: LeadsTo(s, locked, unlocked) && !NoRepeats(s.exchanges)
  {
    ReadWithoutLock(u, locked, unlocked);
    var s1 := LoggedIn(map[u := Using(SECRET)], None, []);
    var s2 := LoggedIn(map[u := Using(SECRET), v := Using(SECRET)], None, []);
    LeadsOn(s1, CallUnlocked(v), s2, locked, unlocked);
    var s3 := LoggedIn(map[u := Sent(SECRET, 0), v := Using(SECRET)], None, [Sending(false)]);
    LeadsOn(s2, SendUnlocked(u), s3, locked, unlocked);
    var s4 := LoggedIn(map[u := Sent(SECRET, 0), v := Sent(SECRET, 1)], None, [Sending(false), Sending(false)]);
    LeadsOn(s3, SendUnlocked(v), s4, locked, unlocked);
    assert s4.exchanges[0].refresh == s4.exchanges[1].refresh;
  }

  lemma LockedCallerIsReady(u: nat, c: nat, locked: set<nat>, unlocked: set<nat>)
    requires u in unlocked && c in locked && u != c
    ensures LeadsTo(LoggedIn(map[u := Using(SECRET), c := Ready(SECRET, 0)], Some(c), []), locked, unlocked)
  {
    ReadWithoutLock(u, locked, unlocked);
    var s1 := LoggedIn(map[u := Using(SECRET)], None, []);
    var s2 := LoggedIn(map[u := Using(SECRET), c := Entered], None, []);
    LeadsOn(s1, Call(c), s2, locked, unlocked);
    var s3 := LoggedIn(map[u := Using(SECRET), c := Waiting], None, []);
    LeadsOn(s2, Read(c, 0), s3, locked, unlocked);
    var s4 := LoggedIn(map[u := Using(SECRET), c := Locked], Some(c), []);
    LeadsOn(s3, TakeLock(c), s4, locked, unlocked);
    var s5 := LoggedIn(map[u := Using(SECRET), c := Ready(SECRET, 0)], Some(c), []);
    LeadsOn(s4, ReadAgain(c, 0), s5, locked, unlocked);
  }

  /** An authenticated call that refreshes while a resolving caller does sends its token a second time. */
  lemma LockedAndUnlockedRepeat(u: nat, c: nat, locked: set<nat>, unlocked: set<nat>)
    requires u in unlocked && c in locked && u != c
    ensures exists s :: LeadsTo(s, locked, unlocked) && !NoRepeats(s.exchanges)
  {
    LockedCallerIsReady(u, c, locked, unlocked);
    var s1 := LoggedIn(map[u := Using(SECRET), c := Ready(SECRET, 0)], Some(c), []);
    var s2 := LoggedIn(map[u := Using(SECRET), c := Sent(SECRET, 0)], Some(c), [Sending(true)]);
    LeadsOn(s1, Send(c), s2, locked, unlocked);
    var s3 := LoggedIn(map[u := Sent(SECRET, 1), c := Sent(SECRET, 0)], Some(c), [Sending(true), Sending(false)]);
    LeadsOn(s2, SendUnlocked(u), s3, locked, unlocked);
    assert s3.exchanges[0].refresh == s3.exchanges[1].refresh;
  }

  /** The condition is necessary. */
  lemma RepeatsOtherwise(locked: set<nat>, unlocked: set<nat>)
    requires unlocked != {} && |locked + unlocked| > 1
    ensures exists s :: LeadsTo(s, locked, unlocked) && !NoRepeats(s.exchanges)
  {
    var u :| u in unlocked;
    assert |locked + unlocked - {u}| == |locked + unlocked| - 1;
    var c :| c in locked + unlocked - {u};
    if c in unlocked {
      TwoUnlockedRepeat(u, c, locked, unlocked);
    } else {
      LockedAndUnlockedRepeat(u, c, locked, unlocked);
    }
  }

  /**
   Runs of these callers in which no exchange fails never send a refresh token twice if and only if
   nobody refreshes without the lock, or there is only one caller.
   */
  lemma NoTokenSentTwiceIff(locked: set<nat>, unlocked: set<nat>)
    ensures (forall s :: LeadsTo(s, locked, unlocked) ==> NoRepeats(s.exchanges)) <==>
            unlocked == {} || |locked + unlocked| <= 1
  {
    if unlocked == {} || |locked + unlocked| <= 1 {
      forall s | LeadsTo(s, locked, unlocked)
        ensures NoRepeats(s.exchanges)
      {
        var states, steps :| IsRun(states, steps) && RunBy(steps, locked, unlocked) && states[|states| - 1] == s;
        NoRepeatsIfLocked(states, steps, locked, unlocked);
      }
    } else {
      RepeatsOtherwise(locked, unlocked);
    }
  }
}
