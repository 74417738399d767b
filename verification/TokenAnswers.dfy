/**
 What a refresh does for its caller: which token is sent, what is stored, what is returned, and that every
 caller gets on.
 */
module TokenAnswers {
  import opened Common
  import opened TokenRefresh

  // ---------------------------------------------------------------- what is sent

  predicate IsOf(step: Step, c: nat) {
    !step.LogIn? && !step.LogOut? && step.c == c
  }

  /** The caller read this secret under the lock, when it was stored and near expiry. */
  ghost predicate ReadUnderLock(states: seq<State>, steps: seq<Step>, j: nat, c: nat, secret: Secret)
    requires j < |steps| < |states|
  {
    steps[j].ReadAgain? && steps[j].c == c && states[j].store == Some(secret)
    && NeedsRefresh(secret.access, steps[j].now)
  }

  ghost predicate ReadForACall(states: seq<State>, steps: seq<Step>, j: nat, c: nat, secret: Secret)
    requires j < |steps| < |states|
  {
    steps[j] == CallUnlocked(c) && states[j].store == Some(secret)
  }

  lemma ReadyByReading(s: State, step: Step, c: nat, secret: Secret, now: int)
    requires Enabled(s, step) && c in Apply(s, step).callers && Apply(s, step).callers[c] == Ready(secret, now)
    ensures (c in s.callers && s.callers[c] == Ready(secret, now))
            || (step == ReadAgain(c, now) && s.store == Some(secret) && NeedsRefresh(secret.access, now))
  {
  }

  lemma {:induction false} WhenRead(states: seq<State>, steps: seq<Step>, i: nat, c: nat) returns (j: nat)
    requires IsRun(states, steps) && i < |states| && c in states[i].callers && states[i].callers[c].Ready?
    ensures j < i && ReadUnderLock(states, steps, j, c, states[i].callers[c].secret)
  {
    assert Follows(states[i - 1], steps[i - 1], states[i - 1 + 1]);
    var phase := states[i].callers[c];
    ReadyByReading(states[i - 1], steps[i - 1], c, phase.secret, phase.checkedAt);
    if c in states[i - 1].callers && states[i - 1].callers[c] == phase {
      j := WhenRead(states, steps, i - 1, c);
    } else {
      j := i - 1;
    }
  }

  lemma UsingByCalling(s: State, step: Step, c: nat, secret: Secret)
    requires Enabled(s, step) && c in Apply(s, step).callers && Apply(s, step).callers[c] == Using(secret)
    ensures (c in s.callers && s.callers[c] == Using(secret)) || (step == CallUnlocked(c) && s.store == Some(secret))
  {
  }

  lemma {:induction false} WhenCalled(states: seq<State>, steps: seq<Step>, i: nat, c: nat) returns (j: nat)
    requires IsRun(states, steps) && i < |states| && c in states[i].callers && states[i].callers[c].Using?
    ensures j < i && ReadForACall(states, steps, j, c, states[i].callers[c].secret)
  {
    assert Follows(states[i - 1], steps[i - 1], states[i - 1 + 1]);
    UsingByCalling(states[i - 1], steps[i - 1], c, states[i].callers[c].secret);
    if c in states[i - 1].callers && states[i - 1].callers[c] == states[i].callers[c] {
      j := WhenCalled(states, steps, i - 1, c);
    } else {
      j := i - 1;
    }
  }

  /** A refresh under the lock sends the token its caller found stored and near expiry, and nothing else is sent
      but by an authenticated call, which sends the one it found stored. */
  lemma SendsTheStoredToken(states: seq<State>, steps: seq<Step>, i: nat) returns (j: nat, secret: Secret)
    requires IsRun(states, steps) && i < |steps| && states[i + 1].exchanges != states[i].exchanges
    requires steps[i].Send? || steps[i].SendUnlocked?
    ensures j < i
    ensures if steps[i].Send? then ReadUnderLock(states, steps, j, steps[i].c, secret)
            else ReadForACall(states, steps, j, steps[i].c, secret)
    ensures |states[i + 1].exchanges| == |states[i].exchanges| + 1
    ensures states[i + 1].exchanges[..|states[i].exchanges|] == states[i].exchanges
    ensures var e := states[i + 1].exchanges[|states[i].exchanges|];
            e.refresh == secret.refresh && e.locked == steps[i].Send? && e.outcome == Pending
  {
    assert Follows(states[i], steps[i], states[i + 1]);
    secret := states[i].callers[steps[i].c].secret;
    if steps[i].Send? {
      j := WhenRead(states, steps, i, steps[i].c);
    } else {
      j := WhenCalled(states, steps, i, steps[i].c);
    }
  }

  // ---------------------------------------------------------------- what is stored

  lemma AnsweredByGateway(s: State, step: Step, c: nat, renewed: Secret)
    requires Enabled(s, step) && c in Apply(s, step).callers && Apply(s, step).callers[c].Answered?
    requires Apply(s, step).callers[c].renewed == renewed
    ensures (c in s.callers && s.callers[c] == Apply(s, step).callers[c])
            || (step == Answer(c, renewed.access) && renewed.refresh == s.nextRefresh)
  {
  }

  lemma {:induction false} WhenAnswered(states: seq<State>, steps: seq<Step>, i: nat, c: nat) returns (j: nat)
    requires IsRun(states, steps) && i < |states| && c in states[i].callers && states[i].callers[c].Answered?
    ensures j < i && steps[j] == Answer(c, states[i].callers[c].renewed.access)
    ensures states[i].callers[c].renewed.refresh == states[j].nextRefresh
  {
    assert Follows(states[i - 1], steps[i - 1], states[i - 1 + 1]);
    AnsweredByGateway(states[i - 1], steps[i - 1], c, states[i].callers[c].renewed);
    if c in states[i - 1].callers && states[i - 1].callers[c] == states[i].callers[c] {
      j := WhenAnswered(states, steps, i - 1, c);
    } else {
      j := i - 1;
    }
  }

  /** What a refresh stores is the pair the gateway answered its caller with. */
  lemma StoresTheAnswer(states: seq<State>, steps: seq<Step>, i: nat) returns (j: nat)
    requires IsRun(states, steps) && i < |steps| && steps[i].Store?
    ensures j < i && steps[j].Answer? && steps[j].c == steps[i].c
    ensures states[i + 1].store == Some(Secret(steps[j].access, states[j].nextRefresh))
  {
    assert Follows(states[i], steps[i], states[i + 1]);
    j := WhenAnswered(states, steps, i, steps[i].c);
  }

  /** Nothing else changes the store but a login, a logout and a session the gateway declares dead. */
  lemma StoreChangesOnlySo(s: State, step: Step)
    requires Enabled(s, step)
    ensures var s' := Apply(s, step);
            && (step.LogIn? ==> s'.store == Some(Secret(step.access, s.nextRefresh)))
            && (step.LogOut? || (step.Fail? && step.sessionDead) ==> s'.store.None?)
            && (!step.LogIn? && !step.LogOut? && !step.Store? && !(step.Fail? && step.sessionDead) ==>
                  s'.store == s.store)
  {
  }

  /** An exchange is settled by its own caller: as stored, or as failed. */
  lemma ExchangesAreSettled(s: State, step: Step)
    requires Enabled(s, step)
    ensures step.Store? || step.Fail? ==>
              var k := s.callers[step.c].k;
              Apply(s, step).exchanges ==
              s.exchanges[k := s.exchanges[k].(outcome := if step.Store? then Stored else Failed)]
    ensures !step.Store? && !step.Fail? && !step.Send? && !step.SendUnlocked? ==>
              Apply(s, step).exchanges == s.exchanges
  {
  }

  // ---------------------------------------------------------------- what is returned

  /** A caller returns without an exchange only with a stored token that is not near expiry, or with none when
      none is stored; after an exchange it returns the renewed token if all was recorded, else the one it had. */
  lemma ReturnsOnlyThis(s: State, step: Step, c: nat)
    requires Enabled(s, step) && !(c in s.callers && s.callers[c].Returned?)
    requires c in Apply(s, step).callers && Apply(s, step).callers[c].Returned?
    ensures c in s.callers && IsOf(step, c)
    ensures var access := Apply(s, step).callers[c].access;
            if step.Read? || step.ReadAgain? then
              && (s.store.None? <==> access.None?)
              && (s.store.Some? ==>
                    access == Some(s.store.value.access) && !NeedsRefresh(s.store.value.access, step.now))
            else if step.Store? then
              && s.callers[c].Answered?
              && access == Some(if step.recorded then s.callers[c].renewed.access else s.callers[c].secret.access)
            else step.Fail? && InFlight(s.callers[c]) && access == Some(s.callers[c].secret.access)
  {
  }

  /** A stored token that is not near expiry is returned at once, and so is none if none is stored. With one
      that is, the caller goes for the lock at the first look, and for an exchange at the second. */
  lemma LookDecides(s: State, step: Step)
    requires Enabled(s, step) && (step.Read? || step.ReadAgain?)
    ensures Apply(s, step).callers[step.c] ==
            if s.store.None? then Returned(None)
            else if s.store.value.access.exp.None? || s.store.value.access.exp.value - step.now > 120
            then Returned(Some(s.store.value.access))
            else if step.Read? then Waiting else Ready(s.store.value, step.now)
  {
  }

  // ---------------------------------------------------------------- everybody gets on

  function StepsLeft(phase: Phase): nat {
    match phase
    case Entered => 6
    case Waiting => 5
    case Locked => 4
    case Ready(_, _) | Using(_) => 3
    case Sent(_, _) => 2
    case Answered(_, _, _) => 1
    case Returned(_) => 0
  }

  /** A step of a caller brings its return nearer, and does not touch the others. */
  lemma EveryStepCounts(s: State, step: Step, c: nat)
    requires Enabled(s, step) && c in s.callers
    ensures c in Apply(s, step).callers
    ensures if IsOf(step, c) then StepsLeft(Apply(s, step).callers[c]) < StepsLeft(s.callers[c])
            else Apply(s, step).callers[c] == s.callers[c]
  {
  }

  /** A caller that has not returned can take a step, or waits for the lock while another caller, who can, has it. */
  lemma SomebodyGetsOn(states: seq<State>, steps: seq<Step>, n: nat, c: nat) returns (d: nat, step: Step)
    requires IsRun(states, steps) && n < |states| && c in states[n].callers && !states[n].callers[c].Returned?
    ensures Enabled(states[n], step) && IsOf(step, d)
    ensures d == c || (states[n].callers[c].Waiting? && states[n].holder == Some(d))
  {
    var s := states[n];
    RunKeepsInv(states, steps, n);
    d := if s.callers[c].Waiting? && s.holder.Some? then s.holder.value else c;
    step := match s.callers[d]
      case Entered => Read(d, 0)
      case Waiting => TakeLock(d)
      case Locked => ReadAgain(d, 0)
      case Ready(_, _) => Send(d)
      case Using(_) => SendUnlocked(d)
      case Sent(secret, _) => Answer(d, secret.access)
      case Answered(_, _, _) => Store(d, true)
      case Returned(_) => Read(d, 0);
  }
}
