/**
 What a subscription delivers: every event its installed task takes in is published, in order and with the
 transport it came from; a started subscription is served; and a task goes on until its own subscription
 ends.
 */
module SseDelivery {
  import opened Common
  import opened SseSubscriptions

  // ---------------------------------------------------------------- every event is published

  /** This generation is in the table for its key, and its flag is set. */
  predicate Serves(s: State, g: nat) {
    && g in s.tasks && s.tasks[g].running
    && s.tasks[g].key in s.entries && s.entries[s.tasks[g].key].generation == g
  }

  /** What a step has to publish: the event of an installed task, as coming from the transport it reads. */
  function Due(s: State, step: Step): seq<Emission> {
    if step.Emit? && Serves(s, step.generation) && s.tasks[step.generation].phase.Reading?
    then [Emission(s.tasks[step.generation].key, step.generation, s.tasks[step.generation].phase.transport)]
    else []
  }

  function AllDue(states: seq<State>, steps: seq<Step>, n: nat): seq<Emission>
    requires n <= |steps| < |states|
  {
    if n == 0 then [] else AllDue(states, steps, n - 1) + Due(states[n - 1], steps[n - 1])
  }

  /** A step publishes exactly what is due. */
  lemma StepPublishes(s: State, step: Step)
    requires Enabled(s, step)
    ensures Apply(s, step).emitted == s.emitted + Due(s, step)
  {
  }

  /**
   Over every run the publications are, in order, the events of exactly those steps whose task was installed
   and running at that moment: none is invented, none is lost.
   */
  lemma {:induction false} PublishesWhatIsDue(states: seq<State>, steps: seq<Step>, n: nat)
    requires IsRun(states, steps) && n < |states|
    ensures states[n].emitted == AllDue(states, steps, n)
  {
    if n > 0 {
      PublishesWhatIsDue(states, steps, n - 1);
      assert Follows(states[n - 1], steps[n - 1], states[n - 1 + 1]);
      StepPublishes(states[n - 1], steps[n - 1]);
    }
  }

  // ---------------------------------------------------------------- a start is served

  /** A task of this target is in the table and has neither been stopped nor died. */
  predicate HasLiveTask(s: State, key: Key, target: Target) {
    && key in s.entries && s.entries[key].target == target
    && s.entries[key].generation in s.tasks && s.tasks[s.entries[key].generation].running
    && s.tasks[s.entries[key].generation].phase != Finished
  }

  /** A start command leaves a live task of the same target alone; otherwise it spawns a new generation,
      and only the key's own old entry and task are touched. */
  lemma StartSpawns(s: State, key: Key, target: Target)
    requires EntriesOk(s) && s.starting.None?
    ensures var s' := Apply(s, Start(key, target));
            if HasLiveTask(s, key, target) then s' == s
            else
              && s'.starting == Some(Starting(key, s.nextGeneration, target)) && s.nextGeneration !in s.tasks
              && s'.tasks.Keys == s.tasks.Keys + {s.nextGeneration}
              && s'.tasks[s.nextGeneration] == Task(key, true, Resolving)
              && s'.entries == s.entries - {key}
              && (forall g :: g in s.tasks && s.tasks[g].key != key ==> s'.tasks[g] == s.tasks[g])
  {
  }

  /** The new task of a start command under way. */
  ghost predicate IsStarting(s: State, p: Starting) {
    s.starting == Some(p) && p.generation in s.tasks && s.tasks[p.generation].key == p.key
    && s.tasks[p.generation].running
  }

  lemma StartGoesOn(s: State, step: Step, p: Starting)
    requires Enabled(s, step) && IsStarting(s, p) && !step.Install?
    ensures IsStarting(Apply(s, step), p)
  {
  }

  /** When a start command returns, the key is served by a running task of that target. */
  lemma StartedIsServed(states: seq<State>, steps: seq<Step>, i: nat, j: nat)
    requires IsRun(states, steps) && i < j < |steps| && steps[i].Start? && steps[j].Install?
    requires !HasLiveTask(states[i], steps[i].key, steps[i].target)
    requires forall k :: i < k < j ==> !steps[k].Install?
    ensures steps[i].key in states[j + 1].entries
    ensures var entry := states[j + 1].entries[steps[i].key];
            && entry == Entry(states[i].nextGeneration, steps[i].target) && Serves(states[j + 1], entry.generation)
  {
    var p := Starting(steps[i].key, states[i].nextGeneration, steps[i].target);
    RunKeepsInv(states, steps, i);
    assert Follows(states[i], steps[i], states[i + 1]);
    StartSpawns(states[i], steps[i].key, steps[i].target);
    StartsUntil(states, steps, i + 1, j, p);
    assert Follows(states[j], steps[j], states[j + 1]);
  }

  lemma {:induction false} StartsUntil(states: seq<State>, steps: seq<Step>, i: nat, j: nat, p: Starting)
    requires IsRun(states, steps) && i <= j < |states| && IsStarting(states[i], p)
    requires forall k :: i <= k < j ==> !steps[k].Install?
    ensures IsStarting(states[j], p)
    decreases j
  {
    if i < j {
      StartsUntil(states, steps, i, j - 1, p);
      assert Follows(states[j - 1], steps[j - 1], states[j - 1 + 1]);
      StartGoesOn(states[j - 1], steps[j - 1], p);
    }
  }

  // ---------------------------------------------------------------- a task goes on

  /** The step stops or replaces this task's subscription, or is its own clean-up. */
  predicate Halts(s: State, step: Step, key: Key, g: nat) {
    || step.StopAll? || (step.Stop? && step.key == key) || step == CleanUp(g)
    || (step.Start? && step.key == key && !HasLiveTask(s, key, step.target))
  }

  lemma RunningGoesOn(s: State, step: Step, g: nat)
    requires EntriesOk(s) && Enabled(s, step) && g in s.tasks && s.tasks[g].running
    requires !Halts(s, step, s.tasks[g].key, g)
    ensures g in Apply(s, step).tasks && Apply(s, step).tasks[g].running
    ensures Apply(s, step).tasks[g].key == s.tasks[g].key
  {
  }

  /** A running task keeps its flag until its own subscription is stopped, replaced or cleaned up: nothing
      that happens to other keys stops it. */
  lemma {:induction false} RunsUntilHalted(states: seq<State>, steps: seq<Step>, i: nat, j: nat, g: nat)
    requires IsRun(states, steps) && i <= j < |states| && g in states[i].tasks && states[i].tasks[g].running
    requires forall k :: i <= k < j ==> !Halts(states[k], steps[k], states[i].tasks[g].key, g)
    ensures g in states[j].tasks && states[j].tasks[g].running && states[j].tasks[g].key == states[i].tasks[g].key
    decreases j
  {
    if i < j {
      RunsUntilHalted(states, steps, i, j - 1, g);
      RunKeepsInv(states, steps, j - 1);
      assert Follows(states[j - 1], steps[j - 1], states[j - 1 + 1]);
      assert !Halts(states[j - 1], steps[j - 1], states[i].tasks[g].key, g);
      RunningGoesOn(states[j - 1], steps[j - 1], g);
    }
  }

  /** A task that runs is connecting or reading, unless it died. */
  ghost predicate AtWork(s: State) {
    forall g :: g in s.tasks && s.tasks[g].running ==> !s.tasks[g].phase.Leaving?
  }

  lemma StepKeepsAtWork(s: State, step: Step)
    requires Inv(s) && AtWork(s) && Enabled(s, step)
    ensures AtWork(Apply(s, step))
  {
  }

  lemma {:induction false} RunKeepsAtWork(states: seq<State>, steps: seq<Step>, n: nat)
    requires IsRun(states, steps) && n < |states|
    ensures AtWork(states[n])
  {
    if n > 0 {
      RunKeepsAtWork(states, steps, n - 1);
      RunKeepsInv(states, steps, n - 1);
      assert Follows(states[n - 1], steps[n - 1], states[n - 1 + 1]);
      StepKeepsAtWork(states[n - 1], steps[n - 1]);
    }
  }

  /** In every reachable state an installed, running task that did not die publishes its next event after at
      most one connect. */
  lemma ServingTaskPublishes(states: seq<State>, steps: seq<Step>, n: nat, g: nat) returns (u: State, t: nat)
    requires IsRun(states, steps) && n < |states| && states[n].starting.None?
    requires Serves(states[n], g) && !states[n].tasks[g].phase.Finished?
    ensures u == states[n] || (Enabled(states[n], Connect(g)) && u == Apply(states[n], Connect(g)))
    ensures Enabled(u, Emit(g))
    ensures Apply(u, Emit(g)).emitted == states[n].emitted + [Emission(states[n].tasks[g].key, g, t)]
  {
    var s := states[n];
    RunKeepsAtWork(states, steps, n);
    u := if s.tasks[g].phase.Resolving? then Apply(s, Connect(g)) else s;
    t := u.tasks[g].phase.transport;
    StepPublishes(u, Emit(g));
  }

  /** A task that finds itself stopped or replaced when it wants to publish leaves. */
  lemma RefusedTaskLeaves(s: State, g: nat)
    requires Enabled(s, Emit(g)) && !Serves(s, g)
    ensures Apply(s, Emit(g)).tasks[g].phase.Leaving? && Apply(s, Emit(g)).emitted == s.emitted
  {
  }

  /** A stopped task that is not finished can leave and clean up, after which it is. */
  lemma StoppedTaskCanFinish(s: State, g: nat) returns (u: State)
    requires s.starting.None? && g in s.tasks && !s.tasks[g].running && !s.tasks[g].phase.Finished?
    ensures u == s || (Enabled(s, Leave(g)) && u == Apply(s, Leave(g)))
    ensures Enabled(u, CleanUp(g)) && Apply(u, CleanUp(g)).tasks[g].phase.Finished?
  {
    u := if s.tasks[g].phase.Leaving? then s else Apply(s, Leave(g));
  }

  // ---------------------------------------------------------------- a closed transport stays closed

  /** The transport was opened, and the task does not read from it any more. */
  ghost predicate Closed(s: State, g: nat, t: nat) {
    g in s.tasks && t < s.nextTransport && s.tasks[g].phase != Reading(t)
  }

  lemma ClosedStaysClosed(s: State, step: Step, g: nat, t: nat)
    requires EntriesOk(s) && Enabled(s, step) && Closed(s, g, t)
    ensures Closed(Apply(s, step), g, t)
    ensures forall e :: e in Due(s, step) ==> !(e.generation == g && e.transport == t)
  {
  }

  /** Once a task lets go of a transport, by reconnecting, leaving or dying, nothing more is published from it. */
  lemma {:induction false} NothingFromClosedTransports(states: seq<State>, steps: seq<Step>, i: nat, j: nat, g: nat,
                                                       t: nat)
    requires IsRun(states, steps) && i <= j < |states| && Closed(states[i], g, t)
    ensures Closed(states[j], g, t) && |states[i].emitted| <= |states[j].emitted|
    ensures forall k :: |states[i].emitted| <= k < |states[j].emitted| ==>
              !(states[j].emitted[k].generation == g && states[j].emitted[k].transport == t)
    decreases j
  {
    if i < j {
      NothingFromClosedTransports(states, steps, i, j - 1, g, t);
      RunKeepsInv(states, steps, j - 1);
      assert Follows(states[j - 1], steps[j - 1], states[j - 1 + 1]);
      StepPublishes(states[j - 1], steps[j - 1]);
      ClosedStaysClosed(states[j - 1], steps[j - 1], g, t);
      LaterOnes(states[i].emitted, states[j - 1].emitted, Due(states[j - 1], steps[j - 1]), g, t);
    }
  }

  lemma LaterOnes(first: seq<Emission>, before: seq<Emission>, due: seq<Emission>, g: nat, t: nat)
    requires |first| <= |before|
    requires forall k :: |first| <= k < |before| ==> !(before[k].generation == g && before[k].transport == t)
    requires forall e :: e in due ==> !(e.generation == g && e.transport == t)
    ensures forall k :: |first| <= k < |before + due| ==>
              !((before + due)[k].generation == g && (before + due)[k].transport == t)
  {
  }

  /** A task that disconnects, leaves, cleans up or dies lets go of the transport it read from. */
  lemma EndingClosesTransport(states: seq<State>, steps: seq<Step>, i: nat, g: nat)
    requires IsRun(states, steps) && i < |steps| && g in states[i].tasks && states[i].tasks[g].phase.Reading?
    requires steps[i] in {Disconnect(g), Leave(g), Die(g)}
    ensures Closed(states[i + 1], g, states[i].tasks[g].phase.transport)
  {
    RunKeepsInv(states, steps, i);
    assert Follows(states[i], steps[i], states[i + 1]);
  }

  /** A task that cleaned up or died never does anything again. */
  lemma {:induction false} FinishedForever(states: seq<State>, steps: seq<Step>, i: nat, j: nat, g: nat)
    requires IsRun(states, steps) && i < j < |states| && steps[i] in {CleanUp(g), Die(g)}
    ensures g in states[j].tasks && states[j].tasks[g].phase.Finished?
    ensures j < |steps| ==> steps[j] !in {Connect(g), Emit(g), Disconnect(g), Leave(g), CleanUp(g), Die(g)}
    decreases j
  {
    assert Follows(states[j - 1], steps[j - 1], states[j - 1 + 1]);
    if i < j - 1 {
      FinishedForever(states, steps, i, j - 1, g);
      RunKeepsInv(states, steps, j - 1);
      StaysFinished(states[j - 1], steps[j - 1], g);
    }
    if j < |steps| {
      assert Follows(states[j], steps[j], states[j + 1]);
    }
  }

  lemma StaysFinished(s: State, step: Step, g: nat)
    requires EntriesOk(s) && Enabled(s, step) && g in s.tasks && s.tasks[g].phase.Finished?
    ensures g in Apply(s, step).tasks && Apply(s, step).tasks[g].phase.Finished?
  {
  }
}
