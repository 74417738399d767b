/**
 The subscription table of the event proxy. Every subscription is served by one task that opens one
 transport after another; replacing or stopping a subscription fences the old task off by its
 generation. Steps of different tasks and commands interleave freely; what runs under the table's
 lock is one step, except that a starting command lets its new task run before it installs the entry.
 */
module SseSubscriptions {
  import opened Common

  type Key = string
  /** The session hint and the owner a subscription is for. */
  datatype Target = Target(sessionHint: string, owner: string)

  datatype Entry = Entry(generation: nat, target: Target)

  /** Where a task stands: between transports, reading from one, about to clean up, finished. */
  datatype Phase = Resolving | Reading(transport: nat) | Leaving | Finished

  /** `running` is the flag the task shares with its entry. */
  datatype Task = Task(key: Key, running: bool, phase: Phase)

  datatype Emission = Emission(key: Key, generation: nat, transport: nat)

  datatype Starting = Starting(key: Key, generation: nat, target: Target)

  datatype State = State(
    entries: map<Key, Entry>,
    tasks: map<nat, Task>,
    /** A start command that holds the lock and has spawned its task. */
    starting: Option<Starting>,
    nextGeneration: nat,
    nextTransport: nat,
    emitted: seq<Emission>)

  datatype Step =
    | Start(key: Key, target: Target)
    | Install
    | Stop(key: Key)
    | StopAll
    | Connect(generation: nat)
    | Emit(generation: nat)
    | Disconnect(generation: nat)
    | Leave(generation: nat)
    | CleanUp(generation: nat)
    | Die(generation: nat)

  // ---------------------------------------------------------------- the steps

  /** The running flag is set and the task has not finished. */
  predicate IsAlive(s: State, e: Entry) {
    e.generation in s.tasks && s.tasks[e.generation].running && !s.tasks[e.generation].phase.Finished?
  }

  predicate AlreadyServed(s: State, key: Key, target: Target) {
    key in s.entries && IsAlive(s, s.entries[key]) && s.entries[key].target == target
  }

  function Halt(tasks: map<nat, Task>, generation: nat): map<nat, Task> {
    if generation in tasks then tasks[generation := tasks[generation].(running := false)] else tasks
  }

  /** Take an entry out of the table and stop its task. */
  function Removed(s: State, key: Key): State {
    if key in s.entries then s.(entries := s.entries - {key}, tasks := Halt(s.tasks, s.entries[key].generation)) else s
  }

  function AfterStart(s: State, key: Key, target: Target): State {
    if AlreadyServed(s, key, target) then s
    else
      var s1, g := Removed(s, key), s.nextGeneration;
      s1.(tasks := s1.tasks[g := Task(key, true, Resolving)],
          starting := Some(Starting(key, g, target)), nextGeneration := g + 1)
  }

  function AfterInstall(s: State): State {
    match s.starting
    case Some(p) => s.(entries := s.entries[p.key := Entry(p.generation, p.target)], starting := None)
    case None => s
  }

  predicate IsEntryOf(entries: map<Key, Entry>, generation: nat) {
    exists key :: key in entries && entries[key].generation == generation
  }

  function AfterStopAll(s: State): State {
    s.(entries := map[],
       tasks := map g | g in s.tasks :: if IsEntryOf(s.entries, g) then s.tasks[g].(running := false) else s.tasks[g])
  }

  predicate IsCurrent(s: State, generation: nat) {
    && generation in s.tasks
    && var key := s.tasks[generation].key;
       key in s.entries && s.entries[key].generation == generation && s.tasks[generation].running
  }

  function WithPhase(s: State, generation: nat, phase: Phase): State
    requires generation in s.tasks
  {
    s.(tasks := s.tasks[generation := s.tasks[generation].(phase := phase)])
  }

  function AfterConnect(s: State, generation: nat): State
    requires generation in s.tasks
  {
    WithPhase(s, generation, Reading(s.nextTransport)).(nextTransport := s.nextTransport + 1)
  }

  /** Nothing is published unless this generation is the installed, running one; otherwise the attempt ends. */
  function AfterEmit(s: State, generation: nat): State
    requires generation in s.tasks && s.tasks[generation].phase.Reading?
  {
    var t := s.tasks[generation];
    if IsCurrent(s, generation) then s.(emitted := s.emitted + [Emission(t.key, generation, t.phase.transport)])
    else WithPhase(s, generation, Leaving)
  }

  /** A task removes its own entry only. */
  function AfterCleanUp(s: State, generation: nat): State
    requires generation in s.tasks
  {
    var key := s.tasks[generation].key;
    var s1 := if key in s.entries && s.entries[key].generation == generation
              then s.(entries := s.entries - {key}, tasks := Halt(s.tasks, generation)) else s;
    s1.(tasks := s1.tasks[generation := s1.tasks[generation].(phase := Finished)])
  }

  ghost predicate Enabled(s: State, step: Step) {
    match step
    case Start(_, _) => s.starting.None?
    case Install => s.starting.Some?
    case Stop(_) => s.starting.None?
    case StopAll => s.starting.None?
    case Connect(g) => g in s.tasks && s.tasks[g].phase.Resolving?
    case Emit(g) => g in s.tasks && s.tasks[g].phase.Reading? && s.starting.None?
    case Disconnect(g) => g in s.tasks && s.tasks[g].phase.Reading?
    case Leave(g) => g in s.tasks && !s.tasks[g].running && (s.tasks[g].phase.Resolving? || s.tasks[g].phase.Reading?)
    case CleanUp(g) => g in s.tasks && s.tasks[g].phase.Leaving? && s.starting.None?
    case Die(g) => g in s.tasks && !s.tasks[g].phase.Finished?
  }

  ghost function Apply(s: State, step: Step): State
    requires Enabled(s, step)
  {
    match step
    case Start(key, target) => AfterStart(s, key, target)
    case Install => AfterInstall(s)
    case Stop(key) => Removed(s, key)
    case StopAll => AfterStopAll(s)
    case Connect(g) => AfterConnect(s, g)
    case Emit(g) => AfterEmit(s, g)
    case Disconnect(g) => WithPhase(s, g, Resolving)
    case Leave(g) => WithPhase(s, g, Leaving)
    case CleanUp(g) => AfterCleanUp(s, g)
    case Die(g) => WithPhase(s, g, Finished)
  }

  // ---------------------------------------------------------------- the invariant

  /** Each entry is for a known task of its key, and is the newest of that key. */
  ghost predicate EntriesOk(s: State) {
    && (forall g :: g in s.tasks ==> g < s.nextGeneration)
    && (forall key :: key in s.entries ==>
          s.entries[key].generation in s.tasks && s.tasks[s.entries[key].generation].key == key)
    && (forall key, g :: key in s.entries && g in s.tasks && s.tasks[g].key == key ==> g <= s.entries[key].generation)
  }

  /** The task being started is the newest of all, and its key has no entry yet. */
  ghost predicate StartingOk(s: State) {
    s.starting.Some? ==>
      && s.starting.value.generation + 1 == s.nextGeneration && s.starting.value.key !in s.entries
      && s.starting.value.generation in s.tasks && s.tasks[s.starting.value.generation].key == s.starting.value.key
  }

  /** A task whose flag is still set is the installed one, or about to be. */
  ghost predicate RunningOk(s: State) {
    forall g :: g in s.tasks && s.tasks[g].running ==>
      || (s.tasks[g].key in s.entries && s.entries[s.tasks[g].key].generation == g)
      || (s.starting.Some? && s.starting.value.generation == g)
  }

  /** What was published came from known tasks and transports opened before. */
  ghost predicate EmittedOk(s: State) {
    forall i :: 0 <= i < |s.emitted| ==>
      var e := s.emitted[i];
      e.generation in s.tasks && s.tasks[e.generation].key == e.key && e.transport < s.nextTransport
  }

  /** Whatever a task still reads from was opened no earlier than anything published before by its own
      or an older generation of the key. */
  ghost predicate ReadingOk(s: State) {
    forall i, g :: 0 <= i < |s.emitted| && g in s.tasks && s.tasks[g].phase.Reading? ==>
      (s.tasks[g].key == s.emitted[i].key && s.emitted[i].generation <= g ==>
        s.emitted[i].transport <= s.tasks[g].phase.transport)
  }

  ghost predicate TransportsOk(s: State) {
    forall g :: g in s.tasks && s.tasks[g].phase.Reading? ==> s.tasks[g].phase.transport < s.nextTransport
  }

  /** Per key, neither subscription nor transport generations ever went down. */
  ghost predicate Monotone(emitted: seq<Emission>) {
    forall i, j :: 0 <= i < j < |emitted| && emitted[i].key == emitted[j].key ==>
      emitted[i].generation <= emitted[j].generation && emitted[i].transport <= emitted[j].transport
  }

  ghost predicate TableOk(s: State) {
    EntriesOk(s) && StartingOk(s) && RunningOk(s)
  }

  ghost predicate FlowOk(s: State) {
    EmittedOk(s) && ReadingOk(s) && TransportsOk(s) && Monotone(s.emitted)
  }

  ghost predicate Inv(s: State) {
    TableOk(s) && FlowOk(s)
  }

  // ---------------------------------------------------------------- every step keeps it

  lemma RemovedKeepsTable(s: State, key: Key)
    requires TableOk(s)
    ensures TableOk(Removed(s, key))
  {
  }

  lemma StartKeepsTable(s: State, key: Key, target: Target)
    requires TableOk(s) && s.starting.None?
    ensures TableOk(AfterStart(s, key, target))
  {
    RemovedKeepsTable(s, key);
  }

  lemma InstallKeepsTable(s: State)
    requires TableOk(s)
    ensures TableOk(AfterInstall(s))
  {
  }

  lemma StopAllKeepsTable(s: State)
    requires TableOk(s) && s.starting.None?
    ensures TableOk(AfterStopAll(s))
  {
  }

  /** Steps that move a task, and may drop its flag, leave the table as it is. */
  lemma PhaseKeepsTable(s: State, g: nat, phase: Phase)
    requires TableOk(s) && g in s.tasks
    ensures TableOk(WithPhase(s, g, phase))
  {
  }

  lemma CleanUpKeepsTable(s: State, g: nat)
    requires TableOk(s) && g in s.tasks
    ensures TableOk(AfterCleanUp(s, g))
  {
  }

  /** A state with the same publications and transports, whose readers were readers before. */
  ghost predicate SameFlow(s: State, s': State) {
    && s'.emitted == s.emitted && s'.nextTransport == s.nextTransport
    && (forall g :: g in s.tasks ==> g in s'.tasks && s'.tasks[g].key == s.tasks[g].key)
    && (forall g :: g in s'.tasks && s'.tasks[g].phase.Reading? ==>
          g in s.tasks && s.tasks[g].phase == s'.tasks[g].phase)
  }

  lemma SameFlowKeeps(s: State, s': State)
    requires FlowOk(s) && SameFlow(s, s')
    ensures FlowOk(s')
  {
  }

  lemma ConnectKeepsFlow(s: State, g: nat)
    requires FlowOk(s) && g in s.tasks
    ensures FlowOk(AfterConnect(s, g))
  {
  }

  /** The installed generation is the newest of its key, so nothing it publishes goes back. */
  lemma EmitKeepsFlow(s: State, g: nat)
    requires Inv(s) && g in s.tasks && s.tasks[g].phase.Reading? && IsCurrent(s, g)
    ensures FlowOk(AfterEmit(s, g))
  {
    EmitKeepsMonotone(s, g);
    var s' := AfterEmit(s, g);
    assert TransportsOk(s');
  }

  lemma EmitKeepsMonotone(s: State, g: nat)
    requires Inv(s) && g in s.tasks && s.tasks[g].phase.Reading? && IsCurrent(s, g)
    ensures Monotone(AfterEmit(s, g).emitted)
  {
  }

  lemma StepKeepsTable(s: State, step: Step)
    requires TableOk(s) && Enabled(s, step)
    ensures TableOk(Apply(s, step))
  {
    match step
    case Start(key, target) => StartKeepsTable(s, key, target);
    case Install => InstallKeepsTable(s);
    case Stop(key) => RemovedKeepsTable(s, key);
    case StopAll => StopAllKeepsTable(s);
    case Connect(g) => PhaseKeepsTable(s, g, Reading(s.nextTransport));
    case Emit(g) => PhaseKeepsTable(s, g, Leaving);
    case Disconnect(g) => PhaseKeepsTable(s, g, Resolving);
    case Leave(g) => PhaseKeepsTable(s, g, Leaving);
    case CleanUp(g) => CleanUpKeepsTable(s, g);
    case Die(g) => PhaseKeepsTable(s, g, Finished);
  }

  lemma QuietStepsKeepFlow(s: State, step: Step)
    requires Enabled(s, step) && !step.Connect? && !(step.Emit? && IsCurrent(s, step.generation))
    requires EntriesOk(s)
    ensures SameFlow(s, Apply(s, step))
  {
  }

  lemma StepKeepsInv(s: State, step: Step)
    requires Inv(s) && Enabled(s, step)
    ensures Inv(Apply(s, step))
  {
    StepKeepsTable(s, step);
    if step.Connect? {
      ConnectKeepsFlow(s, step.generation);
    } else if step.Emit? && IsCurrent(s, step.generation) {
      EmitKeepsFlow(s, step.generation);
    } else {
      QuietStepsKeepFlow(s, step);
      SameFlowKeeps(s, Apply(s, step));
    }
  }

  // ---------------------------------------------------------------- whole runs

  const AT_START := State(map[], map[], None, 1, 1, [])

  ghost predicate Follows(s: State, step: Step, s': State) {
    Enabled(s, step) && s' == Apply(s, step)
  }

  ghost predicate IsRun(states: seq<State>, steps: seq<Step>) {
    && |states| == |steps| + 1
    && states[0] == AT_START
    && forall i :: 0 <= i < |steps| ==> Follows(states[i], steps[i], states[i + 1])
  }

  lemma {:induction false} RunKeepsInv(states: seq<State>, steps: seq<Step>, i: nat)
    requires IsRun(states, steps) && i < |states|
    ensures Inv(states[i])
  {
    if i > 0 {
      RunKeepsInv(states, steps, i - 1);
      assert Follows(states[i - 1], steps[i - 1], states[i - 1 + 1]);
      StepKeepsInv(states[i - 1], steps[i - 1]);
    }
  }

  /** The transport generations published on a key never decrease, nor do the subscription generations. */
  lemma TransportsNeverDecrease(states: seq<State>, steps: seq<Step>, n: nat, i: nat, j: nat)
    requires IsRun(states, steps) && n < |states| && i < j < |states[n].emitted|
    requires states[n].emitted[i].key == states[n].emitted[j].key
    ensures states[n].emitted[i].transport <= states[n].emitted[j].transport
    ensures states[n].emitted[i].generation <= states[n].emitted[j].generation
  {
    RunKeepsInv(states, steps, n);
    assert Monotone(states[n].emitted);
  }

  /** At most one task of a key has its flag set, and outside a start command it is the installed one. */
  lemma OneRunningTaskPerKey(states: seq<State>, steps: seq<Step>, n: nat, g: nat, h: nat)
    requires IsRun(states, steps) && n < |states|
    requires g in states[n].tasks && h in states[n].tasks && states[n].tasks[g].key == states[n].tasks[h].key
    requires states[n].tasks[g].running && states[n].tasks[h].running
    ensures g == h && (states[n].starting.None? ==> IsCurrent(states[n], g))
  {
    RunKeepsInv(states, steps, n);
  }

  /** Whatever a step publishes, the installed running generation of the key publishes it. */
  lemma OnlyTheInstalledPublish(s: State, step: Step)
    requires Enabled(s, step)
    ensures s.emitted <= Apply(s, step).emitted
    ensures forall k :: |s.emitted| <= k < |Apply(s, step).emitted| ==>
              var e := Apply(s, step).emitted[k];
              && step == Emit(e.generation) && e.key in s.entries && s.entries[e.key].generation == e.generation
              && s.tasks[e.generation].running && s.tasks[e.generation].phase == Reading(e.transport)
  {
  }

  /** Everything that was ever published was published by the generation that was installed and running
      for its key at that moment, from the transport it was reading. */
  lemma {:induction false} EveryPublicationWasCurrent(states: seq<State>, steps: seq<Step>, n: nat, k: nat)
    returns (i: nat)
    requires IsRun(states, steps) && n < |states| && k < |states[n].emitted|
    ensures i < n && |states[i].emitted| == k && steps[i] == Emit(states[n].emitted[k].generation)
    ensures var e := states[n].emitted[k];
            && IsCurrent(states[i], e.generation) && states[i].tasks[e.generation].key == e.key
            && states[i].tasks[e.generation].phase == Reading(e.transport)
  {
    assert Follows(states[n - 1], steps[n - 1], states[n - 1 + 1]);
    OnlyTheInstalledPublish(states[n - 1], steps[n - 1]);
    if k < |states[n - 1].emitted| {
      i := EveryPublicationWasCurrent(states, steps, n - 1, k);
    } else {
      i := n - 1;
    }
  }

  /** The step stops or replaces the subscription of this key, or is the exit of its own task. */
  predicate Ends(step: Step, key: Key, g: nat) {
    step.StopAll? || (step.Stop? && step.key == key) || (step.Start? && step.key == key) || step == CleanUp(g)
  }

  /** An entry stays in the table until its subscription is stopped or replaced or its own task exits:
      whatever older tasks of the key still do, they never remove it. */
  lemma {:induction false} EntryStays(states: seq<State>, steps: seq<Step>, i: nat, j: nat, key: Key)
    requires IsRun(states, steps) && i <= j < |states| && key in states[i].entries
    requires forall k :: i <= k < j ==> !Ends(steps[k], key, states[i].entries[key].generation)
    ensures key in states[j].entries && states[j].entries[key] == states[i].entries[key]
    decreases j
  {
    if i < j {
      EntryStays(states, steps, i, j - 1, key);
      RunKeepsInv(states, steps, j - 1);
      assert Follows(states[j - 1], steps[j - 1], states[j - 1 + 1]);
      assert !Ends(steps[j - 1], key, states[i].entries[key].generation);
    }
  }

  /** A task that cleans up last leaves no entry of its own behind. */
  lemma ExitRemovesOwnEntry(s: State, g: nat)
    requires TableOk(s) && Enabled(s, CleanUp(g))
    ensures !IsEntryOf(Apply(s, CleanUp(g)).entries, g) && !Apply(s, CleanUp(g)).tasks[g].running
  {
  }

  // ---------------------------------------------------------------- stopped is stopped

  ghost predicate Halted(s: State, g: nat) {
    g in s.tasks && !s.tasks[g].running
  }

  lemma HaltedStaysHalted(s: State, step: Step, g: nat)
    requires EntriesOk(s) && Enabled(s, step) && Halted(s, g)
    ensures Halted(Apply(s, step), g)
    ensures forall k :: |s.emitted| <= k < |Apply(s, step).emitted| ==> Apply(s, step).emitted[k].generation != g
  {
  }

  /** Once stopping, replacing or stopping all returns, no older task of the key has its flag set. */
  lemma StopHalts(s: State, step: Step, g: nat)
    requires TableOk(s) && Enabled(s, step) && g in s.tasks
    requires step.StopAll? || (step.Stop? && step.key == s.tasks[g].key)
             || (step.Start? && step.key == s.tasks[g].key && !AlreadyServed(s, step.key, step.target))
    ensures Halted(Apply(s, step), g)
  {
  }

  /** From then on such a task publishes nothing, whatever it still does and whoever starts again. */
  lemma {:induction false} HaltedNeverPublishes(states: seq<State>, steps: seq<Step>, i: nat, j: nat, g: nat)
    requires IsRun(states, steps) && i <= j < |states| && Halted(states[i], g)
    ensures Halted(states[j], g) && |states[i].emitted| <= |states[j].emitted|
    ensures forall k :: |states[i].emitted| <= k < |states[j].emitted| ==> states[j].emitted[k].generation != g
  {
    if i < j {
      HaltedNeverPublishes(states, steps, i, j - 1, g);
      RunKeepsInv(states, steps, j - 1);
      assert Follows(states[j - 1], steps[j - 1], states[j - 1 + 1]);
      HaltedStaysHalted(states[j - 1], steps[j - 1], g);
      OnlyTheInstalledPublish(states[j - 1], steps[j - 1]);
    }
  }

  /** After a stop, nothing is ever published by any task the key had until then. */
  lemma StoppedForever(states: seq<State>, steps: seq<Step>, i: nat, j: nat, g: nat)
    requires IsRun(states, steps) && i < j < |states| && g in states[i].tasks
    requires steps[i].StopAll? || (steps[i].Stop? && steps[i].key == states[i].tasks[g].key)
             || (steps[i].Start? && steps[i].key == states[i].tasks[g].key
                 && !AlreadyServed(states[i], steps[i].key, steps[i].target))
    ensures |states[i + 1].emitted| <= |states[j].emitted|
    ensures forall k :: |states[i + 1].emitted| <= k < |states[j].emitted| ==> states[j].emitted[k].generation != g
  {
    RunKeepsInv(states, steps, i);
    assert Follows(states[i], steps[i], states[i + 1]);
    StopHalts(states[i], steps[i], g);
    HaltedNeverPublishes(states, steps, i + 1, j, g);
  }

  // ---------------------------------------------------------------- the table object

  class SseProxyState {
    var connections: map<Key, Entry>
    var tasks: map<nat, Task>
    var starting: Option<Starting>
    var nextGeneration: nat
    var nextTransport: nat
    var emitted: seq<Emission>

    ghost function Now(): State reads this {
      State(connections, tasks, starting, nextGeneration, nextTransport, emitted)
    }

    constructor ()
      ensures Now() == AT_START
    {
      connections, tasks, starting, nextGeneration, nextTransport, emitted := map[], map[], None, 1, 1, [];
    }

    /** Clear the flag an entry shares with its task. */
    method StopTask(generation: nat)
      modifies this`tasks
      ensures tasks == Halt(old(tasks), generation)
    {
      if generation in tasks {
        tasks := tasks[generation := tasks[generation].(running := false)];
      }
    }

    method StopSseProxy(key: Key)
      requires starting.None?
      modifies this
      ensures Now() == Apply(old(Now()), Stop(key))
    {
      if key in connections {
        var entry := connections[key];
        connections := connections - {key};
        StopTask(entry.generation);
      }
    }

    /** The start command up to the point where its task is spawned. */
    method StartSseProxy(key: Key, target: Target) returns (served: bool)
      requires starting.None?
      modifies this
      ensures Now() == Apply(old(Now()), Start(key, target)) && served == AlreadyServed(old(Now()), key, target)
    {
      if key in connections {
        var g := connections[key].generation;
        if g in tasks && tasks[g].running && !tasks[g].phase.Finished? && connections[key].target == target {
          return true;
        }
      }
      StopSseProxy(key);
      var generation := nextGeneration;
      nextGeneration := nextGeneration + 1;
      tasks := tasks[generation := Task(key, true, Resolving)];
      starting := Some(Starting(key, generation, target));
      served := false;
    }

    method InstallEntry()
      requires starting.Some?
      modifies this
      ensures Now() == Apply(old(Now()), Install)
    {
      var p := starting.value;
      connections := connections[p.key := Entry(p.generation, p.target)];
      starting := None;
    }

    /** Entries are drained one by one, in any order. */
    method StopAllSseProxies()
      requires starting.None?
      modifies this`connections, this`tasks
      ensures Now() == Apply(old(Now()), StopAll)
    {
      ghost var before := Now();
      DrainEntries();
      HaltedOfAll(before);
    }

    method DrainEntries()
      modifies this`connections, this`tasks
      ensures connections == map[] && tasks == HaltedOf(old(tasks), old(connections), {})
    {
      ghost var all, were := connections, tasks;
      HaltedOfNone(were, all);
      while connections != map[]
        invariant connections.Keys <= all.Keys && forall key :: key in connections ==> connections[key] == all[key]
        invariant tasks == HaltedOf(were, all, connections.Keys)
        decreases |connections|
      {
        var key :| key in connections;
        HaltOneMore(were, all, connections.Keys, key);
        StopTask(connections[key].generation);
        connections := connections - {key};
      }
    }

    method EmitIfCurrent(generation: nat) returns (current: bool)
      requires starting.None? && generation in tasks && tasks[generation].phase.Reading?
      modifies this
      ensures Now() == Apply(old(Now()), Emit(generation)) && current == IsCurrent(old(Now()), generation)
    {
      var task := tasks[generation];
      if task.key in connections && connections[task.key].generation == generation && task.running {
        emitted := emitted + [Emission(task.key, generation, task.phase.transport)];
        return true;
      }
      tasks := tasks[generation := task.(phase := Leaving)];
      current := false;
    }

    method CleanUpTask(generation: nat)
      requires starting.None? && generation in tasks && tasks[generation].phase.Leaving?
      modifies this
      ensures Now() == Apply(old(Now()), CleanUp(generation))
    {
      var key := tasks[generation].key;
      if key in connections && connections[key].generation == generation {
        StopTask(generation);
        connections := connections - {key};
      }
      tasks := tasks[generation := tasks[generation].(phase := Finished)];
    }

    method OpenTransport(generation: nat) returns (transport: nat)
      requires generation in tasks && tasks[generation].phase.Resolving?
      modifies this
      ensures Now() == Apply(old(Now()), Connect(generation)) && transport == old(nextTransport)
    {
      transport := nextTransport;
      nextTransport := nextTransport + 1;
      tasks := tasks[generation := tasks[generation].(phase := Reading(transport))];
    }
  }

  /** The tasks once the entries outside `left` are stopped. */
  ghost function HaltedOf(tasks: map<nat, Task>, all: map<Key, Entry>, left: set<Key>): map<nat, Task> {
    map g | g in tasks ::
      if exists key :: key in all && key !in left && all[key].generation == g
      then tasks[g].(running := false) else tasks[g]
  }

  lemma HaltOneMore(tasks: map<nat, Task>, all: map<Key, Entry>, left: set<Key>, key: Key)
    requires key in left && key in all
    ensures HaltedOf(tasks, all, left - {key}) == Halt(HaltedOf(tasks, all, left), all[key].generation)
  {
  }

  lemma HaltedOfNone(tasks: map<nat, Task>, all: map<Key, Entry>)
    ensures HaltedOf(tasks, all, all.Keys) == tasks
  {
  }

  lemma HaltedOfAll(s: State)
    ensures HaltedOf(s.tasks, s.entries, {}) == AfterStopAll(s).tasks
  {
  }
}
