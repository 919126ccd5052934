/**
 * `RegisteredSpawner`: the master's record of one spawner (a machine that
 * starts game-server processes). Spawn tasks wait in a FIFO queue; at most
 * `MaxConcurrentRequests` tasks may be "being spawned" at once, and that set
 * holds a task from the moment it is queued; the spawner reports how many
 * processes it runs.
 *
 * The spawner's connection state and a task's `IsDoneStartingProcess` are
 * parameters of `UpdateQueue`; the request sent to the spawner is recorded
 * in `sent`, and `task.Kill()` on a failed response in `killed`.
 */
module Spawners {
  import opened Common

  const MaxConcurrentRequests: nat := 8

  datatype SpawnTask = SpawnTask(spawnId: int, uniqueCode: string, customArgs: string, properties: map<string, string>)

  /** `SpawnRequestPacket`: what the spawner is sent for a dispatched task. */
  datatype SpawnRequestPacket = SpawnRequestPacket(spawnerId: int, customArgs: string, properties: map<string, string>, spawnId: int, spawnCode: string)

  function RequestFor(spawnerId: int, t: SpawnTask): (p: SpawnRequestPacket)
    ensures p.spawnerId == spawnerId && p.spawnId == t.spawnId && p.spawnCode == t.uniqueCode
    ensures p.customArgs == t.customArgs && p.properties == t.properties
  {
    SpawnRequestPacket(spawnerId, t.customArgs, t.properties, t.spawnId, t.uniqueCode)
  }

  datatype Spawner = Spawner(
    spawnerId: int,
    maxProcesses: int,
    queue: seq<SpawnTask>,
    beingSpawned: set<SpawnTask>,
    processesRunning: int,
    sent: seq<SpawnTask>,
    killed: seq<SpawnTask>)

  function NewSpawner(spawnerId: int, maxProcesses: int): Spawner {
    Spawner(spawnerId, maxProcesses, [], {}, 0, [], [])
  }

  /** `CalculateFreeSlotsCount`: not clamped, so it can be negative or exceed `MaxProcesses`. */
  function FreeSlots(s: Spawner): int {
    s.maxProcesses - |s.queue| - s.processesRunning
  }

  /** `CanSpawnAnotherProcess`: `MaxProcesses = 0` means unbounded; otherwise a free slot is needed. */
  function CanSpawn(s: Spawner): (r: bool)
    ensures r <==> s.maxProcesses == 0 || FreeSlots(s) > 0
  {
    s.maxProcesses == 0 || |s.queue| + s.processesRunning < s.maxProcesses
  }

  /** `AddTaskToQueue`. */
  function Enqueue(s: Spawner, t: SpawnTask): Spawner {
    s.(beingSpawned := s.beingSpawned + {t}, queue := s.queue + [t])
  }

  /** The being-spawned set after the pruning step of `UpdateQueue`, which only runs at the cap. */
  function PruneAtCap(being: set<SpawnTask>, isDone: SpawnTask -> bool): set<SpawnTask> {
    if |being| >= MaxConcurrentRequests then set t | t in being && !isDone(t) else being
  }

  /** `UpdateQueue`: the new state and the task whose request was sent, if any. */
  function Dispatch(s: Spawner, connected: bool, isDone: SpawnTask -> bool): (Spawner, Option<SpawnTask>) {
    if !connected || |s.queue| == 0 then (s, None)
    else
      var being := PruneAtCap(s.beingSpawned, isDone);
      if |being| >= MaxConcurrentRequests then (s.(beingSpawned := being), None)
      else (s.(beingSpawned := being, queue := s.queue[1..], sent := s.sent + [s.queue[0]]), Some(s.queue[0]))
  }

  /** The response callback of a dispatched request: any status but success kills the task. */
  function Respond(s: Spawner, task: SpawnTask, success: bool): Spawner {
    if success then s else s.(killed := s.killed + [task])
  }

  function ProcessStarted(s: Spawner): Spawner {
    s.(processesRunning := s.processesRunning + 1)
  }

  function ProcessKilled(s: Spawner): Spawner {
    s.(processesRunning := s.processesRunning - 1)
  }

  function ProcessCount(s: Spawner, value: int): Spawner {
    s.(processesRunning := value)
  }

  // ---------------------------------------------------------------------
  // One call.
  // ---------------------------------------------------------------------

  /** Nothing happens while the spawner is disconnected or nothing is queued. */
  lemma DispatchIdle(s: Spawner, connected: bool, isDone: SpawnTask -> bool)
    requires !connected || s.queue == []
    ensures Dispatch(s, connected, isDone) == (s, None)
  {
  }

  /**
   * A call sends at most one request, always for the head of the queue,
   * exactly when fewer than `MaxConcurrentRequests` tasks remain being
   * spawned after pruning; the sent task is not removed from that set.
   */
  lemma DispatchHead(s: Spawner, connected: bool, isDone: SpawnTask -> bool)
    ensures var (s', sent) := Dispatch(s, connected, isDone);
      && (sent.Some? <==> connected && s.queue != [] && |PruneAtCap(s.beingSpawned, isDone)| < MaxConcurrentRequests)
      && (sent.Some? ==>
            && sent.value == s.queue[0] && s'.queue == s.queue[1..] && s'.sent == s.sent + [sent.value]
            && s'.beingSpawned == PruneAtCap(s.beingSpawned, isDone) && |s'.beingSpawned| < MaxConcurrentRequests)
      && (sent.None? ==> s'.queue == s.queue && s'.sent == s.sent)
      && s'.beingSpawned <= s.beingSpawned
      && s'.processesRunning == s.processesRunning && s'.killed == s.killed
  {
  }

  /**
   * Queued tasks count against the cap: with `MaxConcurrentRequests` tasks
   * queued and none done, `UpdateQueue` sends nothing and changes nothing.
   */
  lemma {:induction false} QueuedTasksFillCap(spawnerId: int, maxProcesses: int, tasks: seq<SpawnTask>, isDone: SpawnTask -> bool)
    requires |tasks| == MaxConcurrentRequests
    requires forall i, j :: 0 <= i < j < |tasks| ==> tasks[i] != tasks[j]
    requires forall i :: 0 <= i < |tasks| ==> !isDone(tasks[i])
    ensures var s := EnqueueAll(NewSpawner(spawnerId, maxProcesses), tasks);
      Dispatch(s, true, isDone) == (s, None)
  {
    var s := EnqueueAll(NewSpawner(spawnerId, maxProcesses), tasks);
    EnqueueAllAdds(NewSpawner(spawnerId, maxProcesses), tasks);
    DistinctCard(tasks);
    assert PruneAtCap(s.beingSpawned, isDone) == s.beingSpawned;
  }

  function EnqueueAll(s: Spawner, tasks: seq<SpawnTask>): Spawner
    decreases |tasks|
  {
    if tasks == [] then s else EnqueueAll(Enqueue(s, tasks[0]), tasks[1..])
  }

  lemma {:induction false} EnqueueAllAdds(s: Spawner, tasks: seq<SpawnTask>)
    ensures EnqueueAll(s, tasks).beingSpawned == s.beingSpawned + set t | t in tasks
    ensures EnqueueAll(s, tasks).queue == s.queue + tasks
    decreases |tasks|
  {
    if tasks != [] {
      EnqueueAllAdds(Enqueue(s, tasks[0]), tasks[1..]);
      assert (set t | t in tasks) == {tasks[0]} + set t | t in tasks[1..];
      assert s.queue + [tasks[0]] + tasks[1..] == s.queue + tasks;
    }
  }

  lemma {:induction false} DistinctCard(tasks: seq<SpawnTask>)
    requires forall i, j :: 0 <= i < j < |tasks| ==> tasks[i] != tasks[j]
    ensures |set t | t in tasks| == |tasks|
    decreases |tasks|
  {
    if tasks != [] {
      DistinctCard(tasks[1..]);
      assert (set t | t in tasks) == {tasks[0]} + set t | t in tasks[1..];
      assert tasks[0] !in set t | t in tasks[1..];
    }
  }

  /** The running count has no floor: killing with nothing running goes negative and frees a slot. */
  lemma KillWithNothingRunning(s: Spawner)
    requires s.processesRunning == 0
    ensures ProcessKilled(s).processesRunning == -1
    ensures FreeSlots(ProcessKilled(s)) == FreeSlots(s) + 1
  {
  }

  // ---------------------------------------------------------------------
  // Runs of several operations.
  // ---------------------------------------------------------------------

  datatype SpawnerOp =
    | AddOp(task: SpawnTask)
    | UpdateOp(connected: bool, isDone: SpawnTask -> bool)
    | ResponseOp(task: SpawnTask, success: bool)
    | StartedOp
    | KilledOp
    | CountOp(value: int)

  function Apply(s: Spawner, op: SpawnerOp): Spawner {
    match op
    case AddOp(t) => Enqueue(s, t)
    case UpdateOp(connected, isDone) => Dispatch(s, connected, isDone).0
    case ResponseOp(t, success) => Respond(s, t, success)
    case StartedOp => ProcessStarted(s)
    case KilledOp => ProcessKilled(s)
    case CountOp(v) => ProcessCount(s, v)
  }

  function Run(s: Spawner, ops: seq<SpawnerOp>): Spawner
    decreases |ops|
  {
    if ops == [] then s else Run(Apply(s, ops[0]), ops[1..])
  }

  /** The tasks a run queues, in order. */
  function Queued(ops: seq<SpawnerOp>): seq<SpawnTask> {
    if ops == [] then [] else (if ops[0].AddOp? then [ops[0].task] else []) + Queued(ops[1..])
  }

  /** The net change of the running count over a run without overwrites. */
  function NetStarted(ops: seq<SpawnerOp>): int {
    if ops == [] then 0
    else (if ops[0].StartedOp? then 1 else if ops[0].KilledOp? then -1 else 0) + NetStarted(ops[1..])
  }

  /**
   * FIFO: over any run, the tasks sent plus the tasks still queued are the
   * tasks sent and queued before, followed by the tasks queued during the
   * run, in order; so requests go out in the order tasks were queued.
   */
  lemma {:induction false} RunIsFifo(s: Spawner, ops: seq<SpawnerOp>)
    ensures Run(s, ops).sent + Run(s, ops).queue == s.sent + s.queue + Queued(ops)
    decreases |ops|
  {
    if ops != [] {
      var s' := Apply(s, ops[0]);
      assert s'.sent + s'.queue == s.sent + s.queue + (if ops[0].AddOp? then [ops[0].task] else []) by {
        if ops[0].UpdateOp? && Dispatch(s, ops[0].connected, ops[0].isDone).1.Some? {
          assert s.queue == [s.queue[0]] + s.queue[1..];
        }
      }
      RunIsFifo(s', ops[1..]);
    }
  }

  /** Without `UpdateProcessesCount`, the running count moves by exactly one per started or killed report. */
  lemma {:induction false} RunCountsProcesses(s: Spawner, ops: seq<SpawnerOp>)
    requires forall i :: 0 <= i < |ops| ==> !ops[i].CountOp?
    ensures Run(s, ops).processesRunning == s.processesRunning + NetStarted(ops)
    decreases |ops|
  {
    if ops != [] {
      RunCountsProcesses(Apply(s, ops[0]), ops[1..]);
    }
  }

  // ---------------------------------------------------------------------
  // The spawner object.
  // ---------------------------------------------------------------------

  class RegisteredSpawner {
    const spawnerId: int
    /** `Options.MaxProcesses`. */
    const maxProcesses: int
    var queue: seq<SpawnTask>
    var beingSpawned: set<SpawnTask>
    var processesRunning: int
    var sent: seq<SpawnTask>
    var killed: seq<SpawnTask>

    function Model(): Spawner
      reads this
    {
      Spawner(spawnerId, maxProcesses, queue, beingSpawned, processesRunning, sent, killed)
    }

    constructor (spawnerId: int, maxProcesses: int)
      ensures Model() == NewSpawner(spawnerId, maxProcesses)
    {
      this.spawnerId := spawnerId;
      this.maxProcesses := maxProcesses;
      queue := [];
      beingSpawned := {};
      processesRunning := 0;
      sent := [];
      killed := [];
    }

    function CalculateFreeSlotsCount(): (n: int)
      reads this
      ensures n == FreeSlots(Model())
    {
      maxProcesses - |queue| - processesRunning
    }

    function CanSpawnAnotherProcess(): (r: bool)
      reads this
      ensures r <==> maxProcesses == 0 || CalculateFreeSlotsCount() > 0
    {
      maxProcesses == 0 || |queue| + processesRunning < maxProcesses
    }

    method AddTaskToQueue(task: SpawnTask)
      modifies this
      ensures Model() == Enqueue(old(Model()), task)
    {
      beingSpawned := beingSpawned + {task};
      queue := queue + [task];
    }

    method UpdateQueue(connected: bool, isDone: SpawnTask -> bool) returns (request: Option<SpawnRequestPacket>)
      modifies this
      ensures var (s', task) := Dispatch(old(Model()), connected, isDone);
        Model() == s' && request == (if task.Some? then Some(RequestFor(spawnerId, task.value)) else None)
    {
      if !connected {
        return None;
      }
      if |queue| == 0 {
        return None;
      }
      if |beingSpawned| >= MaxConcurrentRequests {
        var finishedSpawns := set t | t in beingSpawned && isDone(t);
        var rest := finishedSpawns;
        while rest != {}
          invariant rest <= finishedSpawns
          invariant beingSpawned == old(beingSpawned) - (finishedSpawns - rest)
          invariant Model() == old(Model()).(beingSpawned := beingSpawned)
          decreases rest
        {
          var t :| t in rest;
          beingSpawned := beingSpawned - {t};
          rest := rest - {t};
        }
        assert beingSpawned == PruneAtCap(old(beingSpawned), isDone);
      }
      if |beingSpawned| >= MaxConcurrentRequests {
        return None;
      }
      var task := queue[0];
      queue := queue[1..];
      sent := sent + [task];
      request := Some(RequestFor(spawnerId, task));
    }

    /** The response callback of the request sent for `task`. */
    method OnSpawnResponse(task: SpawnTask, success: bool)
      modifies this
      ensures Model() == Respond(old(Model()), task, success)
    {
      if !success {
        killed := killed + [task];
      }
    }

    method UpdateProcessesCount(value: int)
      modifies this
      ensures Model() == ProcessCount(old(Model()), value)
    {
      processesRunning := value;
    }

    method OnProcessKilled()
      modifies this
      ensures Model() == ProcessKilled(old(Model()))
    {
      processesRunning := processesRunning - 1;
    }

    method OnProcessStarted()
      modifies this
      ensures Model() == ProcessStarted(old(Model()))
    {
      processesRunning := processesRunning + 1;
    }
  }
}
