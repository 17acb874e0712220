/**
 The manager and all its loops as one interleaving state machine. A step is one uninterrupted piece of JavaScript: a
 manager call, the continuation of one loop after its await settled, the `finally` handler of a returned loop, or a
 change from outside (a new UTC day, the scheduler cancelling a stale paused task).
 */
module AutonomousWorld {
  import opened Common
  import opened PolicyEngine
  import opened AutonomousLoop

  type TaskId = string
  type LoopId = nat

  datatype ManagerConfig = ManagerConfig(policy: PolicyConfig, maxParallelTasks: nat)

  /** `loops` keeps every loop ever created under its creation number; `owner` says whose loop it is. `admitted` and
      `launched` only observe: the tasks accepted by startTask or restore and the tasks handed to runLoop, in order. */
  datatype World = World(
    tasks: map<TaskId, Task>,
    snapshots: map<TaskId, EngineState>,
    spent: real,
    moved: real,
    recorded: real,
    calls: map<TaskId, seq<int>>,
    loops: seq<Loop>,
    owner: seq<TaskId>,
    running: map<TaskId, LoopId>,
    completions: set<LoopId>,
    queue: seq<TaskId>,
    admitted: seq<TaskId>,
    launched: seq<TaskId>)

  datatype Event =
    | Start(task: TaskId, constraints: Constraints, at: int)
    | Pause(task: TaskId)
    | ResumeTask(task: TaskId, at: int)
    | Stop(task: TaskId)
    | StopAll
    | Continue(loop: LoopId, outcome: Outcome)
    | Settle(loop: LoopId, at: int)
    | NewDay
    | CancelStale(task: TaskId)

  // ---------------------------------------------------------------- what one loop sees

  function ViewOf(w: World, t: TaskId, l: Loop): View
    requires t in w.tasks
  {
    View(
      w.tasks[t],
      if t in w.snapshots then Some(w.snapshots[t]) else None,
      w.spent, w.moved, w.recorded,
      if t in w.calls then w.calls[t] else [],
      l)
  }

  /** Writes back what loop `l` of task `t` changed. */
  function Commit(w: World, t: TaskId, l: LoopId, v: View): World
    requires l < |w.loops|
  {
    w.(tasks := w.tasks[t := v.row],
       snapshots := if v.snapshot.Some? then w.snapshots[t := v.snapshot.value] else w.snapshots - {t},
       spent := v.spent, moved := v.moved, recorded := v.recorded,
       calls := w.calls[t := v.calls],
       loops := w.loops[l := v.loop])
  }

  // ---------------------------------------------------------------- manager

  function SetStatus(w: World, t: TaskId, s: Status): World {
    if t in w.tasks then w.(tasks := w.tasks[t := w.tasks[t].(status := s)]) else w
  }

  function AbortLoop(w: World, l: LoopId): World {
    if l < |w.loops| then w.(loops := w.loops[l := w.loops[l].(aborted := true)]) else w
  }

  /** Registers a fresh loop and runs it up to its first await. */
  function RunLoop(cfg: ManagerConfig, w: World, t: TaskId, at: int): World
    requires t in w.tasks
  {
    var l := |w.loops|;
    var w' := w.(
      loops := w.loops + [FreshLoop(w.tasks[t].step)],
      owner := w.owner + [t],
      running := w.running[t := l],
      completions := w.completions + {l},
      launched := w.launched + [t]);
    Commit(w', t, l, Begin(cfg.policy, ViewOf(w', t, w'.loops[l]), at))
  }

  function StartTask(cfg: ManagerConfig, w: World, t: TaskId, c: Constraints, at: int): World {
    var created := w.(tasks := w.tasks[t := Task(Pending, 0, c, None)], admitted := w.admitted + [t]);
    if |w.running| >= cfg.maxParallelTasks then SetStatus(created, t, Queued).(queue := w.queue + [t])
    else RunLoop(cfg, created, t, at)
  }

  /** Stops the registered loop of t, if any, and takes t off the waiting queue. */
  function Halt(w: World, t: TaskId): World {
    var halted := if t in w.running then AbortLoop(w, w.running[t]).(running := w.running - {t}) else w;
    halted.(queue := RemoveFirst(w.queue, t))
  }

  function PauseTask(w: World, t: TaskId): World {
    if t !in w.tasks then w else SetStatus(Halt(w, t), t, Paused)
  }

  function ResumePaused(cfg: ManagerConfig, w: World, t: TaskId, at: int): World {
    if t !in w.tasks || w.tasks[t].status != Paused then w else RunLoop(cfg, w, t, at)
  }

  function StopTask(w: World, t: TaskId): World { SetStatus(Halt(w, t), t, Cancelled) }

  /** stop() of the loops in a set. */
  function StopLoops(loops: seq<Loop>, ids: set<LoopId>): seq<Loop> {
    seq(|loops|, i requires 0 <= i < |loops| => if i in ids then loops[i].(aborted := true) else loops[i])
  }

  function StopAllTasks(w: World): World {
    w.(loops := StopLoops(w.loops, w.running.Values), running := map[], queue := [])
  }

  /** First half of the `finally` handler: the loop is deregistered if it is still the registered one. */
  function Deregister(w: World, l: LoopId): World
    requires l < |w.owner|
  {
    var t := w.owner[l];
    w.(running := if t in w.running && w.running[t] == l then w.running - {t} else w.running,
       completions := w.completions - {l})
  }

  /** The whole handler then starts the next waiting task. */
  function SettleLoop(cfg: ManagerConfig, w: World, l: LoopId, at: int): World
    requires l < |w.owner|
    requires forall t :: t in w.queue ==> t in w.tasks
  {
    var w' := Deregister(w, l);
    if w.queue == [] then w' else RunLoop(cfg, w'.(queue := w.queue[1..]), w.queue[0], at)
  }

  /** What restoreInterruptedTasks does with one active task: start it, park it, or leave it alone. */
  function RestoreOne(cfg: ManagerConfig, w: World, t: TaskId, at: int): World
    requires t in w.tasks
  {
    var a := w.(admitted := w.admitted + [t]);
    if w.tasks[t].status !in {Running, Pending, Queued} then w
    else if |w.running| >= cfg.maxParallelTasks then SetStatus(a, t, Queued).(queue := w.queue + [t])
    else RunLoop(cfg, a, t, at)
  }

  /** restoreInterruptedTasks over the active tasks in creation order. */
  function Restore(cfg: ManagerConfig, w: World, active: seq<TaskId>, at: int): World
    requires forall t :: t in active ==> t in w.tasks
    decreases |active|
  {
    if active == [] then w else Restore(cfg, RestoreOne(cfg, w, active[0], at), active[1..], at)
  }

  // ---------------------------------------------------------------- steps

  /** Task identifiers are fresh UUIDs; a loop continues only with an outcome of what it awaits; the `finally` handler
      runs once, after the loop has returned. */
  predicate Enabled(w: World, e: Event) {
    match e
    case Start(t, _, _) => t !in w.tasks
    case Continue(l, o) =>
      l < |w.loops| && l < |w.owner| && w.owner[l] in w.tasks && Awaits(w.loops[l].pc, o)
    case Settle(l, _) =>
      l < |w.loops| && l < |w.owner| && l in w.completions && w.loops[l].pc.Returned? &&
      (forall t :: t in w.queue ==> t in w.tasks)
    case _ => true
  }

  function Step(cfg: ManagerConfig, w: World, e: Event): World
    requires Enabled(w, e)
  {
    match e
    case Start(t, c, at) => StartTask(cfg, w, t, c, at)
    case Pause(t) => PauseTask(w, t)
    case ResumeTask(t, at) => ResumePaused(cfg, w, t, at)
    case Stop(t) => StopTask(w, t)
    case StopAll => StopAllTasks(w)
    case Continue(l, o) =>
      Commit(w, w.owner[l], l, Segment(cfg.policy, ViewOf(w, w.owner[l], Counted(w.loops[l])), o))
    case Settle(l, at) => SettleLoop(cfg, w, l, at)
    case NewDay => w.(spent := 0.0)
    case CancelStale(t) => if t in w.tasks && w.tasks[t].status == Paused then SetStatus(w, t, Cancelled) else w
  }

  /** A fresh process over an arbitrary store. */
  predicate IsInitial(w: World) {
    && w.loops == [] && w.owner == [] && w.running == map[] && w.completions == {} && w.queue == []
    && w.admitted == [] && w.launched == []
  }

  /** w' is reached from w by the events, each enabled when it happens. */
  ghost predicate Reaches(cfg: ManagerConfig, w: World, events: seq<Event>, w': World)
    decreases |events|
  {
    if events == [] then w == w'
    else Enabled(w, events[0]) && Reaches(cfg, Step(cfg, w, events[0]), events[1..], w')
  }
}
