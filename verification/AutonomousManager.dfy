/** The manager object: its three registers, the store it writes to and the table of loops, updated in place and proved
    to compute the steps of AutonomousWorld. */
module AutonomousManager {
  import opened Common
  import opened PolicyEngine
  import opened AutonomousLoop
  import opened AutonomousWorld
  import opened AutonomousInvariant

  lemma StopOneMore(loops: seq<Loop>, ids: set<LoopId>, l: LoopId)
    requires l < |loops|
    ensures StopLoops(loops, ids + {l}) == StopLoops(loops, ids)[l := StopLoops(loops, ids)[l].(aborted := true)]
  {
  }

  lemma RegisteredLoopsExist(w: World)
    requires Scheduled(w)
    ensures forall l :: l in w.running.Values ==> l < |w.loops|
  {
    forall l | l in w.running.Values
      ensures l < |w.loops|
    {
      var t :| t in w.running && w.running[t] == l;
      assert EntryOk(w, t);
    }
  }

  class AutonomousTaskManager {
    const config: ManagerConfig
    var runningLoops: map<TaskId, LoopId>
    var loopCompletions: set<LoopId>
    var taskQueue: seq<TaskId>
    // the store
    var tasks: map<TaskId, Task>
    var snapshots: map<TaskId, EngineState>
    var spent: real
    // every loop ever created, and its task
    var loops: seq<Loop>
    var owner: seq<TaskId>
    // observations
    var moved: real
    var recorded: real
    var calls: map<TaskId, seq<int>>
    var admitted: seq<TaskId>
    var launched: seq<TaskId>

    function Contents(): World
      reads this
    {
      World(tasks, snapshots, spent, moved, recorded, calls, loops, owner, runningLoops, loopCompletions, taskQueue,
            admitted, launched)
    }

    ghost predicate Valid()
      reads this
    {
      Scheduled(Contents())
    }

    constructor (config: ManagerConfig, tasks: map<TaskId, Task>, snapshots: map<TaskId, EngineState>, spent: real)
      ensures this.config == config && Valid() && IsInitial(Contents())
      ensures this.tasks == tasks && this.snapshots == snapshots && this.spent == spent
    {
      this.config, this.tasks, this.snapshots, this.spent := config, tasks, snapshots, spent;
      runningLoops, loopCompletions, taskQueue, loops, owner := map[], {}, [], [], [];
      moved, recorded, calls, admitted, launched := 0.0, 0.0, map[], [], [];
    }

    method UpdateTaskStatus(t: TaskId, status: Status) returns (r: Option<Task>)
      modifies this`tasks
      ensures Contents() == SetStatus(old(Contents()), t, status)
      ensures r == if t in tasks then Some(tasks[t]) else None
    {
      if t !in tasks {
        return None;
      }
      tasks := tasks[t := tasks[t].(status := status)];
      return Some(tasks[t]);
    }

    method RunLoop(t: TaskId, at: int)
      requires t in tasks && |owner| == |loops|
      modifies this
      ensures Contents() == AutonomousWorld.RunLoop(config, old(Contents()), t, at)
    {
      hide Begin;
      var l := |loops|;
      loops, owner := loops + [FreshLoop(tasks[t].step)], owner + [t];
      runningLoops := runningLoops[t := l];
      loopCompletions := loopCompletions + {l};
      launched := launched + [t];
      var v := Begin(config.policy, ViewOf(Contents(), t, loops[l]), at);
      Write(t, l, v);
    }

    /** Stores what loop l of task t changed. */
    method Write(t: TaskId, l: LoopId, v: View)
      requires l < |loops|
      modifies this`tasks, this`snapshots, this`spent, this`moved, this`recorded, this`calls, this`loops
      ensures Contents() == Commit(old(Contents()), t, l, v)
    {
      tasks := tasks[t := v.row];
      snapshots := if v.snapshot.Some? then snapshots[t := v.snapshot.value] else snapshots - {t};
      spent, moved, recorded := v.spent, v.moved, v.recorded;
      calls := calls[t := v.calls];
      loops := loops[l := v.loop];
    }

    method StartTask(t: TaskId, constraints: Constraints, at: int) returns (created: Task)
      requires Valid() && t !in tasks
      modifies this
      ensures Valid() && Contents() == Step(config, old(Contents()), Start(t, constraints, at))
      ensures created.status == if |old(runningLoops)| >= config.maxParallelTasks then Queued else Pending
    {
      StartKeeps(config, Contents(), t, constraints, at);
      created := Task(Pending, 0, constraints, None);
      tasks := tasks[t := created];
      admitted := admitted + [t];
      if |runningLoops| >= config.maxParallelTasks {
        var queued := UpdateTaskStatus(t, Queued);
        taskQueue := taskQueue + [t];
        return queued.GetOr(created);
      }
      RunLoop(t, at);
    }

    /** stop() of the registered loop, and out of both registers. */
    method Halt(t: TaskId)
      requires Valid()
      modifies this`loops, this`runningLoops, this`taskQueue
      ensures Contents() == AutonomousWorld.Halt(old(Contents()), t)
    {
      if t in runningLoops {
        var l := runningLoops[t];
        assert EntryOk(Contents(), t);
        loops := loops[l := loops[l].(aborted := true)];
        runningLoops := runningLoops - {t};
      }
      var qi := IndexOf(taskQueue, t);
      if qi != -1 {
        taskQueue := taskQueue[..qi] + taskQueue[qi + 1..];
      }
    }

    method PauseTask(t: TaskId) returns (r: Option<Task>)
      requires Valid()
      modifies this
      ensures Valid() && Contents() == Step(config, old(Contents()), Pause(t))
      ensures r.Some? <==> t in old(tasks)
      ensures r.Some? ==> r.value.status == Paused
    {
      StepKeepsSchedule(config, Contents(), Pause(t));
      if t !in tasks {
        return None;
      }
      Halt(t);
      r := UpdateTaskStatus(t, Paused);
    }

    method ResumeTask(t: TaskId, at: int) returns (r: Option<Task>)
      requires Valid()
      modifies this
      ensures Valid() && Contents() == Step(config, old(Contents()), Event.ResumeTask(t, at))
      ensures r == if t in tasks then Some(tasks[t]) else None
    {
      StepKeepsSchedule(config, Contents(), Event.ResumeTask(t, at));
      if t !in tasks {
        return None;
      }
      if tasks[t].status == Paused {
        RunLoop(t, at);
      }
      return Some(tasks[t]);
    }

    method StopTask(t: TaskId) returns (r: Option<Task>)
      requires Valid()
      modifies this
      ensures Valid() && Contents() == Step(config, old(Contents()), Stop(t))
      ensures r.Some? <==> t in old(tasks)
    {
      StepKeepsSchedule(config, Contents(), Stop(t));
      Halt(t);
      r := UpdateTaskStatus(t, Cancelled);
    }

    method StopEach(ids: set<LoopId>)
      requires forall l :: l in ids ==> l < |loops|
      modifies this`loops
      ensures loops == StopLoops(old(loops), ids)
    {
      var rest := ids;
      assert loops == StopLoops(old(loops), ids - rest);
      while rest != {}
        invariant rest <= ids
        invariant loops == StopLoops(old(loops), ids - rest)
        decreases rest
      {
        var l :| l in rest;
        assert ids - (rest - {l}) == (ids - rest) + {l};
        StopOneMore(old(loops), ids - rest, l);
        loops := loops[l := loops[l].(aborted := true)];
        rest := rest - {l};
      }
      assert ids - rest == ids;
    }

    method StopAll()
      requires Valid()
      modifies this
      ensures Valid() && Contents() == Step(config, old(Contents()), Event.StopAll)
    {
      hide Scheduled, StopLoops;
      StopAllKeeps(Contents());
      RegisteredLoopsExist(Contents());
      StopEach(runningLoops.Values);
      runningLoops := map[];
      taskQueue := [];
    }

    /** The continuation of a loop whose awaited dependency has settled. */
    method ContinueLoop(l: LoopId, o: Outcome)
      requires Valid() && Enabled(Contents(), Continue(l, o))
      modifies this
      ensures Valid() && Contents() == Step(config, old(Contents()), Continue(l, o))
    {
      StepKeepsSchedule(config, Contents(), Continue(l, o));
      Write(owner[l], l, Segment(config.policy, ViewOf(Contents(), owner[l], Counted(loops[l])), o));
    }

    /** Only the registered loop deregisters itself. */
    method DeregisterLoop(l: LoopId)
      requires l < |owner|
      modifies this`runningLoops, this`loopCompletions
      ensures Contents() == Deregister(old(Contents()), l)
    {
      var t := owner[l];
      if t in runningLoops && runningLoops[t] == l {
        runningLoops := runningLoops - {t};
      }
      loopCompletions := loopCompletions - {l};
    }

    /** The `finally` handler of a returned loop. */
    method Finally(l: LoopId, at: int)
      requires Valid() && Enabled(Contents(), Settle(l, at))
      modifies this
      ensures Valid() && Contents() == Step(config, old(Contents()), Settle(l, at))
    {
      StepKeepsSchedule(config, Contents(), Settle(l, at));
      DeregisterLoop(l);
      if taskQueue != [] {
        var next := taskQueue[0];
        taskQueue := taskQueue[1..];
        RunLoop(next, at);
      }
    }

    method RestoreTask(t: TaskId, at: int) returns (restored: bool)
      requires t in tasks && |owner| == |loops|
      modifies this
      ensures Contents() == RestoreOne(config, old(Contents()), t, at)
      ensures |owner| == |loops| && restored == (|admitted| > |old(admitted)|)
      ensures |admitted| <= |old(admitted)| + 1
    {
      restored := tasks[t].status == Running || tasks[t].status == Pending || tasks[t].status == Queued;
      if restored {
        admitted := admitted + [t];
        if |runningLoops| >= config.maxParallelTasks {
          var _ := UpdateTaskStatus(t, Queued);
          taskQueue := taskQueue + [t];
        } else {
          RunLoop(t, at);
        }
      }
    }

    /** The active tasks are given in the order of their creation. */
    method RestoreInterruptedTasks(active: seq<TaskId>, at: int) returns (restored: nat)
      requires Valid() && IsInitial(Contents()) && Distinct(active) && forall t :: t in active ==> t in tasks
      modifies this
      ensures Valid() && Contents() == Restore(config, old(Contents()), active, at)
      ensures restored == |admitted|
    {
      RestoreKeeps(config, Contents(), active, at);
      ghost var w := Contents();
      restored := 0;
      var i := 0;
      while i < |active|
        invariant 0 <= i <= |active|
        invariant forall t :: t in active ==> t in tasks
        invariant |owner| == |loops|
        invariant Restore(config, Contents(), active[i..], at) == Restore(config, w, active, at)
        invariant restored == |admitted|
      {
        var t := active[i];
        assert active[i..][0] == t && active[i..][1..] == active[i + 1..];
        var one := RestoreTask(t, at);
        restored := restored + if one then 1 else 0;
        i := i + 1;
      }
    }
  }
}
