/** What every step of the autonomous engine keeps, and what follows for every run. */
module AutonomousInvariant {
  import opened Common
  import opened PolicyEngine
  import opened AutonomousLoop
  import opened AutonomousWorld

  ghost predicate LoopOk(w: World, l: LoopId)
    requires l < |w.loops| == |w.owner|
  {
    && w.owner[l] in w.tasks
    && w.owner[l] !in w.queue
    && (!w.loops[l].pc.Returned? ==> l in w.completions)
    && (IsLive(w.loops[l]) ==>
          && w.owner[l] in w.running && w.running[w.owner[l]] == l
          && w.tasks[w.owner[l]].status in {Running, Failed})
  }

  ghost predicate EntryOk(w: World, t: TaskId)
    requires |w.loops| == |w.owner| && t in w.running
  {
    var l := w.running[t];
    && t in w.tasks
    && l < |w.loops| && w.owner[l] == t && l in w.completions && !w.loops[l].aborted
  }

  ghost predicate WaitingOk(w: World, t: TaskId) { t in w.tasks && w.tasks[t].status == Queued }

  /** The scheduler's bookkeeping: every live loop is the registered one of its task and that task is running (or was
      failed by a stopped loop); registered loops are not stopped and still have their completion pending; waiting
      tasks are distinct, queued and have no loop at all. */
  ghost predicate Scheduled(w: World) {
    && |w.loops| == |w.owner|
    && (forall l :: 0 <= l < |w.loops| ==> LoopOk(w, l))
    && (forall t :: t in w.running ==> EntryOk(w, t))
    && (forall l :: l in w.completions ==> l < |w.loops|)
    && Distinct(w.queue)
    && (forall t :: t in w.queue ==> WaitingOk(w, t))
  }

  /** A waiting task has a pending completion that will drain it. */
  ghost predicate Drainable(w: World) { w.queue != [] ==> w.completions != {} }

  ghost predicate NoLiveLoop(w: World, t: TaskId)
    requires |w.loops| == |w.owner|
  {
    forall l :: 0 <= l < |w.loops| && w.owner[l] == t ==> !IsLive(w.loops[l])
  }

  // ---------------------------------------------------------------- single steps

  lemma RunLoopKeeps(cfg: ManagerConfig, w: World, t: TaskId, at: int)
    requires Scheduled(w) && t in w.tasks && t !in w.queue && NoLiveLoop(w, t)
    ensures Scheduled(RunLoop(cfg, w, t, at))
    ensures RunLoop(cfg, w, t, at).completions != {}
  {
    var w' := RunLoop(cfg, w, t, at);
    var n := |w.loops|;
    var start := w.(loops := w.loops + [FreshLoop(w.tasks[t].step)], owner := w.owner + [t],
                    running := w.running[t := n], completions := w.completions + {n}, launched := w.launched + [t]);
    BeginAccounts(cfg.policy, ViewOf(start, t, start.loops[n]), at);
    assert n in w'.completions;
    forall l | 0 <= l < |w'.loops|
      ensures LoopOk(w', l)
    {
      if l < n {
        assert LoopOk(w, l);
        assert w'.loops[l] == w.loops[l] && w'.owner[l] == w.owner[l];
      }
    }
    forall u | u in w'.running
      ensures EntryOk(w', u)
    {
      if u != t { assert EntryOk(w, u); }
    }
    forall u | u in w'.queue
      ensures WaitingOk(w', u)
    {
      assert WaitingOk(w, u);
    }
  }

  /** Everything the scheduler looks at is unchanged, except statuses of tasks that neither run nor wait. */
  lemma SameSchedule(w: World, w': World)
    requires Scheduled(w)
    requires w'.loops == w.loops && w'.owner == w.owner && w'.running == w.running
    requires w'.completions == w.completions && w'.queue == w.queue
    requires forall t :: t in w.tasks ==>
                           t in w'.tasks &&
                           (w'.tasks[t].status == w.tasks[t].status || (NoLiveLoop(w, t) && t !in w.queue))
    ensures Scheduled(w')
  {
    forall l | 0 <= l < |w'.loops|
      ensures LoopOk(w', l)
    {
      assert LoopOk(w, l);
    }
    forall u | u in w'.running
      ensures EntryOk(w', u)
    {
      assert EntryOk(w, u);
    }
    forall u | u in w'.queue
      ensures WaitingOk(w', u)
    {
      assert WaitingOk(w, u);
    }
  }

  lemma AbortKeeps(w: World, t: TaskId)
    requires Scheduled(w) && t in w.running
    ensures var w' := AbortLoop(w, w.running[t]).(running := w.running - {t});
            Scheduled(w') && NoLiveLoop(w', t)
  {
    assert EntryOk(w, t);
    var w' := AbortLoop(w, w.running[t]).(running := w.running - {t});
    forall l | 0 <= l < |w'.loops|
      ensures LoopOk(w', l)
      ensures w'.owner[l] == t ==> !IsLive(w'.loops[l])
    {
      assert LoopOk(w, l);
    }
    forall u | u in w'.running
      ensures EntryOk(w', u)
    {
      assert EntryOk(w, u);
    }
    forall u | u in w'.queue
      ensures WaitingOk(w', u)
    {
      assert WaitingOk(w, u);
    }
  }

  lemma NoEntryNoLiveLoop(w: World, t: TaskId)
    requires Scheduled(w) && t !in w.running
    ensures NoLiveLoop(w, t)
  {
    forall l | 0 <= l < |w.loops| && w.owner[l] == t
      ensures !IsLive(w.loops[l])
    {
      assert LoopOk(w, l);
    }
  }

  lemma UnqueueKeeps(w: World, t: TaskId)
    requires Scheduled(w)
    ensures Scheduled(w.(queue := RemoveFirst(w.queue, t))) && t !in RemoveFirst(w.queue, t)
  {
    RemoveFirstKeeps(w.queue, t);
    var w' := w.(queue := RemoveFirst(w.queue, t));
    forall l | 0 <= l < |w'.loops|
      ensures LoopOk(w', l)
    {
      assert LoopOk(w, l);
    }
    forall u | u in w'.running
      ensures EntryOk(w', u)
    {
      assert EntryOk(w, u);
    }
    forall u | u in w'.queue
      ensures WaitingOk(w', u)
    {
      assert WaitingOk(w, u);
    }
  }

  /** Halting removes the task from the queue and leaves it without a live loop. */
  lemma HaltKeeps(w: World, t: TaskId)
    requires Scheduled(w)
    ensures Scheduled(Halt(w, t)) && t !in Halt(w, t).queue && NoLiveLoop(Halt(w, t), t)
  {
    if t in w.running {
      AbortKeeps(w, t);
      UnqueueKeeps(AbortLoop(w, w.running[t]).(running := w.running - {t}), t);
    } else {
      NoEntryNoLiveLoop(w, t);
      UnqueueKeeps(w, t);
    }
  }

  lemma StopAllKeeps(w: World)
    requires Scheduled(w)
    ensures Scheduled(StopAllTasks(w))
  {
    var w' := StopAllTasks(w);
    forall l | 0 <= l < |w'.loops|
      ensures LoopOk(w', l)
    {
      assert LoopOk(w, l);
    }
  }

  /** A loop that continues changes nothing the scheduler relies on. */
  lemma ContinueKeeps(cfg: ManagerConfig, w: World, l: LoopId, o: Outcome)
    requires Scheduled(w) && Enabled(w, Continue(l, o))
    ensures Scheduled(Step(cfg, w, Continue(l, o)))
  {
    var t := w.owner[l];
    var v := ViewOf(w, t, Counted(w.loops[l]));
    var w' := Step(cfg, w, Continue(l, o));
    assert LoopOk(w, l);
    if IsExternalTerminal(v.row.status) {
      StatusProtected(cfg.policy, v, o);
    }
    if v.loop.aborted {
      StoppedLoopWrites(cfg.policy, v, o);
    } else {
      GoingOnMeansRunning(cfg.policy, v, o);
    }
    AbortFlagFixed(cfg.policy, v, o);
    forall k | 0 <= k < |w'.loops|
      ensures LoopOk(w', k)
    {
      assert LoopOk(w, k);
    }
    forall u | u in w'.running
      ensures EntryOk(w', u)
    {
      assert EntryOk(w, u);
    }
    forall u | u in w'.queue
      ensures WaitingOk(w', u)
    {
      assert WaitingOk(w, u);
    }
  }

  lemma AbortFlagFixed(cfg: PolicyConfig, v: View, o: Outcome)
    requires Awaits(v.loop.pc, o)
    ensures Segment(cfg, v, o).loop.aborted == v.loop.aborted
  {
  }

  lemma DeregisterKeeps(w: World, l: LoopId)
    requires Scheduled(w) && l < |w.loops| && w.loops[l].pc.Returned?
    ensures Scheduled(Deregister(w, l))
  {
    var w' := Deregister(w, l);
    forall k | 0 <= k < |w'.loops|
      ensures LoopOk(w', k)
    {
      assert LoopOk(w, k);
    }
    forall u | u in w'.running
      ensures EntryOk(w', u)
    {
      assert EntryOk(w, u);
    }
    assert forall u :: u in w'.queue ==> WaitingOk(w, u) && WaitingOk(w', u);
  }

  /** Taking the head off the queue leaves a task without any loop. */
  lemma DequeueKeeps(w: World)
    requires Scheduled(w) && w.queue != []
    ensures Scheduled(w.(queue := w.queue[1..]))
    ensures w.queue[0] in w.tasks && w.queue[0] !in w.queue[1..] && w.queue[0] !in w.owner
    ensures w.queue[0] !in w.running
  {
    var w' := w.(queue := w.queue[1..]);
    assert WaitingOk(w, w.queue[0]);
    assert forall u :: u in w'.queue ==> u in w.queue && WaitingOk(w, u) && WaitingOk(w', u);
    forall k | 0 <= k < |w'.loops|
      ensures LoopOk(w', k) && w'.owner[k] != w.queue[0]
    {
      assert LoopOk(w, k);
    }
    forall u | u in w'.running
      ensures EntryOk(w', u) && u != w.queue[0]
    {
      assert EntryOk(w, u);
    }
  }

  lemma SettleKeeps(cfg: ManagerConfig, w: World, l: LoopId, at: int)
    requires Scheduled(w) && Enabled(w, Settle(l, at))
    ensures Scheduled(Step(cfg, w, Settle(l, at))) && Drainable(Step(cfg, w, Settle(l, at)))
  {
    DeregisterKeeps(w, l);
    if w.queue != [] {
      DequeueKeeps(Deregister(w, l));
      RunLoopKeeps(cfg, Deregister(w, l).(queue := w.queue[1..]), w.queue[0], at);
    }
  }

  lemma StartKeeps(cfg: ManagerConfig, w: World, t: TaskId, c: Constraints, at: int)
    requires Scheduled(w) && t !in w.tasks
    ensures Scheduled(StartTask(cfg, w, t, c, at))
  {
    var created := w.(tasks := w.tasks[t := Task(Pending, 0, c, None)], admitted := w.admitted + [t]);
    SameSchedule(w, created);
    forall l | 0 <= l < |w.loops|
      ensures w.owner[l] != t
    {
      assert LoopOk(w, l);
    }
    forall u | u in w.queue
      ensures u != t
    {
      assert WaitingOk(w, u);
    }
    if |w.running| >= cfg.maxParallelTasks {
      EnqueueKeeps(created, t);
    } else {
      RunLoopKeeps(cfg, created, t, at);
    }
  }

  lemma EnqueueKeeps(w: World, t: TaskId)
    requires Scheduled(w) && t in w.tasks && t !in w.queue && t !in w.owner
    ensures Scheduled(SetStatus(w, t, Queued).(queue := w.queue + [t]))
  {
    var w1 := SetStatus(w, t, Queued);
    SameSchedule(w, w1);
    var w' := w1.(queue := w.queue + [t]);
    forall l | 0 <= l < |w'.loops|
      ensures LoopOk(w', l)
    {
      assert LoopOk(w1, l) && w1.owner[l] != t;
    }
    forall u | u in w'.running
      ensures EntryOk(w', u)
    {
      assert EntryOk(w1, u);
    }
    forall u | u in w'.queue
      ensures WaitingOk(w', u)
    {
      if u != t { assert WaitingOk(w1, u); }
    }
  }

  lemma PausedTaskIsIdle(w: World, t: TaskId)
    requires Scheduled(w) && t in w.tasks && w.tasks[t].status == Paused
    ensures NoLiveLoop(w, t) && t !in w.queue
  {
    forall l | 0 <= l < |w.loops| && w.owner[l] == t
      ensures !IsLive(w.loops[l])
    {
      assert LoopOk(w, l);
    }
    assert t in w.queue ==> WaitingOk(w, t);
  }

  /** Every step keeps the bookkeeping. */
  lemma StepKeepsSchedule(cfg: ManagerConfig, w: World, e: Event)
    requires Scheduled(w) && Enabled(w, e)
    ensures Scheduled(Step(cfg, w, e))
  {
    match e
    case Start(t, c, at) => StartKeeps(cfg, w, t, c, at);
    case Pause(t) => HaltAndMarkKeeps(w, t, Paused);
    case ResumeTask(t, at) =>
      if t in w.tasks && w.tasks[t].status == Paused {
        PausedTaskIsIdle(w, t);
        RunLoopKeeps(cfg, w, t, at);
      }
    case Stop(t) => HaltAndMarkKeeps(w, t, Cancelled);
    case StopAll => StopAllKeeps(w);
    case Continue(l, o) => ContinueKeeps(cfg, w, l, o);
    case Settle(l, at) => SettleKeeps(cfg, w, l, at);
    case NewDay => SameSchedule(w, w.(spent := 0.0));
    case CancelStale(t) => CancelStaleKeeps(w, t);
  }

  lemma HaltAndMarkKeeps(w: World, t: TaskId, s: Status)
    requires Scheduled(w)
    ensures Scheduled(SetStatus(Halt(w, t), t, s))
  {
    HaltKeeps(w, t);
    SameSchedule(Halt(w, t), SetStatus(Halt(w, t), t, s));
  }

  lemma CancelStaleKeeps(w: World, t: TaskId)
    requires Scheduled(w)
    ensures t in w.tasks && w.tasks[t].status == Paused ==> Scheduled(SetStatus(w, t, Cancelled))
  {
    if t in w.tasks && w.tasks[t].status == Paused {
      PausedTaskIsIdle(w, t);
      SameSchedule(w, SetStatus(w, t, Cancelled));
    }
  }

  /** With at least one slot, every step leaves a non-empty queue with a pending completion. */
  lemma StepKeepsDrainable(cfg: ManagerConfig, w: World, e: Event)
    requires cfg.maxParallelTasks >= 1
    requires Scheduled(w) && Drainable(w) && Enabled(w, e)
    ensures Drainable(Step(cfg, w, e))
  {
    match e
    case Start(t, c, at) =>
      if |w.running| >= cfg.maxParallelTasks {
        var u :| u in w.running;
        assert EntryOk(w, u);
      }
    case Pause(t) => RemoveFirstShrinks(w.queue, t);
    case Stop(t) => RemoveFirstShrinks(w.queue, t);
    case Settle(l, at) => SettleKeeps(cfg, w, l, at);
    case _ =>
  }

  lemma RemoveFirstShrinks(s: seq<TaskId>, t: TaskId)
    ensures RemoveFirst(s, t) != [] ==> s != []
  {
  }

  // ---------------------------------------------------------------- restore

  lemma RestoreOneKeeps(cfg: ManagerConfig, w: World, t: TaskId, at: int)
    requires Scheduled(w) && t in w.tasks && t !in w.owner && t !in w.queue
    ensures var w' := RestoreOne(cfg, w, t, at);
            && Scheduled(w')
            && (cfg.maxParallelTasks >= 1 && Drainable(w) ==> Drainable(w'))
  {
    if w.tasks[t].status in {Running, Pending, Queued} {
      var a := w.(admitted := w.admitted + [t]);
      SameSchedule(w, a);
      if |w.running| >= cfg.maxParallelTasks {
        EnqueueKeeps(a, t);
        if cfg.maxParallelTasks >= 1 {
          var u :| u in w.running;
          assert EntryOk(w, u);
        }
      } else {
        RunLoopKeeps(cfg, a, t, at);
      }
    }
  }

  lemma RunLoopBookkeeping(cfg: ManagerConfig, w: World, t: TaskId, at: int)
    requires t in w.tasks
    ensures var w' := RunLoop(cfg, w, t, at);
            && w'.owner == w.owner + [t] && |w'.loops| == |w.loops| + 1
            && w'.running == w.running[t := |w.loops|] && w'.completions == w.completions + {|w.loops|}
            && w'.queue == w.queue && w'.admitted == w.admitted && w'.launched == w.launched + [t]
            && w'.tasks.Keys == w.tasks.Keys
  {
  }

  lemma RestoreOneIsLocal(cfg: ManagerConfig, w: World, t: TaskId, at: int, u: TaskId)
    requires t in w.tasks && u in w.tasks && u != t
    requires u !in w.owner && u !in w.queue
    ensures var w' := RestoreOne(cfg, w, t, at);
            && u in w'.tasks && u !in w'.owner && u !in w'.queue
            && (u !in w.running ==> u !in w'.running)
  {
    RunLoopBookkeeping(cfg, w.(admitted := w.admitted + [t]), t, at);
  }

  /** Restoring a fresh process starts or parks every active task without breaking anything. */
  lemma {:induction false} RestoreKeeps(cfg: ManagerConfig, w: World, active: seq<TaskId>, at: int)
    requires Scheduled(w) && Distinct(active)
    requires forall t :: t in active ==> t in w.tasks && t !in w.owner && t !in w.queue
    ensures Scheduled(Restore(cfg, w, active, at))
    ensures cfg.maxParallelTasks >= 1 && Drainable(w) ==> Drainable(Restore(cfg, w, active, at))
    decreases |active|
  {
    if active != [] {
      var w1 := RestoreOne(cfg, w, active[0], at);
      RestoreOneKeeps(cfg, w, active[0], at);
      forall u | u in active[1..]
        ensures u in w1.tasks && u !in w1.owner && u !in w1.queue
      {
        RestoreOneIsLocal(cfg, w, active[0], at, u);
      }
      RestoreKeeps(cfg, w1, active[1..], at);
    }
  }

  // ---------------------------------------------------------------- every run

  lemma {:induction false} RunKeepsSchedule(cfg: ManagerConfig, w: World, events: seq<Event>, w': World)
    requires Scheduled(w) && Reaches(cfg, w, events, w')
    ensures Scheduled(w')
    ensures cfg.maxParallelTasks >= 1 && Drainable(w) ==> Drainable(w')
    decreases |events|
  {
    if events != [] {
      StepKeepsSchedule(cfg, w, events[0]);
      if cfg.maxParallelTasks >= 1 && Drainable(w) {
        StepKeepsDrainable(cfg, w, events[0]);
      }
      RunKeepsSchedule(cfg, Step(cfg, w, events[0]), events[1..], w');
    }
  }

  /** Main theorem: whatever the manager is asked to do and however the loops interleave, a task never has two loops
      that are neither stopped nor returned; its registered loop is the live one. */
  lemma AtMostOneLiveLoop(cfg: ManagerConfig, w: World, active: seq<TaskId>, at: int, events: seq<Event>, w': World,
                          l: LoopId, k: LoopId)
    requires IsInitial(w) && Distinct(active) && forall t :: t in active ==> t in w.tasks
    requires Reaches(cfg, Restore(cfg, w, active, at), events, w')
    requires l < |w'.loops| && k < |w'.loops|
    ensures |w'.owner| == |w'.loops|
    ensures IsLive(w'.loops[l]) && IsLive(w'.loops[k]) && w'.owner[l] == w'.owner[k] ==> l == k
    ensures IsLive(w'.loops[l]) ==> w'.owner[l] in w'.running && w'.running[w'.owner[l]] == l
  {
    RestoreKeeps(cfg, w, active, at);
    RunKeepsSchedule(cfg, Restore(cfg, w, active, at), events, w');
    assert LoopOk(w', l) && LoopOk(w', k);
  }

  /** Main theorem: waiting tasks are distinct, queued, not running, and with a positive cap some completion that will
      drain the queue is pending. */
  lemma QueueIsServed(cfg: ManagerConfig, w: World, active: seq<TaskId>, at: int, events: seq<Event>, w': World)
    requires IsInitial(w) && Distinct(active) && forall t :: t in active ==> t in w.tasks
    requires Reaches(cfg, Restore(cfg, w, active, at), events, w')
    ensures Distinct(w'.queue)
    ensures forall t :: t in w'.queue ==> t !in w'.running && t in w'.tasks && w'.tasks[t].status == Queued
    ensures cfg.maxParallelTasks >= 1 && w'.queue != [] ==> w'.completions != {}
  {
    RestoreKeeps(cfg, w, active, at);
    RunKeepsSchedule(cfg, Restore(cfg, w, active, at), events, w');
    forall t | t in w'.queue
      ensures t !in w'.running && t in w'.tasks && w'.tasks[t].status == Queued
    {
      assert WaitingOk(w', t);
      forall l | 0 <= l < |w'.loops|
        ensures w'.owner[l] != t
      {
        assert LoopOk(w', l);
      }
      assert t in w'.running ==> EntryOk(w', t);
    }
  }
}
