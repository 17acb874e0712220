/** How much work one run of a loop can do, whatever its dependencies answer and whoever interferes. */
module AutonomousWork {
  import opened Common
  import opened PolicyEngine
  import opened AutonomousLoop
  import opened AutonomousWorld

  /** Awaits a run that begins at step s can go through. */
  function MaxResumptions(s: nat): nat { 5 * Max(0, MAX_GLOBAL_ITERATIONS - s) + 4 }

  ghost predicate LoopWork(w: World, l: LoopId)
    requires l < |w.loops| == |w.owner|
  {
    && w.owner[l] in w.tasks
    && Accounted(w.tasks[w.owner[l]], w.loops[l])
    && w.loops[l].resumptions + Fuel(w.loops[l]) <= MaxResumptions(w.loops[l].firstStep)
  }

  ghost predicate AllWork(w: World) {
    |w.loops| == |w.owner| && forall l :: 0 <= l < |w.loops| ==> LoopWork(w, l)
  }

  /** Tasks keep their constraints and never step back. */
  ghost predicate TasksAdvance(w: World, w': World) {
    forall t :: t in w.tasks ==>
                  t in w'.tasks && w'.tasks[t].step >= w.tasks[t].step && w'.tasks[t].constraints == w.tasks[t].constraints
  }

  lemma OtherLoopsUnharmed(w: World, w': World, l: LoopId)
    requires AllWork(w) && TasksAdvance(w, w') && |w'.loops| == |w'.owner|
    requires l < |w.loops| <= |w'.loops| && w'.owner[l] == w.owner[l]
    requires w'.loops[l] == w.loops[l] || w'.loops[l] == w.loops[l].(aborted := true)
    ensures LoopWork(w', l)
  {
    assert LoopWork(w, l);
  }

  lemma RunLoopWork(cfg: ManagerConfig, w: World, t: TaskId, at: int)
    requires AllWork(w) && t in w.tasks
    ensures AllWork(RunLoop(cfg, w, t, at))
  {
    var n := |w.loops|;
    var start := w.(loops := w.loops + [FreshLoop(w.tasks[t].step)], owner := w.owner + [t],
                    running := w.running[t := n], completions := w.completions + {n}, launched := w.launched + [t]);
    BeginAccounts(cfg.policy, ViewOf(start, t, start.loops[n]), at);
    var w' := RunLoop(cfg, w, t, at);
    forall l | 0 <= l < |w'.loops|
      ensures LoopWork(w', l)
    {
      if l < n { OtherLoopsUnharmed(w, w', l); }
    }
  }

  lemma ContinueWork(cfg: ManagerConfig, w: World, l: LoopId, o: Outcome)
    requires AllWork(w) && Enabled(w, Continue(l, o))
    ensures AllWork(Step(cfg, w, Continue(l, o)))
  {
    var t := w.owner[l];
    var v := ViewOf(w, t, Counted(w.loops[l]));
    var w' := Step(cfg, w, Continue(l, o));
    assert LoopWork(w, l);
    SegmentAccounts(cfg.policy, v, o);
    SegmentBurnsFuel(cfg.policy, v, o);
    SegmentMovesForward(cfg.policy, v, o);
    forall k | 0 <= k < |w'.loops|
      ensures LoopWork(w', k)
    {
      if k != l { OtherLoopsUnharmed(w, w', k); }
    }
  }

  lemma UndisturbedWork(w: World, w': World)
    requires AllWork(w) && TasksAdvance(w, w') && w'.owner == w.owner && |w'.loops| == |w.loops|
    requires forall l :: 0 <= l < |w.loops| ==>
                           w'.loops[l] == w.loops[l] || w'.loops[l] == w.loops[l].(aborted := true)
    ensures AllWork(w')
  {
    forall l | 0 <= l < |w'.loops|
      ensures LoopWork(w', l)
    {
      OtherLoopsUnharmed(w, w', l);
    }
  }

  lemma StartWork(cfg: ManagerConfig, w: World, t: TaskId, c: Constraints, at: int)
    requires AllWork(w) && t !in w.tasks
    ensures AllWork(StartTask(cfg, w, t, c, at))
  {
    var created := w.(tasks := w.tasks[t := Task(Pending, 0, c, None)], admitted := w.admitted + [t]);
    UndisturbedWork(w, created);
    if |w.running| >= cfg.maxParallelTasks {
      UndisturbedWork(created, SetStatus(created, t, Queued).(queue := w.queue + [t]));
    } else {
      RunLoopWork(cfg, created, t, at);
    }
  }

  lemma SettleWork(cfg: ManagerConfig, w: World, l: LoopId, at: int)
    requires AllWork(w) && Enabled(w, Settle(l, at))
    ensures AllWork(Step(cfg, w, Settle(l, at)))
  {
    UndisturbedWork(w, Deregister(w, l));
    if w.queue != [] {
      var d := Deregister(w, l).(queue := w.queue[1..]);
      UndisturbedWork(w, d);
      RunLoopWork(cfg, d, w.queue[0], at);
    }
  }

  lemma HaltWork(w: World, t: TaskId, s: Status)
    requires AllWork(w)
    ensures AllWork(SetStatus(Halt(w, t), t, s))
  {
    hide AllWork, RemoveFirst;
    var halted := Halt(w, t);
    AbortWork(w, t);
    StatusWork(halted, t, s);
  }

  lemma AbortWork(w: World, t: TaskId)
    requires AllWork(w)
    ensures AllWork(Halt(w, t))
  {
    hide AllWork, RemoveFirst;
    UndisturbedWork(w, Halt(w, t));
  }

  lemma StatusWork(w: World, t: TaskId, s: Status)
    requires AllWork(w)
    ensures AllWork(SetStatus(w, t, s))
  {
    hide AllWork;
    UndisturbedWork(w, SetStatus(w, t, s));
  }

  lemma StepWork(cfg: ManagerConfig, w: World, e: Event)
    requires AllWork(w) && Enabled(w, e)
    ensures AllWork(Step(cfg, w, e))
  {
    match e
    case Start(t, c, at) => StartWork(cfg, w, t, c, at);
    case Pause(t) => HaltWork(w, t, Paused);
    case ResumeTask(t, at) => if t in w.tasks { RunLoopWork(cfg, w, t, at); }
    case Stop(t) => HaltWork(w, t, Cancelled);
    case StopAll => UndisturbedWork(w, StopAllTasks(w));
    case Continue(l, o) => ContinueWork(cfg, w, l, o);
    case Settle(l, at) => SettleWork(cfg, w, l, at);
    case NewDay => UndisturbedWork(w, w.(spent := 0.0));
    case CancelStale(t) => UndisturbedWork(w, SetStatus(w, t, Cancelled));
  }

  lemma {:induction false} RestoreWork(cfg: ManagerConfig, w: World, active: seq<TaskId>, at: int)
    requires AllWork(w) && forall t :: t in active ==> t in w.tasks
    ensures AllWork(Restore(cfg, w, active, at))
    decreases |active|
  {
    if active != [] {
      var t := active[0];
      var a := w.(admitted := w.admitted + [t]);
      UndisturbedWork(w, a);
      if w.tasks[t].status in {Running, Pending, Queued} {
        if |w.running| >= cfg.maxParallelTasks {
          UndisturbedWork(w, SetStatus(a, t, Queued).(queue := w.queue + [t]));
        } else {
          RunLoopWork(cfg, a, t, at);
        }
      }
      RestoreWork(cfg, RestoreOne(cfg, w, t, at), active[1..], at);
    }
  }

  lemma {:induction false} RunWork(cfg: ManagerConfig, w: World, events: seq<Event>, w': World)
    requires AllWork(w) && Reaches(cfg, w, events, w')
    ensures AllWork(w')
    decreases |events|
  {
    if events != [] {
      StepWork(cfg, w, events[0]);
      RunWork(cfg, Step(cfg, w, events[0]), events[1..], w');
    }
  }

  /** Main theorem: a run that begins at step s executes at most max(0, C - s) tools, where C is the smaller of 500 and
      the task's own limit (50 by default), calls its planner at most once more than that, and returns after at most
      5 * (500 - s) + 4 settled awaits. */
  lemma RunsAreBounded(
    cfg: ManagerConfig, w: World, active: seq<TaskId>, at: int, events: seq<Event>, w': World, l: LoopId)
    requires IsInitial(w) && forall t :: t in active ==> t in w.tasks
    requires Reaches(cfg, Restore(cfg, w, active, at), events, w') && l < |w'.loops|
    ensures l < |w'.owner| && w'.owner[l] in w'.tasks
    ensures var loop := w'.loops[l];
            var cap := Max(0, IterationCap(w'.tasks[w'.owner[l]].constraints) - loop.firstStep);
            && loop.tools <= cap && loop.plans <= loop.tools + 1
            && loop.resumptions <= MaxResumptions(loop.firstStep)
            && (loop.resumptions == MaxResumptions(loop.firstStep) ==> loop.pc.Returned?)
  {
    RestoreWork(cfg, w, active, at);
    RunWork(cfg, Restore(cfg, w, active, at), events, w');
    assert LoopWork(w', l);
  }
}
