/** The parallel cap, first-in-first-out starts, and shutdown. */
module AutonomousScheduling {
  import opened Common
  import opened PolicyEngine
  import opened AutonomousLoop
  import opened AutonomousWorld
  import opened AutonomousInvariant

  // ---------------------------------------------------------------- undisturbed scheduling

  /** No pause, stop or resume. */
  predicate Undisturbed(e: Event) { e.Start? || e.Continue? || e.Settle? || e.NewDay? || e.CancelStale? }

  ghost predicate AllUndisturbed(events: seq<Event>) {
    forall i :: 0 <= i < |events| ==> Undisturbed(events[i])
  }

  /** Tasks have been launched in the order of admission and the rest waits in that order; the cap is respected, and
      reached whenever something waits; every pending completion belongs to a registered loop. */
  ghost predicate Orderly(cfg: ManagerConfig, w: World) {
    && w.admitted == w.launched + w.queue
    && |w.running| <= cfg.maxParallelTasks
    && (w.queue != [] ==> |w.running| == cfg.maxParallelTasks)
    && (forall l :: l in w.completions ==>
                      l < |w.owner| && w.owner[l] in w.running && w.running[w.owner[l]] == l)
    && (forall t :: t in w.running ==> t in w.tasks)
  }

  lemma LaunchIsOrderly(cfg: ManagerConfig, w: World, t: TaskId, at: int)
    requires |w.loops| == |w.owner| && t in w.tasks && t !in w.running
    requires w.admitted == w.launched + [t] + w.queue
    requires |w.running| < cfg.maxParallelTasks && (w.queue != [] ==> |w.running| + 1 == cfg.maxParallelTasks)
    requires forall l :: l in w.completions ==>
                           l < |w.owner| && w.owner[l] in w.running && w.running[w.owner[l]] == l
    requires forall u :: u in w.running ==> u in w.tasks
    ensures Orderly(cfg, RunLoop(cfg, w, t, at))
  {
    hide RunLoop;
    RunLoopBookkeeping(cfg, w, t, at);
    LaunchSize(cfg, w, t, at);
    LaunchedCompletions(cfg, w, t, at);
  }

  lemma LaunchedCompletions(cfg: ManagerConfig, w: World, t: TaskId, at: int)
    requires |w.loops| == |w.owner| && t in w.tasks && t !in w.running
    requires forall l :: l in w.completions ==>
                           l < |w.owner| && w.owner[l] in w.running && w.running[w.owner[l]] == l
    ensures var w' := RunLoop(cfg, w, t, at);
            forall l :: l in w'.completions ==>
                          l < |w'.owner| && w'.owner[l] in w'.running && w'.running[w'.owner[l]] == l
  {
    RunLoopBookkeeping(cfg, w, t, at);
    hide RunLoop;
    var w' := RunLoop(cfg, w, t, at);
    forall l | l in w'.completions
      ensures l < |w'.owner| && w'.owner[l] in w'.running && w'.running[w'.owner[l]] == l
    {
      if l < |w.owner| { assert w'.owner[l] == w.owner[l]; }
    }
  }

  lemma ParkIsOrderly(cfg: ManagerConfig, w: World, t: TaskId)
    requires w.admitted == w.launched + w.queue + [t]
    requires t in w.tasks && |w.running| == cfg.maxParallelTasks
    requires Orderly(cfg, w.(admitted := w.launched + w.queue))
    ensures Orderly(cfg, SetStatus(w, t, Queued).(queue := w.queue + [t]))
  {
    assert w.launched + w.queue + [t] == w.launched + (w.queue + [t]);
  }

  lemma SettleIsOrderly(cfg: ManagerConfig, w: World, l: LoopId, at: int)
    requires Scheduled(w) && Orderly(cfg, w) && Enabled(w, Settle(l, at))
    ensures Orderly(cfg, Step(cfg, w, Settle(l, at)))
  {
    var t := w.owner[l];
    var d := Deregister(w, l);
    assert d.running.Keys == w.running.Keys - {t};
    forall k | k in d.completions
      ensures k < |d.owner| && d.owner[k] in d.running && d.running[d.owner[k]] == k
    {
      assert w.owner[k] != t;
    }
    if w.queue != [] {
      DeregisterKeeps(w, l);
      DequeueKeeps(d);
      var next, d' := w.queue[0], d.(queue := w.queue[1..]);
      assert w.queue == [next] + d'.queue;
      LaunchIsOrderly(cfg, d', next, at);
    }
  }

  lemma StartIsOrderly(cfg: ManagerConfig, w: World, t: TaskId, c: Constraints, at: int)
    requires Scheduled(w) && Orderly(cfg, w) && t !in w.tasks
    ensures Orderly(cfg, StartTask(cfg, w, t, c, at))
  {
    var created := w.(tasks := w.tasks[t := Task(Pending, 0, c, None)], admitted := w.admitted + [t]);
    if |w.running| >= cfg.maxParallelTasks {
      ParkIsOrderly(cfg, created, t);
    } else {
      assert w.queue == [] && w.launched + [t] + [] == created.admitted;
      LaunchIsOrderly(cfg, created, t, at);
    }
  }

  lemma StepIsOrderly(cfg: ManagerConfig, w: World, e: Event)
    requires Scheduled(w) && Orderly(cfg, w) && Enabled(w, e) && Undisturbed(e)
    ensures Orderly(cfg, Step(cfg, w, e))
  {
    match e
    case Start(t, c, at) => StartIsOrderly(cfg, w, t, c, at);
    case Continue(l, o) =>
    case Settle(l, at) => SettleIsOrderly(cfg, w, l, at);
    case NewDay =>
    case CancelStale(t) =>
  }

  lemma RestoreOneIsOrderly(cfg: ManagerConfig, w: World, t: TaskId, at: int)
    requires Scheduled(w) && Orderly(cfg, w) && t in w.tasks && t !in w.running
    ensures Orderly(cfg, RestoreOne(cfg, w, t, at))
  {
    var a := w.(admitted := w.admitted + [t]);
    if w.tasks[t].status in {Running, Pending, Queued} {
      if |w.running| >= cfg.maxParallelTasks {
        ParkIsOrderly(cfg, a, t);
      } else {
        assert w.queue == [] && w.launched + [t] + [] == a.admitted;
        LaunchIsOrderly(cfg, a, t, at);
      }
    }
  }

  lemma {:induction false} RestoreIsOrderly(cfg: ManagerConfig, w: World, active: seq<TaskId>, at: int)
    requires Scheduled(w) && Orderly(cfg, w) && Distinct(active)
    requires forall t :: t in active ==> t in w.tasks && t !in w.owner && t !in w.queue && t !in w.running
    ensures Orderly(cfg, Restore(cfg, w, active, at))
    decreases |active|
  {
    if active != [] {
      var w1 := RestoreOne(cfg, w, active[0], at);
      RestoreOneKeeps(cfg, w, active[0], at);
      RestoreOneIsOrderly(cfg, w, active[0], at);
      forall u | u in active[1..]
        ensures u in w1.tasks && u !in w1.owner && u !in w1.queue && u !in w1.running
      {
        RestoreOneIsLocal(cfg, w, active[0], at, u);
      }
      RestoreIsOrderly(cfg, w1, active[1..], at);
    }
  }

  lemma {:induction false} RunIsOrderly(cfg: ManagerConfig, w: World, events: seq<Event>, w': World)
    requires Scheduled(w) && Orderly(cfg, w) && Reaches(cfg, w, events, w') && AllUndisturbed(events)
    ensures Orderly(cfg, w')
    decreases |events|
  {
    if events != [] {
      StepIsOrderly(cfg, w, events[0]);
      StepKeepsSchedule(cfg, w, events[0]);
      assert AllUndisturbed(events[1..]);
      RunIsOrderly(cfg, Step(cfg, w, events[0]), events[1..], w');
    }
  }

  /** Main theorem: with only starts, the initial restore and completions, at most `cap` tasks run, all slots are taken
      whenever a task waits, and tasks are launched strictly in the order in which they were admitted. */
  lemma FifoUnderTheCap(
    cfg: ManagerConfig, w: World, active: seq<TaskId>, at: int, events: seq<Event>, w': World)
    requires IsInitial(w) && Distinct(active) && forall t :: t in active ==> t in w.tasks
    requires Reaches(cfg, Restore(cfg, w, active, at), events, w') && AllUndisturbed(events)
    ensures |w'.running| <= cfg.maxParallelTasks
    ensures w'.queue != [] ==> |w'.running| == cfg.maxParallelTasks
    ensures w'.launched + w'.queue == w'.admitted
  {
    RestoreKeeps(cfg, w, active, at);
    RestoreIsOrderly(cfg, w, active, at);
    RunIsOrderly(cfg, Restore(cfg, w, active, at), events, w');
  }

  // ---------------------------------------------------------------- exactly when the cap is kept

  /** The two places where a loop is started without looking at the cap: a resume, and a `finally` handler whose loop no
      longer holds a slot. */
  predicate Overfills(cfg: ManagerConfig, w: World, e: Event) {
    match e
    case ResumeTask(t, _) =>
      t in w.tasks && w.tasks[t].status == Paused && t !in w.running && |w.running| >= cfg.maxParallelTasks
    case Settle(l, _) =>
      && w.queue != [] && |w.running| >= cfg.maxParallelTasks
      && !(l < |w.owner| && w.owner[l] in w.running && w.running[w.owner[l]] == l)
    case _ => false
  }

  /** From a world within the cap, a step leaves the cap exactly when it is one of those two. */
  lemma CapKeptExactly(cfg: ManagerConfig, w: World, e: Event)
    requires Scheduled(w) && Enabled(w, e) && |w.running| <= cfg.maxParallelTasks
    ensures |Step(cfg, w, e).running| <= cfg.maxParallelTasks <==> !Overfills(cfg, w, e)
  {
    hide Scheduled, RunLoop, Segment, ViewOf, RemoveFirst, StopLoops;
    match e
    case Start(t, c, at) => StartSize(cfg, w, t, c, at);
    case Pause(t) => HaltShrinks(w, t);
    case ResumeTask(t, at) => ResumeSize(cfg, w, t, at);
    case Stop(t) => HaltShrinks(w, t);
    case StopAll =>
    case Continue(l, o) =>
    case Settle(l, at) => SettleSize(cfg, w, l, at);
    case NewDay =>
    case CancelStale(t) =>
  }

  lemma LaunchSize(cfg: ManagerConfig, w: World, t: TaskId, at: int)
    requires t in w.tasks
    ensures |RunLoop(cfg, w, t, at).running| == |w.running| + if t in w.running then 0 else 1
  {
    RunLoopBookkeeping(cfg, w, t, at);
    assert RunLoop(cfg, w, t, at).running.Keys == w.running.Keys + {t};
  }

  lemma StartSize(cfg: ManagerConfig, w: World, t: TaskId, c: Constraints, at: int)
    requires Scheduled(w) && t !in w.tasks && |w.running| <= cfg.maxParallelTasks
    ensures |StartTask(cfg, w, t, c, at).running| <= cfg.maxParallelTasks
  {
    if |w.running| < cfg.maxParallelTasks {
      LaunchSize(cfg, w.(tasks := w.tasks[t := Task(Pending, 0, c, None)], admitted := w.admitted + [t]), t, at);
    }
  }

  lemma ResumeSize(cfg: ManagerConfig, w: World, t: TaskId, at: int)
    requires |w.running| <= cfg.maxParallelTasks
    ensures |ResumePaused(cfg, w, t, at).running| <= cfg.maxParallelTasks
            <==> !Overfills(cfg, w, ResumeTask(t, at))
  {
    if t in w.tasks { LaunchSize(cfg, w, t, at); }
  }

  lemma HaltShrinks(w: World, t: TaskId)
    ensures |Halt(w, t).running| <= |w.running|
  {
    if t in w.running {
      assert Halt(w, t).running.Keys == w.running.Keys - {t};
    }
  }

  lemma DeregisterSize(w: World, l: LoopId)
    requires l < |w.owner|
    ensures |Deregister(w, l).running| ==
              |w.running| - if w.owner[l] in w.running && w.running[w.owner[l]] == l then 1 else 0
  {
    if w.owner[l] in w.running && w.running[w.owner[l]] == l {
      assert Deregister(w, l).running.Keys == w.running.Keys - {w.owner[l]};
    }
  }

  lemma SettleSize(cfg: ManagerConfig, w: World, l: LoopId, at: int)
    requires Scheduled(w) && Enabled(w, Settle(l, at))
    ensures |SettleLoop(cfg, w, l, at).running| ==
              |Deregister(w, l).running| + if w.queue != [] then 1 else 0
    ensures |Deregister(w, l).running| ==
              |w.running| - if w.owner[l] in w.running && w.running[w.owner[l]] == l then 1 else 0
  {
    DeregisterSize(w, l);
    if w.queue != [] {
      DeregisterKeeps(w, l);
      DequeueKeeps(Deregister(w, l));
      LaunchSize(cfg, Deregister(w, l).(queue := w.queue[1..]), w.queue[0], at);
    }
  }

  // ---------------------------------------------------------------- shutdown

  /** Nothing that could start a loop. */
  ghost predicate ShuttingDown(events: seq<Event>) {
    forall i :: 0 <= i < |events| ==> !events[i].Start? && !events[i].ResumeTask?
  }

  /** After stopAll: nothing registered, nothing waiting, nothing live. */
  ghost predicate Stopped(w: World) {
    w.running == map[] && w.queue == [] && forall l :: 0 <= l < |w.loops| ==> !IsLive(w.loops[l])
  }

  lemma StopAllStops(w: World)
    requires Scheduled(w)
    ensures Stopped(StopAllTasks(w)) && StopAllTasks(w).completions == w.completions
  {
    forall l | 0 <= l < |w.loops|
      ensures !IsLive(StopAllTasks(w).loops[l])
    {
      assert LoopOk(w, l);
    }
  }

  lemma StepStaysStopped(cfg: ManagerConfig, w: World, e: Event)
    requires Scheduled(w) && Stopped(w) && Enabled(w, e) && !e.Start? && !e.ResumeTask?
    ensures Stopped(Step(cfg, w, e)) && Step(cfg, w, e).completions <= w.completions
  {
    match e
    case Continue(l, o) => AbortFlagFixed(cfg.policy, ViewOf(w, w.owner[l], Counted(w.loops[l])), o);
    case _ =>
  }

  lemma {:induction false} RunStaysStopped(cfg: ManagerConfig, w: World, events: seq<Event>, w': World)
    requires Scheduled(w) && Stopped(w) && Reaches(cfg, w, events, w') && ShuttingDown(events)
    ensures Stopped(w') && w'.completions <= w.completions
    decreases |events|
  {
    if events != [] {
      StepStaysStopped(cfg, w, events[0]);
      StepKeepsSchedule(cfg, w, events[0]);
      assert ShuttingDown(events[1..]);
      RunStaysStopped(cfg, Step(cfg, w, events[0]), events[1..], w');
    }
  }

  /** Main theorem: stopAllAndWait takes the pending completions, stops everything and waits for them. Once they have
      settled, and provided nothing is started or resumed meanwhile, no completion is pending and every loop has
      returned, so no write can follow. */
  lemma StopAllAndWaitIsFinal(cfg: ManagerConfig, w: World, events: seq<Event>, w': World)
    requires Scheduled(w)
    requires Reaches(cfg, StopAllTasks(w), events, w') && ShuttingDown(events)
    requires w'.completions !! w.completions
    ensures w'.completions == {} && w'.queue == [] && w'.running == map[]
    ensures forall l :: 0 <= l < |w'.loops| ==> w'.loops[l].pc.Returned?
  {
    StopAllKeeps(w);
    StopAllStops(w);
    RunStaysStopped(cfg, StopAllTasks(w), events, w');
    RunKeepsSchedule(cfg, StopAllTasks(w), events, w');
    assert w'.completions == {};
    forall l | 0 <= l < |w'.loops|
      ensures w'.loops[l].pc.Returned?
    {
      assert LoopOk(w', l);
    }
  }
}
