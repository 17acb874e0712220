/** Two ways to keep the hourly limit: pauses guarded as the web interface guards them, and resumes that wait. */
module AutonomousPatience {
  import opened Common
  import opened PolicyEngine
  import opened AutonomousLoop
  import opened AutonomousWorld
  import opened AutonomousInvariant
  import opened AutonomousRates

  // ---------------------------------------------------------------- guarded pauses

  /** Only running, pending and queued tasks are paused. */
  ghost predicate PausesGuarded(cfg: ManagerConfig, w: World, events: seq<Event>)
    decreases |events|
  {
    events == [] ||
    (Enabled(w, events[0]) && (events[0].Pause? ==> StatusOf(w, events[0].task) in {Running, Pending, Queued}) &&
     PausesGuarded(cfg, Step(cfg, w, events[0]), events[1..]))
  }

  /** With that guard, which the web interface has and the manager has not, no pause forgets. */
  lemma {:induction false} GuardedPausesForgetNothing(cfg: ManagerConfig, w: World, events: seq<Event>, clock: int)
    requires PausesGuarded(cfg, w, events)
    ensures NoneForgets(cfg, w, events, clock)
    decreases |events|
  {
    hide Step;
    if events != [] {
      GuardedPausesForgetNothing(cfg, Step(cfg, w, events[0]), events[1..], ClockAfter(events[0], clock));
    }
  }

  // ---------------------------------------------------------------- waiting resumes

  /** Every loop of t has returned. */
  ghost predicate AllReturned(w: World, t: TaskId)
    requires |w.loops| == |w.owner|
  {
    forall l :: 0 <= l < |w.loops| && w.owner[l] == t ==> w.loops[l].pc.Returned?
  }

  /** A task is resumed only after its earlier loops have returned. */
  ghost predicate ResumesWait(cfg: ManagerConfig, w: World, events: seq<Event>)
    decreases |events|
  {
    events == [] ||
    (Enabled(w, events[0]) && |w.loops| == |w.owner| &&
     (events[0].ResumeTask? ==> AllReturned(w, events[0].task)) &&
     ResumesWait(cfg, Step(cfg, w, events[0]), events[1..]))
  }

  /** Before a task gets another loop, its earlier loops have returned. */
  ghost predicate OneAtATime(w: World) {
    && |w.loops| == |w.owner|
    && forall l, k :: 0 <= l < k < |w.loops| && w.owner[l] == w.owner[k] ==> w.loops[l].pc.Returned?
  }

  lemma NothingToOverwrite(w: World, e: Event, clock: int)
    requires OneAtATime(w) && Enabled(w, e)
    ensures !Overwrites(w, e, clock)
  {
    if e.Continue? {
      NoLaterLoops(w, w.owner[e.loop], e.loop + 1);
    }
  }

  lemma RunLoopAlone(cfg: ManagerConfig, w: World, t: TaskId, at: int)
    requires OneAtATime(w) && t in w.tasks && AllReturned(w, t)
    ensures OneAtATime(RunLoop(cfg, w, t, at))
  {
    var w' := RunLoop(cfg, w, t, at);
    assert w'.owner == w.owner + [t] && |w'.loops| == |w.loops| + 1;
    assert forall l :: 0 <= l < |w.loops| ==> w'.loops[l] == w.loops[l];
  }

  lemma NoLoopYet(w: World, t: TaskId)
    requires Scheduled(w) && (t !in w.tasks || t in w.queue)
    ensures AllReturned(w, t)
  {
    forall l | 0 <= l < |w.loops|
      ensures w.owner[l] != t
    {
      assert LoopOk(w, l);
    }
  }

  lemma StepAlone(cfg: ManagerConfig, w: World, e: Event)
    requires Scheduled(w) && OneAtATime(w) && Enabled(w, e)
    requires e.ResumeTask? ==> AllReturned(w, e.task)
    ensures OneAtATime(Step(cfg, w, e))
  {
    hide RunLoop, RemoveFirst, Segment, Scheduled, OneAtATime;
    match e
    case Start(t, c, at) =>
      NoLoopYet(w, t);
      StartAlone(cfg, w, t, c, at);
    case ResumeTask(t, at) => if t in w.tasks && w.tasks[t].status == Paused { RunLoopAlone(cfg, w, t, at); }
    case Continue(l, o) => CommitAlone(w, l, Segment(cfg.policy, ViewOf(w, w.owner[l], Counted(w.loops[l])), o));
    case Settle(l, at) => SettleAlone(cfg, w, l, at);
    case _ => SamePcs(w, Step(cfg, w, e));
  }

  lemma SamePcs(w: World, w': World)
    requires OneAtATime(w) && w'.owner == w.owner && |w'.loops| == |w.loops|
    requires forall l :: 0 <= l < |w.loops| ==> w'.loops[l].pc == w.loops[l].pc
    ensures OneAtATime(w')
  {
  }

  lemma CommitAlone(w: World, l: LoopId, v: View)
    requires OneAtATime(w) && l < |w.loops| && !w.loops[l].pc.Returned?
    ensures OneAtATime(Commit(w, w.owner[l], l, v))
  {
  }

  lemma StartAlone(cfg: ManagerConfig, w: World, t: TaskId, c: Constraints, at: int)
    requires OneAtATime(w) && AllReturned(w, t)
    ensures OneAtATime(StartTask(cfg, w, t, c, at))
  {
    var created := w.(tasks := w.tasks[t := Task(Pending, 0, c, None)], admitted := w.admitted + [t]);
    if |w.running| < cfg.maxParallelTasks {
      RunLoopAlone(cfg, created, t, at);
    }
  }

  lemma SettleAlone(cfg: ManagerConfig, w: World, l: LoopId, at: int)
    requires Scheduled(w) && OneAtATime(w) && Enabled(w, Settle(l, at))
    ensures OneAtATime(SettleLoop(cfg, w, l, at))
  {
    if w.queue != [] {
      NoLoopYet(w, w.queue[0]);
      RunLoopAlone(cfg, Deregister(w, l).(queue := w.queue[1..]), w.queue[0], at);
    }
  }

  lemma RestoreOneAlone(cfg: ManagerConfig, w: World, t: TaskId, at: int)
    requires OneAtATime(w) && t in w.tasks && t !in w.owner
    ensures OneAtATime(RestoreOne(cfg, w, t, at))
  {
    RunLoopAlone(cfg, w.(admitted := w.admitted + [t]), t, at);
    hide RunLoop;
  }

  lemma {:induction false} RestoreAlone(cfg: ManagerConfig, w: World, active: seq<TaskId>, at: int)
    requires OneAtATime(w) && Distinct(active)
    requires forall t :: t in active ==> t in w.tasks && t !in w.owner && t !in w.queue
    ensures OneAtATime(Restore(cfg, w, active, at))
    decreases |active|
  {
    if active != [] {
      var t := active[0];
      forall u | u in active[1..]
        ensures u in RestoreOne(cfg, w, t, at).tasks
        ensures u !in RestoreOne(cfg, w, t, at).owner && u !in RestoreOne(cfg, w, t, at).queue
      {
        RestoreOneIsLocal(cfg, w, t, at, u);
      }
      hide RestoreOne, OneAtATime;
      RestoreOneAlone(cfg, w, t, at);
      RestoreAlone(cfg, RestoreOne(cfg, w, t, at), active[1..], at);
    }
  }

  lemma {:induction false} AloneOverwritesNothing(cfg: ManagerConfig, w: World, events: seq<Event>, clock: int)
    requires Scheduled(w) && OneAtATime(w) && ResumesWait(cfg, w, events)
    ensures NoneOverwrites(cfg, w, events, clock)
    decreases |events|
  {
    hide Step, Scheduled, OneAtATime, AllReturned, Overwrites, Enabled, ClockAfter;
    if events != [] {
      NothingToOverwrite(w, events[0], clock);
      StepAlone(cfg, w, events[0]);
      StepKeepsSchedule(cfg, w, events[0]);
      AloneOverwritesNothing(cfg, Step(cfg, w, events[0]), events[1..], ClockAfter(events[0], clock));
    }
  }

  /** If every resume waits until the task's earlier loops have returned, no stopped loop overwrites anything. */
  lemma WaitingResumesOverwriteNothing(cfg: ManagerConfig, w: World, active: seq<TaskId>, at: int, events: seq<Event>,
                                       clock: int)
    requires IsInitial(w) && Distinct(active) && forall u :: u in active ==> u in w.tasks
    requires ResumesWait(cfg, Restore(cfg, w, active, at), events)
    ensures NoneOverwrites(cfg, Restore(cfg, w, active, at), events, clock)
  {
    RestoreKeeps(cfg, w, active, at);
    RestoreAlone(cfg, w, active, at);
    AloneOverwritesNothing(cfg, Restore(cfg, w, active, at), events, clock);
  }
}
