/** Statuses and policy snapshots under interference: what stopped loops can and cannot do to a task. */
module AutonomousStatus {
  import opened Common
  import opened PolicyEngine
  import opened AutonomousLoop
  import opened AutonomousWorld
  import opened AutonomousInvariant

  /** A manager or scheduler call about task t. */
  predicate Addresses(e: Event, t: TaskId) {
    match e
    case Pause(u) => u == t
    case ResumeTask(u, _) => u == t
    case Stop(u) => u == t
    case CancelStale(u) => u == t
    case _ => false
  }

  ghost predicate NoneAddresses(events: seq<Event>, t: TaskId) {
    forall i :: 0 <= i < |events| ==> !Addresses(events[i], t)
  }

  // ---------------------------------------------------------------- pause and cancel survive

  lemma RunLoopTouchesOnlyItsTask(cfg: ManagerConfig, w: World, u: TaskId, at: int, t: TaskId)
    requires u in w.tasks && t in w.tasks && t != u
    ensures var w' := RunLoop(cfg, w, u, at);
            t in w'.tasks && w'.tasks[t] == w.tasks[t] && (t in w.snapshots ==> t in w'.snapshots)
  {
  }

  ghost predicate Respected(w: World, w': World, t: TaskId)
    requires t in w.tasks
  {
    && t in w'.tasks && w'.tasks[t].status == w.tasks[t].status
    && (w.tasks[t].status == Paused && t in w.snapshots ==> t in w'.snapshots)
  }

  lemma ContinueRespectsStatus(cfg: ManagerConfig, w: World, l: LoopId, o: Outcome, t: TaskId)
    requires Scheduled(w) && Enabled(w, Continue(l, o))
    requires t in w.tasks && IsExternalTerminal(w.tasks[t].status)
    ensures Respected(w, Step(cfg, w, Continue(l, o)), t)
  {
    if w.owner[l] == t {
      var v := ViewOf(w, t, Counted(w.loops[l]));
      StatusProtected(cfg.policy, v, o);
      if v.row.status == Paused && v.snapshot.Some? {
        PausedSnapshotKept(cfg.policy, v, o);
      }
    }
  }

  lemma SettleRespectsStatus(cfg: ManagerConfig, w: World, l: LoopId, at: int, t: TaskId)
    requires Scheduled(w) && Enabled(w, Settle(l, at))
    requires t in w.tasks && IsExternalTerminal(w.tasks[t].status)
    ensures Respected(w, Step(cfg, w, Settle(l, at)), t)
  {
    if w.queue != [] {
      assert WaitingOk(w, w.queue[0]);
      RunLoopTouchesOnlyItsTask(cfg, Deregister(w, l).(queue := w.queue[1..]), w.queue[0], at, t);
    }
  }

  lemma StepRespectsStatus(cfg: ManagerConfig, w: World, e: Event, t: TaskId)
    requires Scheduled(w) && Enabled(w, e) && !Addresses(e, t)
    requires t in w.tasks && IsExternalTerminal(w.tasks[t].status)
    ensures Respected(w, Step(cfg, w, e), t)
  {
    hide Scheduled, RunLoop, Segment, RemoveFirst, StopLoops;
    match e
    case Start(u, c, at) =>
      if |w.running| < cfg.maxParallelTasks {
        var created := w.(tasks := w.tasks[u := Task(Pending, 0, c, None)], admitted := w.admitted + [u]);
        RunLoopTouchesOnlyItsTask(cfg, created, u, at, t);
      }
    case ResumeTask(u, at) =>
      if u in w.tasks { RunLoopTouchesOnlyItsTask(cfg, w, u, at, t); }
    case Continue(l, o) => ContinueRespectsStatus(cfg, w, l, o, t);
    case Settle(l, at) => SettleRespectsStatus(cfg, w, l, at, t);
    case _ =>
  }

  /** Main theorem: once a task is paused, cancelled, completed or failed, no continuation of any loop, however stale,
      changes that until somebody addresses the task again; and a paused task keeps its policy snapshot for the next
      resume. */
  lemma {:induction false} ExternalStatusSurvives(
    cfg: ManagerConfig, w: World, events: seq<Event>, w': World, t: TaskId)
    requires Scheduled(w) && Reaches(cfg, w, events, w') && NoneAddresses(events, t)
    requires t in w.tasks && IsExternalTerminal(w.tasks[t].status)
    ensures t in w'.tasks && w'.tasks[t].status == w.tasks[t].status
    ensures w.tasks[t].status == Paused && t in w.snapshots ==> t in w'.snapshots
    decreases |events|
  {
    if events != [] {
      assert !Addresses(events[0], t);
      StepRespectsStatus(cfg, w, events[0], t);
      StepKeepsSchedule(cfg, w, events[0]);
      assert NoneAddresses(events[1..], t);
      ExternalStatusSurvives(cfg, Step(cfg, w, events[0]), events[1..], w', t);
    }
  }

  // ---------------------------------------------------------------- after a resume

  /** No call awaited by a stopped loop is rejected where the loop would take it for its own crash. */
  predicate Calm(w: World, e: Event) {
    e.Continue? && e.loop < |w.loops| && w.loops[e.loop].aborted ==> !CrashesLoop(e.outcome)
  }

  ghost predicate AllCalm(cfg: ManagerConfig, w: World, events: seq<Event>)
    decreases |events|
  {
    events == [] || (Enabled(w, events[0]) && Calm(w, events[0]) && AllCalm(cfg, Step(cfg, w, events[0]), events[1..]))
  }

  ghost predicate LiveMeansRunning(w: World)
    requires |w.loops| == |w.owner|
  {
    forall l :: 0 <= l < |w.loops| && IsLive(w.loops[l]) ==>
                  w.owner[l] in w.tasks && w.tasks[w.owner[l]].status == Running
  }

  lemma RunLoopLiveMeansRunning(cfg: ManagerConfig, w: World, t: TaskId, at: int)
    requires Scheduled(w) && LiveMeansRunning(w) && t in w.tasks && NoLiveLoop(w, t)
    ensures LiveMeansRunning(RunLoop(cfg, w, t, at))
  {
    var n := |w.loops|;
    var start := w.(loops := w.loops + [FreshLoop(w.tasks[t].step)], owner := w.owner + [t],
                    running := w.running[t := n], completions := w.completions + {n}, launched := w.launched + [t]);
    BeginAccounts(cfg.policy, ViewOf(start, t, start.loops[n]), at);
    var w' := RunLoop(cfg, w, t, at);
    forall l | 0 <= l < |w'.loops| && IsLive(w'.loops[l])
      ensures w'.owner[l] in w'.tasks && w'.tasks[w'.owner[l]].status == Running
    {
      if l < n { assert w'.loops[l] == w.loops[l] && w'.owner[l] == w.owner[l]; }
    }
  }

  lemma CalmContinue(cfg: ManagerConfig, w: World, l: LoopId, o: Outcome)
    requires Scheduled(w) && Enabled(w, Continue(l, o)) && LiveMeansRunning(w) && Calm(w, Continue(l, o))
    ensures LiveMeansRunning(Step(cfg, w, Continue(l, o)))
  {
    var t := w.owner[l];
    var v := ViewOf(w, t, Counted(w.loops[l]));
    var w' := Step(cfg, w, Continue(l, o));
    AbortFlagFixed(cfg.policy, v, o);
    if v.loop.aborted {
      StoppedLoopWrites(cfg.policy, v, o);
    } else {
      GoingOnMeansRunning(cfg.policy, v, o);
    }
    forall k | 0 <= k < |w'.loops| && IsLive(w'.loops[k])
      ensures w'.owner[k] in w'.tasks && w'.tasks[w'.owner[k]].status == Running
    {
      assert LoopOk(w, k) && LoopOk(w, l);
    }
  }

  lemma CalmStart(cfg: ManagerConfig, w: World, t: TaskId, c: Constraints, at: int)
    requires Scheduled(w) && LiveMeansRunning(w) && t !in w.tasks
    ensures LiveMeansRunning(StartTask(cfg, w, t, c, at))
  {
    var created := w.(tasks := w.tasks[t := Task(Pending, 0, c, None)], admitted := w.admitted + [t]);
    SameSchedule(w, created);
    forall l | 0 <= l < |w.loops|
      ensures w.owner[l] != t && created.owner[l] in created.tasks
    {
      assert LoopOk(w, l);
    }
    if |w.running| < cfg.maxParallelTasks {
      RunLoopLiveMeansRunning(cfg, created, t, at);
    }
  }

  lemma CalmSettle(cfg: ManagerConfig, w: World, l: LoopId, at: int)
    requires Scheduled(w) && Enabled(w, Settle(l, at)) && LiveMeansRunning(w)
    ensures LiveMeansRunning(SettleLoop(cfg, w, l, at))
  {
    DeregisterKeeps(w, l);
    if w.queue != [] {
      DequeueKeeps(Deregister(w, l));
      RunLoopLiveMeansRunning(cfg, Deregister(w, l).(queue := w.queue[1..]), w.queue[0], at);
    }
  }

  lemma CalmHalt(w: World, t: TaskId, s: Status)
    requires Scheduled(w) && LiveMeansRunning(w)
    ensures LiveMeansRunning(SetStatus(Halt(w, t), t, s))
  {
    HaltKeeps(w, t);
  }

  lemma CalmStep(cfg: ManagerConfig, w: World, e: Event)
    requires Scheduled(w) && Enabled(w, e) && LiveMeansRunning(w) && Calm(w, e)
    ensures |Step(cfg, w, e).loops| == |Step(cfg, w, e).owner| && LiveMeansRunning(Step(cfg, w, e))
  {
    StepKeepsSchedule(cfg, w, e);
    assert |w.loops| == |w.owner| && |Step(cfg, w, e).loops| == |Step(cfg, w, e).owner|;
    hide Scheduled, RunLoop, Segment, ViewOf, RemoveFirst;
    match e
    case Start(t, c, at) => CalmStart(cfg, w, t, c, at);
    case Pause(t) => CalmHalt(w, t, Paused);
    case ResumeTask(t, at) =>
      if t in w.tasks && w.tasks[t].status == Paused {
        PausedTaskIsIdle(w, t);
        RunLoopLiveMeansRunning(cfg, w, t, at);
      }
    case Stop(t) => CalmHalt(w, t, Cancelled);
    case StopAll =>
    case Continue(l, o) => CalmContinue(cfg, w, l, o);
    case Settle(l, at) => CalmSettle(cfg, w, l, at);
    case NewDay =>
    case CancelStale(t) => if t in w.tasks && w.tasks[t].status == Paused { PausedTaskIsIdle(w, t); }
  }

  /** Main theorem: as long as no stopped loop sees its awaited call rejected, every live loop works for a task that is
      recorded as running. */
  lemma {:induction false} CalmRunsKeepLiveTasksRunning(cfg: ManagerConfig, w: World, events: seq<Event>, w': World)
    requires Scheduled(w) && LiveMeansRunning(w)
    requires Reaches(cfg, w, events, w') && AllCalm(cfg, w, events)
    ensures |w'.loops| == |w'.owner| && LiveMeansRunning(w')
    decreases |events|
  {
    if events != [] {
      CalmStep(cfg, w, events[0]);
      StepKeepsSchedule(cfg, w, events[0]);
      CalmRunsKeepLiveTasksRunning(cfg, Step(cfg, w, events[0]), events[1..], w');
    }
  }

  /** Without that condition the promise fails. Whenever a stopped loop of a paused task still awaits its planner, a
      resume followed by the rejection of that old call records the task as failed and drops its snapshot, while the new
      loop goes on working. */
  lemma StoppedLoopFailsResumedTask(cfg: ManagerConfig, w: World, l: LoopId, at: int)
    requires Scheduled(w) && l < |w.loops| && w.loops[l].aborted && w.loops[l].pc == Planning
    requires w.owner[l] in w.tasks && w.tasks[w.owner[l]].status == Paused
    requires w.tasks[w.owner[l]].step < MAX_GLOBAL_ITERATIONS
    ensures var t := w.owner[l];
            var resumed := Step(cfg, w, ResumeTask(t, at));
            && Enabled(resumed, Continue(l, PlanRejected))
            && var w' := Step(cfg, resumed, Continue(l, PlanRejected));
               && |w'.loops| == |w.loops| + 1 == |w'.owner|
               && w'.owner[|w.loops|] == t && IsLive(w'.loops[|w.loops|])
               && t in w'.tasks && w'.tasks[t].status == Failed && t !in w'.snapshots
  {
    assert |w.loops| == |w.owner|;
    hide Scheduled;
  }

  const NoConstraints := Constraints(None, None, [], [], None)

  const EmptyWorld := World(map[], map[], 0.0, 0.0, 0.0, map[], [], [], map[], {}, [], [], [])

  /** Such a world is reached by one start and one pause. */
  lemma StoppedPlannerIsReachable(cfg: ManagerConfig, t: TaskId) returns (w: World)
    requires cfg.maxParallelTasks >= 1
    ensures Reaches(cfg, EmptyWorld, [Start(t, NoConstraints, 0), Pause(t)], w)
    ensures w.owner == [t] && |w.loops| == 1 && w.loops[0].aborted && w.loops[0].pc == Planning
    ensures t in w.tasks && w.tasks[t].status == Paused && w.tasks[t].step == 0
  {
    var es := [Start(t, NoConstraints, 0), Pause(t)];
    var w1 := Step(cfg, EmptyWorld, es[0]);
    assert |w1.loops| == 1 && w1.loops[0].pc == Planning && w1.running == map[t := 0];
    w := Step(cfg, w1, es[1]);
    assert es[1..] == [es[1]] && es[1..][1..] == [];
    assert Reaches(cfg, w, [], w);
    assert Reaches(cfg, w1, es[1..], w);
  }
}
