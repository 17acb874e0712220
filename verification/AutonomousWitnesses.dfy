/** Runs from an empty store that reach the states in which a promise of the engine fails. */
module AutonomousWitnesses {
  import opened Common
  import opened PolicyEngine
  import opened PolicyWindows
  import opened AutonomousLoop
  import opened AutonomousWorld
  import opened AutonomousInvariant
  import opened AutonomousStatus
  import opened AutonomousRates
  import opened AutonomousSpend

  // ---------------------------------------------------------------- harmless actions

  /** Rate limits with room for a few calls, budgets with room for one TON, nothing restricted. */
  predicate Lenient(cfg: PolicyConfig) {
    && cfg.toolCallsPerHour >= 1 && cfg.apiCallsPerMinute > 10 && cfg.restrictedTools == [] && !cfg.loopDetectionEnabled
    && cfg.perTask >= 1.0 && cfg.daily >= 1.0 && cfg.requireConfirmationAbove >= 1.0
  }

  /** Pays one TON, or nothing. */
  function Paying(ton: real): PolicyAction
    requires 0.0 <= ton <= 1.0
  {
    PolicyAction("tool", Undefined, false, Finite(ton))
  }

  lemma {:induction false} WithinIsShorter(ts: seq<int>, now: int, window: int)
    ensures |Within(ts, now, window)| <= |ts|
  {
    if ts != [] {
      WithinIsShorter(ts[1..], now, window);
    }
  }

  lemma PushedIsOneLonger(ts: seq<int>, now: int, window: int, limit: nat)
    ensures |PushPruned(ts, now, window, limit)| <= |ts| + 1
  {
    WithinIsShorter(ts + [now], now, window);
  }

  lemma PushedAlone(now: int, limit: nat)
    requires limit >= 1
    ensures PushPruned([], now, HOUR, limit) == [now]
  {
    assert [] + [now] == [now] && [now][1..] == [];
    assert Within([now], now, HOUR) == [now] + Within([], now, HOUR);
  }

  lemma LenientAllows(cfg: PolicyConfig, e: EngineState, i: CheckInput, now: int, ton: real)
    requires Lenient(cfg) && 0.0 <= ton <= 1.0 && i.action == Paying(ton) && i.constraints == NoConstraints
    requires i.step == 0 && i.dailySpend == 0.0
    requires |Within(e.toolCalls, now, HOUR)| < cfg.toolCallsPerHour && |e.apiCalls| <= 10
    ensures Allowed(cfg, e, i, now) && !NeedsEscalation(cfg, e, i, now) && SpendOf(i.action) == ton
  {
    WithinIsShorter(e.apiCalls, now, MINUTE);
    hide Within;
    forall v: ViolationKind
      ensures !Violates(cfg, e, i, now, v)
    {
    }
    assert ViolationSet(cfg, e, i, now) == {};
  }

  // ---------------------------------------------------------------- steps on one task

  /** What a loop's engine and the snapshot of its task know. */
  predicate Knows(w: World, t: TaskId, l: LoopId, toolCalls: seq<int>) {
    && l < |w.loops| && w.loops[l].engine.toolCalls == toolCalls && |w.loops[l].engine.apiCalls| <= 10
    && w.loops[l].step == 0
  }

  /** A task at its first step, in a store that has recorded no spend. */
  predicate Young(w: World, t: TaskId) {
    && t in w.tasks && w.tasks[t].step == 0 && w.tasks[t].constraints == NoConstraints && w.spent == 0.0
    && |w.loops| == |w.owner|
  }

  function ToolCallsKept(w: World, t: TaskId): seq<int> { if t in w.snapshots then w.snapshots[t].toolCalls else [] }

  function ApiCallsKept(w: World, t: TaskId): seq<int> { if t in w.snapshots then w.snapshots[t].apiCalls else [] }

  /** A launched task is running, and its loop plans with what the snapshot kept. */
  lemma Launched(cfg: ManagerConfig, w: World, t: TaskId, at: int)
    requires Young(w, t) && |ApiCallsKept(w, t)| < 10
    ensures var w', n := RunLoop(cfg, w, t, at), |w.loops|;
            && Young(w', t) && w'.tasks[t].status == Running
            && w'.loops == w.loops + [w'.loops[n]] && w'.owner == w.owner + [t]
            && !w'.loops[n].aborted && w'.loops[n].pc == Planning && Knows(w', t, n, ToolCallsKept(w, t))
            && t in w'.snapshots && w'.snapshots[t] == w'.loops[n].engine
            && |ApiCallsKept(w', t)| <= |ApiCallsKept(w, t)| + 1
            && w'.running == w.running[t := n] && CallsOf(w', t) == CallsOf(w, t) && w'.queue == w.queue
            && w'.completions == w.completions + {n} && w'.moved == w.moved && w'.recorded == w.recorded
            && (forall u :: u in w.tasks && u != t ==> u in w'.tasks && w'.tasks[u] == w.tasks[u])
  {
    PushedIsOneLonger(ApiCallsKept(w, t), at, MINUTE, cfg.policy.apiCallsPerMinute);
    hide PushPruned;
  }

  /** A live planning loop whose list has room executes the harmless action. */
  lemma Executed(cfg: ManagerConfig, w: World, l: LoopId, ton: real, at: int)
    requires Lenient(cfg.policy) && 0.0 <= ton <= 1.0 && l < |w.owner| && Young(w, w.owner[l])
    requires l < |w.loops| && !w.loops[l].aborted && w.loops[l].pc == Planning
    requires Knows(w, w.owner[l], l, w.loops[l].engine.toolCalls)
    requires |Within(w.loops[l].engine.toolCalls, at, HOUR)| < cfg.policy.toolCallsPerHour
    ensures Enabled(w, Continue(l, PlanResolved(Paying(ton), at, at)))
    ensures var w', t := Step(cfg, w, Continue(l, PlanResolved(Paying(ton), at, at))), w.owner[l];
            && Young(w', t) && w'.tasks == w.tasks && w'.owner == w.owner && w'.running == w.running
            && w'.queue == w.queue && w'.completions == w.completions
            && w'.loops == w.loops[l := w'.loops[l]] && !w'.loops[l].aborted
            && w'.loops[l].pc == ExecutingTool(Paying(ton)) && SpendOf(Paying(ton)) == ton
            && CallsOf(w', t) == CallsOf(w, t) + [at] && t in w'.snapshots && w'.snapshots[t] == w'.loops[l].engine
            && Knows(w', t, l, PushPruned(Within(w.loops[l].engine.toolCalls, at, HOUR), at, HOUR,
                                          cfg.policy.toolCallsPerHour))
            && |w'.loops[l].engine.apiCalls| <= |w.loops[l].engine.apiCalls|
            && w'.moved == w.moved && w'.recorded == w.recorded
  {
    var v := ViewOf(w, w.owner[l], Counted(w.loops[l]));
    LenientAllows(cfg.policy, v.loop.engine, InputOf(v, Paying(ton)), at, ton);
    WithinIsShorter(w.loops[l].engine.apiCalls, at, MINUTE);
    hide Within, PushPruned, Allowed, NeedsEscalation, SpendOf;
  }

  /** A task whose only loop is the registered one, l, is halted. */
  lemma Halted(w: World, t: TaskId, l: LoopId, s: Status)
    requires Young(w, t) && l < |w.loops| && t in w.running && w.running[t] == l && t !in w.queue
    ensures var w' := SetStatus(Halt(w, t), t, s);
            && Young(w', t) && w'.tasks == w.tasks[t := w.tasks[t].(status := s)] && w'.owner == w.owner
            && w'.loops == w.loops[l := w.loops[l].(aborted := true)] && w'.running == w.running - {t}
            && w'.queue == w.queue && w'.snapshots == w.snapshots && w'.calls == w.calls && w'.completions == w.completions
            && w'.moved == w.moved && w'.recorded == w.recorded
  {
  }

  /** Such a task is paused. */
  lemma PausedStep(cfg: ManagerConfig, w: World, t: TaskId, l: LoopId)
    requires Young(w, t) && l < |w.loops| && t in w.running && w.running[t] == l && t !in w.queue
    ensures Enabled(w, Pause(t))
    ensures var w' := Step(cfg, w, Pause(t));
            && Young(w', t) && w'.tasks == w.tasks[t := w.tasks[t].(status := Paused)] && w'.owner == w.owner
            && w'.loops == w.loops[l := w.loops[l].(aborted := true)] && w'.running == w.running - {t}
            && w'.queue == w.queue && w'.snapshots == w.snapshots && w'.calls == w.calls && w'.completions == w.completions
            && w'.moved == w.moved && w'.recorded == w.recorded
  {
    Halted(w, t, l, Paused);
    hide Halt, SetStatus;
  }

  // ---------------------------------------------------------------- runs from an empty store

  lemma {:induction false} ReachesSnoc(cfg: ManagerConfig, w0: World, events: seq<Event>, w: World, e: Event)
    requires Reaches(cfg, w0, events, w) && Enabled(w, e)
    ensures Reaches(cfg, w0, events + [e], Step(cfg, w, e))
    decreases |events|
  {
    hide Step, Enabled;
    if events == [] {
      assert (events + [e])[1..] == [];
      assert Reaches(cfg, Step(cfg, w, e), [], Step(cfg, w, e));
    } else {
      ReachesSnoc(cfg, Step(cfg, w0, events[0]), events[1..], w, e);
      assert (events + [e])[1..] == events[1..] + [e];
    }
  }

  lemma {:induction false} InOrderSnoc(events: seq<Event>, e: Event, clock: int)
    requires AllInOrder(events, clock) && InOrder(e, ClockAtEnd(events, clock))
    ensures AllInOrder(events + [e], clock)
    ensures ClockAtEnd(events + [e], clock) == ClockAfter(e, ClockAtEnd(events, clock))
    decreases |events|
  {
    hide InOrder, ClockAfter;
    if events == [] {
      assert (events + [e])[1..] == [];
    } else {
      InOrderSnoc(events[1..], e, ClockAfter(events[0], clock));
      assert (events + [e])[1..] == events[1..] + [e];
    }
  }

  lemma {:induction false} TidySnoc(cfg: ManagerConfig, w0: World, events: seq<Event>, w: World, e: Event, clock: int)
    requires Reaches(cfg, w0, events, w) && NoneOverwrites(cfg, w0, events, clock)
    requires Enabled(w, e) && !Overwrites(w, e, ClockAtEnd(events, clock))
    ensures NoneOverwrites(cfg, w0, events + [e], clock)
    decreases |events|
  {
    hide Step, Enabled, Overwrites, ClockAfter;
    if events == [] {
      assert (events + [e])[1..] == [];
    } else {
      TidySnoc(cfg, Step(cfg, w0, events[0]), events[1..], w, e, ClockAfter(events[0], clock));
      assert (events + [e])[1..] == events[1..] + [e];
    }
  }

  lemma {:induction false} MindfulSnoc(cfg: ManagerConfig, w0: World, events: seq<Event>, w: World, e: Event, clock: int)
    requires Reaches(cfg, w0, events, w) && NoneForgets(cfg, w0, events, clock)
    requires Enabled(w, e) && !Forgets(w, e, ClockAtEnd(events, clock))
    ensures NoneForgets(cfg, w0, events + [e], clock)
    decreases |events|
  {
    hide Step, Enabled, Forgets, ClockAfter;
    if events == [] {
      assert (events + [e])[1..] == [];
    } else {
      MindfulSnoc(cfg, Step(cfg, w0, events[0]), events[1..], w, e, ClockAfter(events[0], clock));
      assert (events + [e])[1..] == events[1..] + [e];
    }
  }

  /** A run whose stopped loops overwrite nothing. */
  ghost predicate TidyRun(cfg: ManagerConfig, events: seq<Event>, w: World, clock: int) {
    && Reaches(cfg, EmptyWorld, events, w) && AllInOrder(events, 0) && ClockAtEnd(events, 0) == clock
    && NoneOverwrites(cfg, EmptyWorld, events, 0)
  }

  lemma TidyStep(cfg: ManagerConfig, events: seq<Event>, w: World, clock: int, e: Event)
    requires TidyRun(cfg, events, w, clock)
    requires Enabled(w, e) && InOrder(e, clock) && !Overwrites(w, e, clock)
    ensures TidyRun(cfg, events + [e], Step(cfg, w, e), ClockAfter(e, clock))
  {
    ReachesSnoc(cfg, EmptyWorld, events, w, e);
    InOrderSnoc(events, e, 0);
    TidySnoc(cfg, EmptyWorld, events, w, e, 0);
  }

  /** A run whose pauses forget nothing. */
  ghost predicate MindfulRun(cfg: ManagerConfig, events: seq<Event>, w: World, clock: int) {
    && Reaches(cfg, EmptyWorld, events, w) && AllInOrder(events, 0) && ClockAtEnd(events, 0) == clock
    && NoneForgets(cfg, EmptyWorld, events, 0)
  }

  lemma MindfulStep(cfg: ManagerConfig, events: seq<Event>, w: World, clock: int, e: Event)
    requires MindfulRun(cfg, events, w, clock)
    requires Enabled(w, e) && InOrder(e, clock) && !Forgets(w, e, clock)
    ensures MindfulRun(cfg, events + [e], Step(cfg, w, e), ClockAfter(e, clock))
  {
    ReachesSnoc(cfg, EmptyWorld, events, w, e);
    InOrderSnoc(events, e, 0);
    MindfulSnoc(cfg, EmptyWorld, events, w, e, 0);
  }

  /** The one task t has made its first call, at time 0, and waits for it. */
  predicate FirstCallMade(w: World, t: TaskId, ton: real)
    requires 0.0 <= ton <= 1.0
  {
    && Young(w, t) && w.tasks[t].status == Running && w.owner == [t] && |w.loops| == 1
    && !w.loops[0].aborted && w.loops[0].pc == ExecutingTool(Paying(ton)) && SpendOf(Paying(ton)) == ton
    && Knows(w, t, 0, [0]) && |w.loops[0].engine.apiCalls| <= 1
    && t in w.snapshots && w.snapshots[t] == w.loops[0].engine
    && CallsOf(w, t) == [0] && w.running == map[t := 0] && w.queue == [] && w.moved == w.recorded
  }

  lemma FirstLaunch(cfg: ManagerConfig, t: TaskId)
    requires cfg.maxParallelTasks >= 1
    ensures var w := Step(cfg, EmptyWorld, Start(t, NoConstraints, 0));
            && Young(w, t) && w.tasks[t].status == Running && w.owner == [t] && |w.loops| == 1
            && !w.loops[0].aborted && w.loops[0].pc == Planning && Knows(w, t, 0, [])
            && |w.loops[0].engine.apiCalls| <= 1 && t in w.snapshots && w.snapshots[t] == w.loops[0].engine
            && CallsOf(w, t) == [] && w.running == map[t := 0] && w.queue == [] && w.moved == w.recorded
            && w.completions == {0} && w.tasks.Keys == {t} && w.snapshots.Keys == {t}
    ensures Enabled(EmptyWorld, Start(t, NoConstraints, 0))
    ensures Reaches(cfg, EmptyWorld, [Start(t, NoConstraints, 0)], Step(cfg, EmptyWorld, Start(t, NoConstraints, 0)))
  {
    ReachesSnoc(cfg, EmptyWorld, [], EmptyWorld, Start(t, NoConstraints, 0));
    assert [] + [Start(t, NoConstraints, 0)] == [Start(t, NoConstraints, 0)];
    var created := EmptyWorld.(tasks := map[t := Task(Pending, 0, NoConstraints, None)], admitted := [t]);
    assert [] + [t] == [t];
    assert Step(cfg, EmptyWorld, Start(t, NoConstraints, 0)) == RunLoop(cfg, created, t, 0);
    Launched(cfg, created, t, 0);
    RunLoopBookkeeping(cfg, created, t, 0);
    hide RunLoop, Step;
  }

  lemma FirstPlan(cfg: ManagerConfig, t: TaskId, w: World, ton: real)
    requires Lenient(cfg.policy) && 0.0 <= ton <= 1.0
    requires Young(w, t) && w.tasks[t].status == Running && w.owner == [t] && |w.loops| == 1
    requires !w.loops[0].aborted && w.loops[0].pc == Planning && Knows(w, t, 0, []) && |w.loops[0].engine.apiCalls| <= 1
    requires CallsOf(w, t) == [] && w.running == map[t := 0] && w.queue == [] && w.moved == w.recorded
    ensures Enabled(w, Continue(0, PlanResolved(Paying(ton), 0, 0)))
    ensures FirstCallMade(Step(cfg, w, Continue(0, PlanResolved(Paying(ton), 0, 0))), t, ton)
  {
    PushedAlone(0, cfg.policy.toolCallsPerHour);
    Executed(cfg, w, 0, ton, 0);
    hide Step, PushPruned, Paying;
  }

  lemma FirstCall(cfg: ManagerConfig, t: TaskId, ton: real) returns (w: World, events: seq<Event>)
    requires Lenient(cfg.policy) && cfg.maxParallelTasks >= 1 && 0.0 <= ton <= 1.0
    ensures FirstCallMade(w, t, ton) && TidyRun(cfg, events, w, 0) && MindfulRun(cfg, events, w, 0)
  {
    var start, plan := Start(t, NoConstraints, 0), Continue(0, PlanResolved(Paying(ton), 0, 0));
    FirstLaunch(cfg, t);
    TidyStep(cfg, [], EmptyWorld, 0, start);
    MindfulStep(cfg, [], EmptyWorld, 0, start);
    assert [] + [start] == [start];
    hide Step, FirstCallMade, TidyRun, MindfulRun;
    var w1 := Step(cfg, EmptyWorld, start);
    FirstPlan(cfg, t, w1, ton);
    TidyStep(cfg, [start], w1, 0, plan);
    MindfulStep(cfg, [start], w1, 0, plan);
    w, events := Step(cfg, w1, plan), [start] + [plan];
  }

  // ---------------------------------------------------------------- spend that is forgotten

  lemma SpendForgotten(cfg: ManagerConfig, w: World, t: TaskId)
    requires Young(w, t) && w.owner == [t] && |w.loops| == 1
    requires w.loops[0].aborted && w.loops[0].pc == ExecutingTool(Paying(1.0)) && SpendOf(Paying(1.0)) == 1.0
    ensures Enabled(w, Continue(0, ToolResolved(true, 0)))
    ensures var w' := Step(cfg, w, Continue(0, ToolResolved(true, 0)));
            w'.moved == w.moved + 1.0 && w'.recorded == w.recorded
  {
    hide SpendOf, PushPruned;
  }

  /** A paying tool succeeds for a paused task: its spend is never recorded. */
  lemma ForgottenSpendIsReachable(cfg: ManagerConfig, t: TaskId) returns (events: seq<Event>, w: World)
    requires Lenient(cfg.policy) && cfg.maxParallelTasks >= 1
    ensures Reaches(cfg, EmptyWorld, events, w) && w.moved == w.recorded + 1.0
  {
    hide Step, Enabled, SpendOf, Reaches;
    var pause, done := Pause(t), Continue(0, ToolResolved(true, 0));
    var w2, es := FirstCall(cfg, t, 1.0);
    PausedStep(cfg, w2, t, 0);
    ReachesSnoc(cfg, EmptyWorld, es, w2, pause);
    var w3 := Step(cfg, w2, pause);
    SpendForgotten(cfg, w3, t);
    ReachesSnoc(cfg, EmptyWorld, es + [pause], w3, done);
    events, w := es + [pause] + [done], Step(cfg, w3, done);
  }

  // ---------------------------------------------------------------- calls that are forgotten

  lemma StoppedDropsSnapshot(cfg: ManagerConfig, w: World, t: TaskId)
    requires FirstCallMade(w, t, 0.0)
    ensures var stopped := Step(cfg, w, Stop(t));
            && Enabled(stopped, Continue(0, ToolResolved(true, 0)))
            && var w' := Step(cfg, stopped, Continue(0, ToolResolved(true, 0)));
               && Young(w', t) && w'.tasks[t].status == Cancelled && w'.owner == [t] && |w'.loops| == 1
               && w'.loops[0].pc.Returned? && t !in w'.snapshots && CallsOf(w', t) == [0]
               && w'.running == map[] && w'.queue == []
  {
    Halted(w, t, 0, Cancelled);
    hide RemoveFirst, Paying, SpendOf;
  }

  /** Tidy as it is, this run makes two calls of a task within an hour that admits one: a stopped task has dropped its
      snapshot, is paused, and resumes with an empty list. */
  lemma PausedFinishedTaskExceedsLimit(cfg: ManagerConfig, t: TaskId) returns (events: seq<Event>, w: World)
    requires Lenient(cfg.policy) && cfg.policy.toolCallsPerHour == 1 && cfg.maxParallelTasks >= 1
    ensures TidyRun(cfg, events, w, 1)
    ensures CallsIn(CallsOf(w, t), 1, HOUR) == 2
  {
    hide Step, TidyRun, MindfulRun, CallsIn, CallsSince, FirstCallMade;
    var w2, es := FirstCall(cfg, t, 0.0);
    var stop, done := Stop(t), Continue(0, ToolResolved(true, 0));
    var pause, resume, plan := Pause(t), ResumeTask(t, 1), Continue(1, PlanResolved(Paying(0.0), 1, 1));
    StoppedDropsSnapshot(cfg, w2, t);
    TidyStep(cfg, es, w2, 0, stop);
    var w3 := Step(cfg, w2, stop);
    TidyStep(cfg, es + [stop], w3, 0, done);
    var w4 := Step(cfg, w3, done);
    TidyStep(cfg, es + [stop] + [done], w4, 0, pause);
    PausedAgain(cfg, w4, t);
    var w5 := Step(cfg, w4, pause);
    TidyStep(cfg, es + [stop] + [done] + [pause], w5, 0, resume);
    var w6 := Step(cfg, w5, resume);
    TidyStep(cfg, es + [stop] + [done] + [pause] + [resume], w6, 1, plan);
    w, events := Step(cfg, w6, plan), es + [stop] + [done] + [pause] + [resume] + [plan];
    TwoCallsInAnHour();
  }

  lemma TwoCallsInAnHour()
    ensures CallsIn([0, 1], 1, HOUR) == 2 && CallsIn([0, HOUR, HOUR], HOUR, HOUR) == 2
  {
    assert [0, 1][..1] == [0] && [0][..0] == [];
    assert CallsIn([0], 1, HOUR) == 1 && CallsIn([0], HOUR, HOUR) == 0;
    assert [0, HOUR, HOUR][..2] == [0, HOUR] && [0, HOUR][..1] == [0];
    assert CallsIn([0, HOUR], HOUR, HOUR) == 1;
  }

  lemma PausedAgain(cfg: ManagerConfig, w: World, t: TaskId)
    requires Lenient(cfg.policy) && Young(w, t) && w.tasks[t].status == Cancelled && w.owner == [t] && |w.loops| == 1
    requires w.loops[0].pc.Returned? && t !in w.snapshots && CallsOf(w, t) == [0] && w.running == map[] && w.queue == []
    ensures var paused := Step(cfg, w, Pause(t));
            && Young(paused, t) && paused.owner == [t] && paused.loops == w.loops
            && var resumed := Step(cfg, paused, ResumeTask(t, 1));
               && Young(resumed, t) && Enabled(resumed, Continue(1, PlanResolved(Paying(0.0), 1, 1)))
               && CallsOf(Step(cfg, resumed, Continue(1, PlanResolved(Paying(0.0), 1, 1))), t) == [0, 1]
  {
    IdlePaused(cfg, w, t);
    var paused := Step(cfg, w, Pause(t));
    Launched(cfg, paused, t, 1);
    hide RunLoop, PushPruned, Within;
    var resumed := Step(cfg, paused, ResumeTask(t, 1));
    assert resumed == RunLoop(cfg, paused, t, 1);
    NothingWithin(1, HOUR);
    Executed(cfg, resumed, 1, 0.0, 1);
    hide *;
    assert [0] + [1] == [0, 1];
  }

  lemma NothingWithin(now: int, window: int)
    ensures Within([], now, window) == []
  {
  }

  /** Pausing a task without loop only changes its status. */
  lemma IdlePaused(cfg: ManagerConfig, w: World, t: TaskId)
    requires t in w.tasks && w.running == map[] && w.queue == []
    ensures Step(cfg, w, Pause(t)) == w.(tasks := w.tasks[t := w.tasks[t].(status := Paused)])
  {
  }

  // ---------------------------------------------------------------- a resume that does not wait

  /** Pause and resume of a task whose registered loop is l: a further loop plans with what the snapshot kept. */
  lemma PausedAndResumed(cfg: ManagerConfig, w: World, t: TaskId, l: LoopId, at: int)
    requires Young(w, t) && l < |w.loops| && t in w.running && w.running[t] == l && w.queue == []
    requires |ApiCallsKept(w, t)| < 10
    ensures var w', n := Step(cfg, Step(cfg, w, Pause(t)), ResumeTask(t, at)), |w.loops|;
            && Young(w', t) && w'.tasks[t].status == Running && w'.owner == w.owner + [t]
            && w'.loops == w.loops[l := w.loops[l].(aborted := true)] + [w'.loops[n]]
            && !w'.loops[n].aborted && w'.loops[n].pc == Planning && Knows(w', t, n, ToolCallsKept(w, t))
            && t in w'.snapshots && w'.snapshots[t] == w'.loops[n].engine
            && |ApiCallsKept(w', t)| <= |ApiCallsKept(w, t)| + 1
            && t in w'.running && w'.running[t] == n && w'.queue == [] && CallsOf(w', t) == CallsOf(w, t)
  {
    PausedStep(cfg, w, t, l);
    var paused := Step(cfg, w, Pause(t));
    Launched(cfg, paused, t, at);
    hide RunLoop, RemoveFirst, PushPruned;
  }

  /** The rejected tool of a stopped loop: the loop writes its own lists over the snapshot. */
  lemma OldLoopSaves(cfg: ManagerConfig, w: World, t: TaskId, at: int)
    requires Young(w, t) && w.tasks[t].status == Running && 0 < |w.loops| && w.owner[0] == t
    requires w.loops[0].pc.ExecutingTool? && |w.loops[0].engine.apiCalls| <= 1
    ensures var e := Continue(0, ToolRejected(at));
            && Enabled(w, e)
            && var w' := Step(cfg, w, e);
               && Young(w', t) && w'.tasks == w.tasks && w'.owner == w.owner && w'.running == w.running
               && w'.loops == w.loops[0 := w'.loops[0]] && w'.queue == w.queue && CallsOf(w', t) == CallsOf(w, t)
               && ToolCallsKept(w', t) == w.loops[0].engine.toolCalls && |ApiCallsKept(w', t)| <= 2
  {
    PushedIsOneLonger(w.loops[0].engine.apiCalls, at, MINUTE, cfg.policy.apiCallsPerMinute);
    hide PushPruned;
  }

  /** The second loop has made its call, an hour after the first. */
  predicate SecondCallMade(w: World, t: TaskId) {
    && Young(w, t) && w.tasks[t].status == Running && w.owner == [t, t] && |w.loops| == 2
    && w.loops[0].pc.ExecutingTool? && w.loops[0].engine.toolCalls == [0] && |w.loops[0].engine.apiCalls| <= 1
    && CallsOf(w, t) == [0, HOUR] && t in w.running && w.running[t] == 1 && w.queue == []
  }

  lemma SecondCall(cfg: ManagerConfig, t: TaskId, w: World)
    requires Lenient(cfg.policy) && cfg.policy.toolCallsPerHour == 1 && FirstCallMade(w, t, 0.0)
    ensures var resumed := Step(cfg, Step(cfg, w, Pause(t)), ResumeTask(t, HOUR));
            && Enabled(resumed, Continue(1, PlanResolved(Paying(0.0), HOUR, HOUR)))
            && SecondCallMade(Step(cfg, resumed, Continue(1, PlanResolved(Paying(0.0), HOUR, HOUR))), t)
  {
    PausedAndResumed(cfg, w, t, 0, HOUR);
    hide Step, Enabled;
    var resumed := Step(cfg, Step(cfg, w, Pause(t)), ResumeTask(t, HOUR));
    HourLater(cfg, resumed, 1);
    assert [t] + [t] == [t, t] && [0] + [HOUR] == [0, HOUR];
  }

  /** A live planning loop that remembers one call made an hour ago makes another. */
  lemma HourLater(cfg: ManagerConfig, w: World, l: LoopId)
    requires Lenient(cfg.policy) && l < |w.owner| && Young(w, w.owner[l])
    requires l < |w.loops| && !w.loops[l].aborted && w.loops[l].pc == Planning && Knows(w, w.owner[l], l, [0])
    ensures Enabled(w, Continue(l, PlanResolved(Paying(0.0), HOUR, HOUR)))
    ensures var w', t := Step(cfg, w, Continue(l, PlanResolved(Paying(0.0), HOUR, HOUR))), w.owner[l];
            && Young(w', t) && w'.tasks == w.tasks && w'.owner == w.owner && w'.running == w.running
            && w'.queue == w.queue && w'.loops == w.loops[l := w'.loops[l]] && CallsOf(w', t) == CallsOf(w, t) + [HOUR]
  {
    assert [0][1..] == [] && Within([0], HOUR, HOUR) == [];
    Executed(cfg, w, l, 0.0, HOUR);
    hide Step, Enabled, PushPruned, Paying, SpendOf, Within;
  }

  lemma ThirdCall(cfg: ManagerConfig, t: TaskId, w: World)
    requires Lenient(cfg.policy) && cfg.policy.toolCallsPerHour == 1 && SecondCallMade(w, t)
    ensures var saved := Step(cfg, w, Continue(0, ToolRejected(HOUR)));
            && Enabled(w, Continue(0, ToolRejected(HOUR)))
            && !IsFinished(StatusOf(w, t)) && !IsFinished(StatusOf(saved, t))
            && var resumed := Step(cfg, Step(cfg, saved, Pause(t)), ResumeTask(t, HOUR));
               && Enabled(resumed, Continue(2, PlanResolved(Paying(0.0), HOUR, HOUR)))
               && CallsOf(Step(cfg, resumed, Continue(2, PlanResolved(Paying(0.0), HOUR, HOUR))), t) == [0, HOUR, HOUR]
  {
    OldLoopSaves(cfg, w, t, HOUR);
    hide Step, Enabled;
    var saved := Step(cfg, w, Continue(0, ToolRejected(HOUR)));
    PausedAndResumed(cfg, saved, t, 1, HOUR);
    var resumed := Step(cfg, Step(cfg, saved, Pause(t)), ResumeTask(t, HOUR));
    HourLater(cfg, resumed, 2);
    assert [0, HOUR] + [HOUR] == [0, HOUR, HOUR];
  }

  /** Mindful as it is, this run makes two calls of a task at the same moment in an hour that admits one: its loop is
      paused and resumed while its tool runs, and the old loop writes its list over the snapshot of the new one. */
  lemma ImpatientResumeExceedsLimit(cfg: ManagerConfig, t: TaskId) returns (events: seq<Event>, w: World)
    requires Lenient(cfg.policy) && cfg.policy.toolCallsPerHour == 1 && cfg.maxParallelTasks >= 1
    ensures MindfulRun(cfg, events, w, HOUR)
    ensures CallsIn(CallsOf(w, t), HOUR, HOUR) == 2
  {
    var w2, es := FirstCall(cfg, t, 0.0);
    var pause, resume := Pause(t), ResumeTask(t, HOUR);
    SecondCall(cfg, t, w2);
    assert !IsFinished(StatusOf(w2, t));
    hide Step, FirstCallMade, MindfulRun, TidyRun, CallsIn;
    MindfulStep(cfg, es, w2, 0, pause);
    var w3 := Step(cfg, w2, pause);
    MindfulStep(cfg, es + [pause], w3, 0, resume);
    var w4 := Step(cfg, w3, resume);
    var second := Continue(1, PlanResolved(Paying(0.0), HOUR, HOUR));
    MindfulStep(cfg, es + [pause] + [resume], w4, HOUR, second);
    var w5 := Step(cfg, w4, second);
    events := es + [pause] + [resume] + [second];
    ThirdCall(cfg, t, w5);
    var save, third := Continue(0, ToolRejected(HOUR)), Continue(2, PlanResolved(Paying(0.0), HOUR, HOUR));
    MindfulStep(cfg, events, w5, HOUR, save);
    var w6 := Step(cfg, w5, save);
    MindfulStep(cfg, events + [save], w6, HOUR, pause);
    var w7 := Step(cfg, w6, pause);
    MindfulStep(cfg, events + [save] + [pause], w7, HOUR, resume);
    var w8 := Step(cfg, w7, resume);
    MindfulStep(cfg, events + [save] + [pause] + [resume], w8, HOUR, third);
    w, events := Step(cfg, w8, third), events + [save] + [pause] + [resume] + [third];
    TwoCallsInAnHour();
  }

  // ---------------------------------------------------------------- the cap overfilled

  /** One task started and paused in an otherwise empty engine. */
  predicate OnePaused(w: World, a: TaskId, queue: seq<TaskId>) {
    && Young(w, a) && w.tasks[a].status == Paused && w.owner == [a] && |w.loops| == 1
    && w.loops[0].aborted && w.loops[0].pc == Planning && w.running == map[] && w.queue == queue && w.completions == {0}
  }

  lemma StartedAndPaused(cfg: ManagerConfig, a: TaskId) returns (events: seq<Event>, w: World)
    requires cfg.maxParallelTasks == 1
    ensures Reaches(cfg, EmptyWorld, events, w) && OnePaused(w, a, []) && w.tasks.Keys == {a} && w.snapshots.Keys == {a}
  {
    var start, pause := Start(a, NoConstraints, 0), Pause(a);
    hide Step, Enabled, Reaches;
    FirstLaunch(cfg, a);
    var w1 := Step(cfg, EmptyWorld, start);
    PausedStep(cfg, w1, a, 0);
    ReachesSnoc(cfg, EmptyWorld, [start], w1, pause);
    events, w := [start] + [pause], Step(cfg, w1, pause);
  }

  lemma OtherStarted(cfg: ManagerConfig, w: World, a: TaskId, b: TaskId)
    requires cfg.maxParallelTasks == 1 && a != b && Young(w, a) && b !in w.tasks && b !in w.snapshots && w.running == map[]
    ensures var w' := Step(cfg, w, Start(b, NoConstraints, 0));
            && w'.tasks.Keys == w.tasks.Keys + {b} && (forall t :: t in w.tasks ==> w'.tasks[t] == w.tasks[t])
            && w'.running == map[b := |w.loops|] && w'.queue == w.queue
            && |w'.loops| == |w'.owner| == |w.loops| + 1
            && w'.loops[..|w.loops|] == w.loops && w'.owner == w.owner + [b] && w'.completions == w.completions + {|w.loops|}
  {
    var created := w.(tasks := w.tasks[b := Task(Pending, 0, NoConstraints, None)], admitted := w.admitted + [b]);
    assert Step(cfg, w, Start(b, NoConstraints, 0)) == RunLoop(cfg, created, b, 0);
    Launched(cfg, created, b, 0);
    RunLoopBookkeeping(cfg, created, b, 0);
    hide RunLoop;
  }

  /** Two tasks in one slot, because a resume does not look at the cap. */
  lemma ResumeOverfills(cfg: ManagerConfig, a: TaskId, b: TaskId) returns (events: seq<Event>, w: World)
    requires cfg.maxParallelTasks == 1 && a != b
    ensures Reaches(cfg, EmptyWorld, events, w) && |w.running| == 2
  {
    var es, w2 := StartedAndPaused(cfg, a);
    var start, resume := Start(b, NoConstraints, 0), ResumeTask(a, 0);
    ReachesSnoc(cfg, EmptyWorld, es, w2, start);
    OtherStarted(cfg, w2, a, b);
    var w3 := Step(cfg, w2, start);
    ReachesSnoc(cfg, EmptyWorld, es + [start], w3, resume);
    w, events := Step(cfg, w3, resume), es + [start] + [resume];
    assert w == RunLoop(cfg, w3, a, 0);
    RunLoopBookkeeping(cfg, w3, a, 0);
    hide RunLoop, Step;
    assert w.running.Keys == {a, b};
  }

  lemma OtherQueued(cfg: ManagerConfig, w: World, b: TaskId)
    requires cfg.maxParallelTasks == 1 && |w.running| == 1 && b !in w.tasks
    ensures Enabled(w, Start(b, NoConstraints, 0))
    ensures var w' := Step(cfg, w, Start(b, NoConstraints, 0));
            && w'.tasks.Keys == w.tasks.Keys + {b} && (forall t :: t in w.tasks ==> w'.tasks[t] == w.tasks[t])
            && w'.queue == w.queue + [b] && w'.loops == w.loops && w'.owner == w.owner && w'.running == w.running
            && w'.snapshots == w.snapshots && w'.completions == w.completions && w'.spent == w.spent
  {
    hide RunLoop;
  }

  lemma QueuedAndPaused(cfg: ManagerConfig, a: TaskId, b: TaskId) returns (events: seq<Event>, w: World)
    requires cfg.maxParallelTasks == 1 && a != b
    ensures Reaches(cfg, EmptyWorld, events, w) && OnePaused(w, a, [b]) && w.tasks.Keys == {a, b} && w.snapshots.Keys == {a}
  {
    var startA, startB, pause := Start(a, NoConstraints, 0), Start(b, NoConstraints, 0), Pause(a);
    hide Step, Enabled, Reaches;
    FirstLaunch(cfg, a);
    var w1 := Step(cfg, EmptyWorld, startA);
    assert |w1.running| == 1;
    OtherQueued(cfg, w1, b);
    ReachesSnoc(cfg, EmptyWorld, [startA], w1, startB);
    var w2 := Step(cfg, w1, startB);
    PausedStep(cfg, w2, a, 0);
    ReachesSnoc(cfg, EmptyWorld, [startA] + [startB], w2, pause);
    events, w := [startA] + [startB] + [pause], Step(cfg, w2, pause);
  }

  lemma StoppedPlannerReturns(cfg: ManagerConfig, w: World, a: TaskId)
    requires a in w.tasks && w.tasks[a].status == Paused && 0 < |w.loops| && 0 < |w.owner| && w.owner[0] == a
    requires w.loops[0].aborted && w.loops[0].pc == Planning
    ensures Enabled(w, Continue(0, PlanRejected))
    ensures var w' := Step(cfg, w, Continue(0, PlanRejected));
            && w'.loops[0].pc.Returned? && |w'.loops| == |w.loops| && w'.owner == w.owner && w'.running == w.running
            && w'.queue == w.queue && w'.completions == w.completions && w'.tasks.Keys == w.tasks.Keys
  {
    assert a in w.tasks;
  }

  lemma StrangerDrains(cfg: ManagerConfig, w: World, a: TaskId, b: TaskId, c: TaskId)
    requires 0 < |w.loops| == |w.owner| && w.loops[0].pc.Returned? && w.owner[0] == a && 0 in w.completions
    requires w.running == map[c := 1] && w.queue == [b] && b in w.tasks && a != c && b != c
    ensures Enabled(w, Settle(0, 0)) && Step(cfg, w, Settle(0, 0)).running.Keys == {b, c}
  {
    var d := Deregister(w, 0).(queue := []);
    assert w.queue[1..] == [];
    assert Step(cfg, w, Settle(0, 0)) == RunLoop(cfg, d, b, 0);
    RunLoopBookkeeping(cfg, d, b, 0);
    hide RunLoop;
  }

  /** The stopped loop of the paused task unwinds and drains the queue although the slot is taken again. */
  lemma DrainStarts(cfg: ManagerConfig, w: World, a: TaskId, b: TaskId, c: TaskId)
    requires OnePaused(w, a, [b]) && w.tasks.Keys == {a, b} && w.snapshots.Keys == {a}
    requires cfg.maxParallelTasks == 1 && a != b && c !in {a, b}
    ensures var w1 := Step(cfg, w, Start(c, NoConstraints, 0));
            && Enabled(w1, Continue(0, PlanRejected))
            && var w2 := Step(cfg, w1, Continue(0, PlanRejected));
               && Enabled(w2, Settle(0, 0)) && Step(cfg, w2, Settle(0, 0)).running.Keys == {b, c}
  {
    OtherStarted(cfg, w, a, c);
    hide Step, Enabled;
    var w1 := Step(cfg, w, Start(c, NoConstraints, 0));
    assert w1.loops[0] == w1.loops[..1][0] && w1.tasks.Keys == {a, b, c};
    StoppedPlannerReturns(cfg, w1, a);
    StrangerDrains(cfg, Step(cfg, w1, Continue(0, PlanRejected)), a, b, c);
  }

  /** Two tasks in one slot, because a completion drains the queue without looking at the cap. */
  lemma DrainOverfills(cfg: ManagerConfig, a: TaskId, b: TaskId, c: TaskId) returns (events: seq<Event>, w: World)
    requires cfg.maxParallelTasks == 1 && a != b && c !in {a, b}
    ensures Reaches(cfg, EmptyWorld, events, w) && |w.running| == 2
  {
    var es, w0 := QueuedAndPaused(cfg, a, b);
    DrainStarts(cfg, w0, a, b, c);
    hide Step, OnePaused;
    var start, reject, settle := Start(c, NoConstraints, 0), Continue(0, PlanRejected), Settle(0, 0);
    ReachesSnoc(cfg, EmptyWorld, es, w0, start);
    var w1 := Step(cfg, w0, start);
    ReachesSnoc(cfg, EmptyWorld, es + [start], w1, reject);
    var w2 := Step(cfg, w1, reject);
    ReachesSnoc(cfg, EmptyWorld, es + [start] + [reject], w2, settle);
    w, events := Step(cfg, w2, settle), es + [start] + [reject] + [settle];
    assert |w.running.Keys| == |w.running|;
  }
}
