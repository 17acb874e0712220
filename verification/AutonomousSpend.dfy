/** The shared daily TON budget under concurrent loops, and whether the store records what was really spent. */
module AutonomousSpend {
  import opened Common
  import opened PolicyEngine
  import opened AutonomousLoop
  import opened AutonomousWorld
  import opened AutonomousInvariant
  import opened AutonomousScheduling

  /** TON that checked tools may still spend, over all loops. */
  function TotalInFlight(loops: seq<Loop>): real {
    if loops == [] then 0.0 else TotalInFlight(loops[..|loops| - 1]) + InFlight(loops[|loops| - 1])
  }

  /** Loops that are executing a tool. */
  function Executing(loops: seq<Loop>): nat {
    if loops == [] then 0 else Executing(loops[..|loops| - 1]) + if loops[|loops| - 1].pc.ExecutingTool? then 1 else 0
  }

  lemma {:induction false} UpdateSums(loops: seq<Loop>, l: nat, x: Loop)
    requires l < |loops|
    ensures TotalInFlight(loops[l := x]) == TotalInFlight(loops) - InFlight(loops[l]) + InFlight(x)
    ensures Executing(loops[l := x]) + (if loops[l].pc.ExecutingTool? then 1 else 0)
            == Executing(loops) + if x.pc.ExecutingTool? then 1 else 0
  {
    var init := loops[..|loops| - 1];
    if l == |loops| - 1 {
      assert loops[l := x][..l] == init;
    } else {
      assert loops[l := x][..|loops| - 1] == init[l := x];
      UpdateSums(init, l, x);
    }
  }

  lemma AppendSums(loops: seq<Loop>, x: Loop)
    ensures TotalInFlight(loops + [x]) == TotalInFlight(loops) + InFlight(x)
    ensures Executing(loops + [x]) == Executing(loops) + if x.pc.ExecutingTool? then 1 else 0
  {
    assert (loops + [x])[..|loops|] == loops;
  }

  /** Stopping loops changes neither sum. */
  lemma {:induction false} SameSums(loops: seq<Loop>, loops': seq<Loop>)
    requires |loops| == |loops'| && forall i :: 0 <= i < |loops| ==> loops[i].pc == loops'[i].pc
    ensures TotalInFlight(loops') == TotalInFlight(loops) && Executing(loops') == Executing(loops)
  {
    if loops != [] {
      SameSums(loops[..|loops| - 1], loops'[..|loops| - 1]);
    }
  }

  /** The largest amount a single action of a task can spend unasked: its budget and the confirmation threshold both
      bound it. */
  function PerAction(cfg: PolicyConfig, c: Constraints): (b: real)
    ensures b >= 0.0
  {
    var budget := c.budgetTON.GetOr(cfg.perTask);
    var largest := if budget < cfg.requireConfirmationAbove then budget else cfg.requireConfirmationAbove;
    if largest > 0.0 then largest else 0.0
  }

  /** n times the amount b. */
  function Times(n: nat, b: real): real { if n == 0 then 0.0 else Times(n - 1, b) + b }

  lemma {:induction false} TimesMonotone(m: nat, n: nat, b: real)
    requires m <= n && b >= 0.0
    ensures 0.0 <= Times(m, b) <= Times(n, b)
  {
    if m < n {
      TimesMonotone(m, n - 1, b);
    } else if m > 0 {
      TimesMonotone(m - 1, m - 1, b);
    }
  }

  lemma {:induction false} TotalBounded(loops: seq<Loop>, b: real)
    requires b >= 0.0 && forall i :: 0 <= i < |loops| ==> InFlight(loops[i]) <= b
    ensures 0.0 <= TotalInFlight(loops) <= Times(Executing(loops), b)
  {
    if loops != [] {
      TotalBounded(loops[..|loops| - 1], b);
    }
  }

  /** b bounds what a single action of any stored task can spend. */
  ghost predicate TasksWithin(cfg: ManagerConfig, w: World, b: real) {
    forall t :: t in w.tasks ==> PerAction(cfg.policy, w.tasks[t].constraints) <= b
  }

  /** And of any task that is started. */
  predicate StartWithin(cfg: ManagerConfig, e: Event, b: real) { e.Start? ==> PerAction(cfg.policy, e.constraints) <= b }

  predicate StartsWithin(cfg: ManagerConfig, events: seq<Event>, b: real) {
    forall i :: 0 <= i < |events| ==> StartWithin(cfg, events[i], b)
  }

  /** With at most k tools executing at any time, none for more than b, the recorded spend plus what is in flight stays
      below the daily budget by all but k - 1 times b. */
  ghost predicate Budgeted(cfg: ManagerConfig, w: World, k: nat, b: real)
    requires k >= 1
  {
    && w.spent >= 0.0 && b >= 0.0 && TasksWithin(cfg, w, b)
    && (forall l :: 0 <= l < |w.loops| ==> InFlight(w.loops[l]) <= b)
    && w.spent + TotalInFlight(w.loops) <= cfg.policy.daily + Times(k - 1, b)
  }

  // ---------------------------------------------------------------- one segment

  /** What a segment does to the money. Only a check that lets an action through puts a new amount in flight, and then
      the amount is one the task may spend unasked and fits the day together with what is recorded. */
  lemma SegmentMoney(cfg: PolicyConfig, v: View, o: Outcome)
    requires Awaits(v.loop.pc, o) && v.spent >= 0.0
    ensures var v' := Segment(cfg, v, o);
            && v'.spent >= v.spent
            && (o.PlanResolved? && v'.loop.pc.ExecutingTool? ==>
                  v'.spent == v.spent && InFlight(v'.loop) <= PerAction(cfg, v.row.constraints) &&
                  (InFlight(v'.loop) > 0.0 ==> v.spent + InFlight(v'.loop) <= cfg.daily))
            && (!(o.PlanResolved? && v'.loop.pc.ExecutingTool?) ==>
                  !v'.loop.pc.ExecutingTool? && v'.spent + InFlight(v'.loop) <= v.spent + InFlight(v.loop))
  {
    if o.PlanResolved? && !v.loop.aborted && Segment(cfg, v, o).loop.pc.ExecutingTool? {
      LetThrough(cfg, v.loop.engine, InputOf(v, o.action), o.checkedAt);
    }
  }

  lemma ContinueBudget(cfg: ManagerConfig, w: World, l: LoopId, o: Outcome, k: nat, b: real)
    requires Enabled(w, Continue(l, o)) && 1 <= k && Budgeted(cfg, w, k, b)
    requires Executing(Step(cfg, w, Continue(l, o)).loops) <= k
    ensures Budgeted(cfg, Step(cfg, w, Continue(l, o)), k, b)
  {
    var v := ViewOf(w, w.owner[l], Counted(w.loops[l]));
    var v' := Segment(cfg.policy, v, o);
    SegmentMoney(cfg.policy, v, o);
    UpdateSums(w.loops, l, v'.loop);
    var loops' := w.loops[l := v'.loop];
    SegmentMovesForward(cfg.policy, v, o);
    assert InFlight(v'.loop) <= b;
    if o.PlanResolved? && v'.loop.pc.ExecutingTool? && InFlight(v'.loop) > 0.0 {
      TotalBounded(w.loops, b);
      assert Executing(w.loops) + 1 == Executing(loops');
      TimesMonotone(Executing(w.loops), k - 1, b);
    }
  }

  lemma LaunchBudget(cfg: ManagerConfig, w: World, t: TaskId, at: int, k: nat, b: real)
    requires 1 <= k && Budgeted(cfg, w, k, b) && t in w.tasks
    ensures Budgeted(cfg, RunLoop(cfg, w, t, at), k, b)
  {
    var n := |w.loops|;
    var start := w.(loops := w.loops + [FreshLoop(w.tasks[t].step)], owner := w.owner + [t],
                    running := w.running[t := n], completions := w.completions + {n}, launched := w.launched + [t]);
    BeginAccounts(cfg.policy, ViewOf(start, t, start.loops[n]), at);
    var w' := RunLoop(cfg, w, t, at);
    assert w'.loops == w.loops + [w'.loops[n]];
    AppendSums(w.loops, w'.loops[n]);
  }

  lemma QuietBudget(cfg: ManagerConfig, w: World, w': World, k: nat, b: real)
    requires 1 <= k && Budgeted(cfg, w, k, b) && 0.0 <= w'.spent <= w.spent && |w'.loops| == |w.loops|
    requires forall l :: 0 <= l < |w.loops| ==> w'.loops[l].pc == w.loops[l].pc
    requires forall t :: t in w'.tasks ==> t in w.tasks && w'.tasks[t].constraints == w.tasks[t].constraints
    ensures Budgeted(cfg, w', k, b)
  {
    SameSums(w.loops, w'.loops);
    forall l | 0 <= l < |w'.loops|
      ensures InFlight(w'.loops[l]) <= b
    {
      assert InFlight(w.loops[l]) <= b;
    }
  }

  lemma StepBudget(cfg: ManagerConfig, w: World, e: Event, k: nat, b: real)
    requires Enabled(w, e) && 1 <= k && Budgeted(cfg, w, k, b) && StartWithin(cfg, e, b)
    requires Executing(Step(cfg, w, e).loops) <= k
    ensures Budgeted(cfg, Step(cfg, w, e), k, b)
  {
    assert w.spent >= 0.0;
    hide RunLoop, RemoveFirst, Segment, Budgeted, PerAction;
    match e
    case Start(t, c, at) => StartBudget(cfg, w, t, c, at, k, b);
    case Pause(t) => HaltBudget(cfg, w, t, Paused, k, b);
    case ResumeTask(t, at) => if t in w.tasks { LaunchBudget(cfg, w, t, at, k, b); }
    case Stop(t) => HaltBudget(cfg, w, t, Cancelled, k, b);
    case StopAll => QuietBudget(cfg, w, StopAllTasks(w), k, b);
    case Continue(l, o) => ContinueBudget(cfg, w, l, o, k, b);
    case Settle(l, at) => SettleBudget(cfg, w, l, at, k, b);
    case NewDay => QuietBudget(cfg, w, w.(spent := 0.0), k, b);
    case CancelStale(t) => CancelBudget(cfg, w, t, k, b);
  }

  lemma SettleBudget(cfg: ManagerConfig, w: World, l: LoopId, at: int, k: nat, b: real)
    requires Enabled(w, Settle(l, at)) && 1 <= k && Budgeted(cfg, w, k, b)
    ensures Budgeted(cfg, SettleLoop(cfg, w, l, at), k, b)
  {
    if w.queue != [] {
      LaunchBudget(cfg, Deregister(w, l).(queue := w.queue[1..]), w.queue[0], at, k, b);
    }
  }

  lemma CancelBudget(cfg: ManagerConfig, w: World, t: TaskId, k: nat, b: real)
    requires 1 <= k && Budgeted(cfg, w, k, b)
    ensures Budgeted(cfg, SetStatus(w, t, Cancelled), k, b)
  {
    QuietBudget(cfg, w, SetStatus(w, t, Cancelled), k, b);
  }

  lemma StartBudget(cfg: ManagerConfig, w: World, t: TaskId, c: Constraints, at: int, k: nat, b: real)
    requires 1 <= k && Budgeted(cfg, w, k, b) && PerAction(cfg.policy, c) <= b
    ensures Budgeted(cfg, StartTask(cfg, w, t, c, at), k, b)
  {
    var created := w.(tasks := w.tasks[t := Task(Pending, 0, c, None)], admitted := w.admitted + [t]);
    if |w.running| < cfg.maxParallelTasks {
      LaunchBudget(cfg, created, t, at, k, b);
    }
  }

  lemma HaltBudget(cfg: ManagerConfig, w: World, t: TaskId, s: Status, k: nat, b: real)
    requires 1 <= k && Budgeted(cfg, w, k, b)
    ensures Budgeted(cfg, SetStatus(Halt(w, t), t, s), k, b)
  {
    assert w.spent >= 0.0;
    hide RemoveFirst, Budgeted;
    QuietBudget(cfg, w, Halt(w, t), k, b);
    QuietBudget(cfg, Halt(w, t), SetStatus(Halt(w, t), t, s), k, b);
  }

  /** At every moment of the run at most k loops are executing a tool. */
  ghost predicate AtMostExecuting(cfg: ManagerConfig, w: World, events: seq<Event>, k: nat)
    decreases |events|
  {
    Executing(w.loops) <= k &&
    (events == [] || (Enabled(w, events[0]) && AtMostExecuting(cfg, Step(cfg, w, events[0]), events[1..], k)))
  }

  lemma {:induction false} RunBudgeted(cfg: ManagerConfig, w: World, events: seq<Event>, w': World, k: nat, b: real)
    requires 1 <= k && Budgeted(cfg, w, k, b)
    requires Reaches(cfg, w, events, w') && AtMostExecuting(cfg, w, events, k) && StartsWithin(cfg, events, b)
    ensures Budgeted(cfg, w', k, b)
    decreases |events|
  {
    if events != [] {
      assert StartsWithin(cfg, events[1..], b);
      StepBudget(cfg, w, events[0], k, b);
      RunBudgeted(cfg, Step(cfg, w, events[0]), events[1..], w', k, b);
    }
  }

  /** Main theorem: if at most k tools execute at a time and no task may spend more than b on one action, recorded daily
      spend plus checked but unrecorded spend never exceeds the daily budget by more than (k - 1) times b; with k = 1 it
      never exceeds it at all. */
  lemma DailySpendBounded(cfg: ManagerConfig, w: World, events: seq<Event>, w': World, k: nat, b: real)
    requires 1 <= k && Budgeted(cfg, w, k, b)
    requires Reaches(cfg, w, events, w') && AtMostExecuting(cfg, w, events, k) && StartsWithin(cfg, events, b)
    ensures w'.spent + TotalInFlight(w'.loops) <= cfg.policy.daily + Times(k - 1, b)
    ensures w'.spent <= cfg.policy.daily + Times(k - 1, b)
    ensures k == 1 ==> w'.spent <= cfg.policy.daily
  {
    RunBudgeted(cfg, w, events, w', k, b);
    TotalBounded(w'.loops, b);
  }

  // ---------------------------------------------------------------- the cap bounds the overshoot

  /** With every unreturned loop registered, at most as many tools execute as slots are taken. */
  lemma ExecutingWithinSlots(w: World)
    requires Scheduled(w)
    requires forall l :: l in w.completions ==>
                           l < |w.owner| && w.owner[l] in w.running && w.running[w.owner[l]] == l
    ensures Executing(w.loops) <= |w.running|
  {
    var ids := set l: LoopId | 0 <= l < |w.loops| && w.loops[l].pc.ExecutingTool?;
    ExecutingIsCount(w.loops, |w.loops|);
    forall l | l in ids
      ensures l in w.completions
    {
      assert LoopOk(w, l);
    }
    assert (set l: LoopId | 0 <= l < |w.loops| && l < |w.loops| && w.loops[l].pc.ExecutingTool?) == ids;
    InjectedSize(ids, w.running, w.owner);
  }

  lemma {:induction false} ExecutingIsCount(loops: seq<Loop>, n: nat)
    requires n == |loops|
    ensures Executing(loops) == |set l: LoopId | 0 <= l < n && l < |loops| && loops[l].pc.ExecutingTool?|
  {
    var all := set l: LoopId | 0 <= l < n && l < |loops| && loops[l].pc.ExecutingTool?;
    if n > 0 {
      var init := loops[..n - 1];
      ExecutingIsCount(init, n - 1);
      var before := set l: LoopId | 0 <= l < n - 1 && l < |init| && init[l].pc.ExecutingTool?;
      assert all == before + if loops[n - 1].pc.ExecutingTool? then {n - 1} else {};
    }
  }

  /** Loops registered under distinct tasks are no more than the registered tasks. */
  lemma {:induction false} InjectedSize(ids: set<LoopId>, running: map<TaskId, LoopId>, owner: seq<TaskId>)
    requires forall l :: l in ids ==> l < |owner| && owner[l] in running && running[owner[l]] == l
    ensures |ids| <= |running|
  {
    if ids != {} {
      var l :| l in ids;
      var rest := running - {owner[l]};
      assert rest.Keys == running.Keys - {owner[l]};
      InjectedSize(ids - {l}, rest, owner);
    }
  }

  lemma {:induction false} OrderlyRunBudgeted(cfg: ManagerConfig, w: World, events: seq<Event>, w': World, b: real)
    requires Scheduled(w) && Orderly(cfg, w) && Reaches(cfg, w, events, w') && AllUndisturbed(events)
    requires cfg.maxParallelTasks >= 1 && Budgeted(cfg, w, cfg.maxParallelTasks, b) && StartsWithin(cfg, events, b)
    ensures Budgeted(cfg, w', cfg.maxParallelTasks, b)
    decreases |events|
  {
    if events != [] {
      StepIsOrderly(cfg, w, events[0]);
      StepKeepsSchedule(cfg, w, events[0]);
      ExecutingWithinSlots(Step(cfg, w, events[0]));
      StepBudget(cfg, w, events[0], cfg.maxParallelTasks, b);
      assert AllUndisturbed(events[1..]) && StartsWithin(cfg, events[1..], b);
      OrderlyRunBudgeted(cfg, Step(cfg, w, events[0]), events[1..], w', b);
    }
  }

  lemma {:induction false} RestoreBudget(cfg: ManagerConfig, w: World, active: seq<TaskId>, at: int, k: nat, b: real)
    requires 1 <= k && Budgeted(cfg, w, k, b) && forall t :: t in active ==> t in w.tasks
    ensures Budgeted(cfg, Restore(cfg, w, active, at), k, b)
    decreases |active|
  {
    if active != [] {
      var t := active[0];
      var a := w.(admitted := w.admitted + [t]);
      if w.tasks[t].status in {Running, Pending, Queued} && |w.running| < cfg.maxParallelTasks {
        LaunchBudget(cfg, a, t, at, k, b);
      }
      RestoreBudget(cfg, RestoreOne(cfg, w, t, at), active[1..], at, k, b);
    }
  }

  lemma InitialBudget(cfg: ManagerConfig, w: World, k: nat, b: real)
    requires 1 <= k && w.loops == [] && 0.0 <= w.spent <= cfg.policy.daily && b >= 0.0 && TasksWithin(cfg, w, b)
    ensures Budgeted(cfg, w, k, b)
  {
    TimesMonotone(0, k - 1, b);
  }

  /** Corollary: without pauses, stops and resumes the parallel cap alone bounds the overshoot. */
  lemma CapBoundsDailySpend(
    cfg: ManagerConfig, w: World, active: seq<TaskId>, at: int, events: seq<Event>, w': World, b: real)
    requires b >= 0.0 && TasksWithin(cfg, w, b) && StartsWithin(cfg, events, b)
    requires cfg.maxParallelTasks >= 1 && IsInitial(w) && 0.0 <= w.spent <= cfg.policy.daily
    requires Distinct(active) && forall t :: t in active ==> t in w.tasks
    requires Reaches(cfg, Restore(cfg, w, active, at), events, w') && AllUndisturbed(events)
    ensures w'.spent <= cfg.policy.daily + Times(cfg.maxParallelTasks - 1, b)
  {
    var r := Restore(cfg, w, active, at);
    InitialBudget(cfg, w, cfg.maxParallelTasks, b);
    RestoreBudget(cfg, w, active, at, cfg.maxParallelTasks, b);
    RestoreKeeps(cfg, w, active, at);
    RestoreIsOrderly(cfg, w, active, at);
    OrderlyRunBudgeted(cfg, r, events, w', b);
    TotalBounded(w'.loops, b);
  }

  // ---------------------------------------------------------------- recorded against really spent

  /** A step lets real and recorded spend drift apart exactly when a spending tool succeeds after its loop was stopped:
      the unwinding loop forgets the amount. */
  predicate ForgetsSpend(w: World, e: Event) {
    e.Continue? && e.loop < |w.loops| && w.loops[e.loop].aborted && w.loops[e.loop].pc.ExecutingTool? &&
    e.outcome.ToolResolved? && e.outcome.success && SpendOf(w.loops[e.loop].pc.action) > 0.0
  }

  lemma SegmentRecords(cfg: PolicyConfig, v: View, o: Outcome)
    requires Awaits(v.loop.pc, o)
    ensures var v' := Segment(cfg, v, o);
            && v'.moved - v'.recorded >= v.moved - v.recorded
            && (v'.moved - v'.recorded == v.moved - v.recorded
                <==> !(v.loop.aborted && o.ToolResolved? && o.success && SpendOf(v.loop.pc.action) > 0.0))
  {
  }

  lemma LaunchRecords(cfg: ManagerConfig, w: World, t: TaskId, at: int)
    requires t in w.tasks
    ensures RunLoop(cfg, w, t, at).moved == w.moved && RunLoop(cfg, w, t, at).recorded == w.recorded
  {
  }

  lemma DriftExactly(cfg: ManagerConfig, w: World, e: Event)
    requires Enabled(w, e)
    ensures var w' := Step(cfg, w, e);
            && w'.moved - w'.recorded >= w.moved - w.recorded
            && (w'.moved - w'.recorded == w.moved - w.recorded <==> !ForgetsSpend(w, e))
  {
    match e
    case Start(t, c, at) =>
      if |w.running| < cfg.maxParallelTasks {
        LaunchRecords(cfg, w.(tasks := w.tasks[t := Task(Pending, 0, c, None)],
                              admitted := w.admitted + [t]), t, at);
      }
    case ResumeTask(t, at) => if t in w.tasks { LaunchRecords(cfg, w, t, at); }
    case Continue(l, o) => SegmentRecords(cfg.policy, ViewOf(w, w.owner[l], Counted(w.loops[l])), o);
    case Settle(l, at) =>
      if w.queue != [] { LaunchRecords(cfg, Deregister(w, l).(queue := w.queue[1..]), w.queue[0], at); }
    case _ =>
  }

  ghost predicate NeverForgets(cfg: ManagerConfig, w: World, events: seq<Event>)
    decreases |events|
  {
    events == [] ||
    (Enabled(w, events[0]) && !ForgetsSpend(w, events[0]) && NeverForgets(cfg, Step(cfg, w, events[0]), events[1..]))
  }

  /** Main theorem: over a run the store records exactly what successful tools spent if and only if no spending tool
      succeeds for a stopped loop; what it misses once it never catches up on. */
  lemma {:induction false} RecordedIsSpent(cfg: ManagerConfig, w: World, events: seq<Event>, w': World)
    requires Reaches(cfg, w, events, w')
    ensures w'.moved - w'.recorded >= w.moved - w.recorded
    ensures w'.moved - w'.recorded == w.moved - w.recorded <==> NeverForgets(cfg, w, events)
    decreases |events|
  {
    if events != [] {
      hide Step, ForgetsSpend;
      DriftExactly(cfg, w, events[0]);
      RecordedIsSpent(cfg, Step(cfg, w, events[0]), events[1..], w');
    }
  }
}
