/** When a task's status changes, for every step of the engine: which outcomes complete, pause and fail a task, and which
    manager calls do the rest. */
module AutonomousTransitions {
  import opened Common
  import opened PolicyEngine
  import opened PolicyWindows
  import opened AutonomousLoop
  import opened AutonomousWorld
  import opened AutonomousInvariant

  // ---------------------------------------------------------------- one segment

  /** The success evaluation, or the reflection before it, says that the goal is achieved. */
  predicate SaysAchieved(o: Outcome) {
    (o.EvaluationResolved? && o.achieved) || (o.ReflectionResolved? && o.reflection.goalAchieved)
  }

  /** What fails a loop that is not stopped: a blocked action, a success whose spend cannot be recorded, the step cap. */
  predicate EndsInFailure(cfg: PolicyConfig, v: View, o: Outcome) {
    || (o.PlanResolved? && !Allowed(cfg, v.loop.engine, InputOf(v, o.action), o.checkedAt))
    || (o.ToolResolved? && o.success && v.loop.pc.ExecutingTool? && ExtractTonSpend(v.loop.pc.action).SpendUnbounded?)
    || (o.EvaluationResolved? && !o.achieved && v.row.step >= 500)
  }

  /** The status of a task a loop works for changes exactly so; any other outcome leaves it as it is. */
  lemma SegmentChangesStatus(cfg: PolicyConfig, v: View, o: Outcome)
    requires Awaits(v.loop.pc, o) && !IsExternalTerminal(v.row.status)
    ensures var s := Segment(cfg, v, o).row.status;
            && (s == Completed <==> !v.loop.aborted && SaysAchieved(o))
            && (s == Paused <==> !v.loop.aborted && o.EscalationResolved?)
            && (s == Failed <==> o.PlanRejected? || o.EscalationRejected? || o.EvaluationRejected?
                                 || (!v.loop.aborted && EndsInFailure(cfg, v, o)))
            && (s in {Completed, Paused, Failed} || s == v.row.status)
  {
  }

  predicate TriesToEscalate(cfg: PolicyConfig, e: EngineState, o: Outcome) {
    o.ReflectionResolved? && !o.reflection.goalAchieved
    && (o.reflection.shouldEscalate || (o.reflection.isStuck && e.uncertain + 1 >= cfg.maxConsecutiveUncertain))
  }

  /** What a live loop does next, by what it was told. */
  lemma NextAwait(cfg: PolicyConfig, v: View, o: Outcome)
    requires Awaits(v.loop.pc, o) && !v.loop.aborted && v.row.status == Running
    ensures var pc := Segment(cfg, v, o).loop.pc;
            && (pc.ExecutingTool? <==>
                  o.PlanResolved? && Allowed(cfg, v.loop.engine, InputOf(v, o.action), o.checkedAt)
                  && !NeedsEscalation(cfg, v.loop.engine, InputOf(v, o.action), o.checkedAt))
            && (pc.ExecutingTool? ==> pc.action == o.action)
            && (pc.Escalating? <==>
                  || TriesToEscalate(cfg, v.loop.engine, o)
                  || (o.PlanResolved? && Allowed(cfg, v.loop.engine, InputOf(v, o.action), o.checkedAt)
                      && NeedsEscalation(cfg, v.loop.engine, InputOf(v, o.action), o.checkedAt)))
            && (pc.Reflecting? <==> o.ToolRejected? || (o.ToolResolved? && !EndsInFailure(cfg, v, o)))
            && (pc.Evaluating? <==>
                  || o.ReflectionRejected?
                  || (o.ReflectionResolved? && !o.reflection.goalAchieved && !TriesToEscalate(cfg, v.loop.engine, o)))
            && (pc.Planning? <==> o.EvaluationResolved? && !o.achieved && v.row.step < 500)
            && (pc.Returned? <==> Segment(cfg, v, o).row.status in {Completed, Paused, Failed})
            && (pc.Returned? ==> pc.result == Segment(cfg, v, o).row.status)
  {
    hide Allowed, NeedsEscalation, ExtractTonSpend;
  }

  /** The step counter moves by one, and only at a reflection that does not escalate. */
  lemma StepCounted(cfg: PolicyConfig, v: View, o: Outcome)
    requires Awaits(v.loop.pc, o) && !v.loop.aborted
    ensures var v' := Segment(cfg, v, o);
            v'.row.step == v.row.step + if o.ReflectionRejected?
                                           || (o.ReflectionResolved? && !TriesToEscalate(cfg, v.loop.engine, o)) then 1 else 0
  {
  }

  /** A loop that has not succeeded looks at the store before it plans again: it leaves a task cancelled or paused meanwhile
      as it is, and plans with the stored step. */
  lemma LooksAtTheStore(cfg: PolicyConfig, v: View, o: Outcome)
    requires Awaits(v.loop.pc, o) && !v.loop.aborted && o.EvaluationResolved? && !o.achieved
    ensures var v' := Segment(cfg, v, o);
            && v'.loop.step == v.row.step
            && (v.row.status == Cancelled ==>
                 v'.row == v.row && v'.loop.pc == Pc.Returned(Cancelled) && v'.snapshot == None)
            && (v.row.status == Paused ==>
                 v'.row == v.row && v'.loop.pc == Pc.Returned(Paused) && v'.snapshot == v.snapshot)
            && (v.row.status !in {Cancelled, Paused} && v.row.step < 500 ==> v'.row == v.row && v'.loop.pc == Pc.Planning)
  {
    hide PushPruned;
  }

  /** A stopped loop whose call resolves returns with the task as it finds it, and drops the snapshot of one that has ended. */
  lemma StoppedLoopReturns(cfg: PolicyConfig, v: View, o: Outcome)
    requires Awaits(v.loop.pc, o) && v.loop.aborted
    requires o.PlanResolved? || o.EscalationResolved? || o.ToolResolved? || o.ReflectionResolved? || o.EvaluationResolved?
    ensures var v', status := Segment(cfg, v, o), v.row.status;
            && v'.row == v.row && v'.spent == v.spent && v'.loop.engine == v.loop.engine
            && v'.snapshot == (if status in {Cancelled, Completed, Failed} then None else v.snapshot)
            && v'.loop.pc == Pc.Returned(if status in {Paused, Cancelled, Completed, Failed} then status else Cancelled)
  {
  }

  /** A loop stopped before it would plan cancels its task, unless that is paused or has ended. */
  lemma StoppedBeforePlanning(cfg: PolicyConfig, v: View, at: int)
    requires v.loop.aborted
    ensures var v', status := Header(cfg, v, at), v.row.status;
            && v'.row == v.row.(status := if status in {Paused, Completed, Failed} then status else Cancelled)
            && v'.snapshot == (if status in {Paused, Completed, Failed} then v.snapshot else None)
            && v'.loop.pc == Pc.Returned(if status == Paused then Paused else Cancelled)
  {
  }

  // ---------------------------------------------------------------- what is recorded

  /** What the policy engine is told while a loop goes on from an outcome, in order. A stopped loop tells it nothing, unless
      its call was rejected. */
  function Told(cfg: PolicyConfig, v: View, o: Outcome): seq<Op> {
    match o
    case PlanResolved(a, checkedAt, recordedAt) =>
      if v.loop.aborted then []
      else if Allowed(cfg, v.loop.engine, InputOf(v, a), checkedAt) && !NeedsEscalation(cfg, v.loop.engine, InputOf(v, a), checkedAt)
      then [Op.Check(checkedAt), Op.ToolCall(recordedAt)]
      else [Op.Check(checkedAt)]
    case ToolResolved(_, at) =>
      if v.loop.aborted || !v.loop.pc.ExecutingTool? || EndsInFailure(cfg, v, o) then []
      else [Op.Action(v.loop.pc.action.toolName), Op.ApiCall(at)]
    case ToolRejected(at) =>
      if v.loop.pc.ExecutingTool? then [Op.Action(v.loop.pc.action.toolName), Op.ApiCall(at)] else []
    case ReflectionResolved(r) =>
      if v.loop.aborted || (r.shouldEscalate && !r.goalAchieved) then []
      else if r.isStuck && !r.goalAchieved then [Op.Uncertain]
      else [Op.ResetUncertain]
    case ReflectionRejected => [Op.ResetUncertain]
    case EvaluationResolved(achieved, at) =>
      if v.loop.aborted || achieved || v.row.step >= 500 || v.row.status in {Paused, Cancelled} then [] else [Op.ApiCall(at)]
    case _ => []
  }

  /** The loop has come to its end with its task completed, failed or cancelled; a loop that pauses itself ends otherwise. */
  predicate EndsTask(v: View, o: Outcome, v': View) {
    v'.loop.pc.Returned? && v'.row.status in {Completed, Failed, Cancelled} && (v.loop.aborted || !o.EscalationResolved?)
  }

  lemma OneOp(cfg: PolicyConfig, s: Session, op: Op)
    ensures ApplyAll(cfg, s, [op]) == Apply(cfg, s, op) && ApplyAll(cfg, s, []) == s
  {
    hide Apply;
    assert [op][1..] == [];
  }

  lemma TwoOps(cfg: PolicyConfig, s: Session, a: Op, b: Op)
    ensures ApplyAll(cfg, s, [a, b]) == Apply(cfg, Apply(cfg, s, a), b)
  {
    hide Apply;
    var ops := [a, b];
    assert ops[1..] == [b];
    assert ApplyAll(cfg, s, ops) == ApplyAll(cfg, Apply(cfg, s, ops[0]), ops[1..]);
    OneOp(cfg, Apply(cfg, s, a), b);
  }

  ghost predicate TellsEngine(cfg: PolicyConfig, v: View, o: Outcome)
    requires Awaits(v.loop.pc, o)
  {
    var v', told := Segment(cfg, v, o), ApplyAll(cfg, Session(v.loop.engine, v.snapshot), Told(cfg, v, o));
    && v'.loop.engine == told.engine
    && v'.snapshot == (if EndsTask(v, o, v') then None else told.stored)
    && v'.calls == if v'.loop.pc.ExecutingTool? then v.calls + [o.recordedAt] else v.calls
  }

  lemma PlanTells(cfg: PolicyConfig, v: View, o: Outcome)
    requires Awaits(v.loop.pc, o) && o.PlanResolved?
    ensures TellsEngine(cfg, v, o)
  {
    hide Allowed, NeedsEscalation, ApplyAll, Within, PushPruned;
    OneOp(cfg, Session(v.loop.engine, v.snapshot), Op.Check(o.checkedAt));
    TwoOps(cfg, Session(v.loop.engine, v.snapshot), Op.Check(o.checkedAt), Op.ToolCall(o.recordedAt));
  }

  lemma ToolTells(cfg: PolicyConfig, v: View, o: Outcome)
    requires Awaits(v.loop.pc, o) && (o.ToolResolved? || o.ToolRejected?)
    ensures TellsEngine(cfg, v, o)
  {
    hide ExtractTonSpend, ApplyAll, PushPruned;
    OneOp(cfg, Session(v.loop.engine, v.snapshot), Op.Uncertain);
    TwoOps(cfg, Session(v.loop.engine, v.snapshot), Op.Action(v.loop.pc.action.toolName), Op.ApiCall(o.at));
  }

  lemma OthersTell(cfg: PolicyConfig, v: View, o: Outcome)
    requires Awaits(v.loop.pc, o) && !o.PlanResolved? && !o.ToolResolved? && !o.ToolRejected?
    ensures TellsEngine(cfg, v, o)
  {
    hide ApplyAll, PushPruned;
    var told := Told(cfg, v, o);
    OneOp(cfg, Session(v.loop.engine, v.snapshot), if told == [] then Op.Uncertain else told[0]);
    assert told == [] || told == [told[0]];
  }

  /** A segment does to the engine what these operations do; what they save stays in the store until the task has ended. The
      call of a tool is counted when the tool is launched. */
  lemma SegmentTellsEngine(cfg: PolicyConfig, v: View, o: Outcome)
    requires Awaits(v.loop.pc, o)
    ensures TellsEngine(cfg, v, o)
  {
    hide TellsEngine;
    if o.PlanResolved? {
      PlanTells(cfg, v, o);
    } else if o.ToolResolved? || o.ToolRejected? {
      ToolTells(cfg, v, o);
    } else {
      OthersTell(cfg, v, o);
    }
  }

  /** Uncertainty is counted by reflections alone: one more for a loop that is stuck, none for one that is not; neither
      stopped loops nor reflections that ask the user change it. */
  lemma UncertaintyCounted(cfg: PolicyConfig, v: View, o: Outcome)
    requires Awaits(v.loop.pc, o)
    ensures var before, after := v.loop.engine.uncertain, Segment(cfg, v, o).loop.engine.uncertain;
            after == if o.ReflectionRejected? then 0
                     else if v.loop.aborted || !o.ReflectionResolved? then before
                     else if o.reflection.goalAchieved then 0
                     else if o.reflection.shouldEscalate then before
                     else if o.reflection.isStuck then before + 1 else 0
  {
    hide Allowed, NeedsEscalation, ExtractTonSpend, PushPruned;
  }

  /** Every outcome is awaited in one place, and a returned loop awaits nothing. */
  lemma AwaitedAt(pc: Pc, o: Outcome)
    ensures Awaits(pc, o) <==>
            && (pc == Planning <==> o.PlanResolved? || o.PlanRejected?)
            && (pc == Escalating <==> o.EscalationResolved? || o.EscalationRejected?)
            && (pc.ExecutingTool? <==> o.ToolResolved? || o.ToolRejected?)
            && (pc == Reflecting <==> o.ReflectionResolved? || o.ReflectionRejected?)
            && (pc == Evaluating <==> o.EvaluationResolved? || o.EvaluationRejected?)
  {
  }

  /** A task is launched with a new loop, registered and expected to complete, which plans at once unless the steps are
      used up; its engine is the stored one, or an empty one, told of the planning call. */
  lemma LaunchedLoop(cfg: ManagerConfig, w: World, t: TaskId, at: int)
    requires t in w.tasks
    ensures var w', l := RunLoop(cfg, w, t, at), |w.loops|;
            var engine := if t in w.snapshots then w.snapshots[t] else EngineState([], [], 0, []);
            && w'.loops[..l] == w.loops && |w'.loops| == l + 1 && w'.owner == w.owner + [t]
            && w'.running == w.running[t := l] && w'.completions == w.completions + {l}
            && w'.launched == w.launched + [t] && w'.queue == w.queue && w'.admitted == w.admitted
            && w'.spent == w.spent && w'.moved == w.moved && w'.recorded == w.recorded
            && t in w'.tasks && !w'.loops[l].aborted && w'.loops[l].step == w.tasks[t].step == w'.tasks[t].step
            && w'.tasks == w.tasks[t := w'.tasks[t]] && w'.tasks[t].constraints == w.tasks[t].constraints
            && w'.tasks[t].status == (if w.tasks[t].step >= 500 then Failed else Running)
            && w'.tasks[t].startedAt ==
               (if w.tasks[t].startedAt.Some? then w.tasks[t].startedAt else Some(at - at % 1000))
            && if w.tasks[t].step >= 500
               then w'.loops[l].pc == Pc.Returned(Failed) && t !in w'.snapshots
               else w'.loops[l].pc == Pc.Planning && t in w'.snapshots && w'.snapshots[t] == w'.loops[l].engine
                    && w'.loops[l].engine == Apply(cfg.policy, Session(engine, None), Op.ApiCall(at)).engine
  {
    hide Begin, FreshLoop, Apply;
    var created := FreshLoop(w.tasks[t].step);
    var v := View(w.tasks[t], if t in w.snapshots then Some(w.snapshots[t]) else None, w.spent, w.moved, w.recorded,
                  if t in w.calls then w.calls[t] else [], created);
    BegunAs(cfg.policy, v, at);
    assert (w.loops + [created])[|w.loops|] == created;
  }

  lemma BegunAs(cfg: PolicyConfig, v: View, at: int)
    requires v.loop == FreshLoop(v.row.step)
    ensures var v' := Begin(cfg, v, at);
            && v'.spent == v.spent && v'.moved == v.moved && v'.recorded == v.recorded
            && !v'.loop.aborted && v'.loop.step == v.row.step
            && v'.row == v.row.(status := if v.row.step >= 500 then Failed else Running,
                                startedAt := if v.row.startedAt.Some? then v.row.startedAt else Some(at - at % 1000))
            && if v.row.step >= 500 then v'.loop.pc == Pc.Returned(Failed) && v'.snapshot == None
               else v'.loop.pc == Pc.Planning && v'.snapshot == Some(v'.loop.engine)
                    && v'.loop.engine
                       == Apply(cfg, Session(v.snapshot.GetOr(EngineState([], [], 0, [])), None), Op.ApiCall(at)).engine
  {
    hide PushPruned;
    assert at / 1000 * 1000 == at - at % 1000;
  }

  // ---------------------------------------------------------------- one step

  /** A live loop of t, which is running, is told that the goal is achieved. */
  predicate AchievedBy(w: World, e: Event, t: TaskId) {
    && e.Continue? && e.loop < |w.loops| && e.loop < |w.owner| && w.owner[e.loop] == t && IsLive(w.loops[e.loop])
    && t in w.tasks && w.tasks[t].status == Running && SaysAchieved(e.outcome)
  }

  predicate EscalatedBy(w: World, e: Event, t: TaskId) {
    && e.Continue? && e.loop < |w.loops| && e.loop < |w.owner| && w.owner[e.loop] == t && IsLive(w.loops[e.loop])
    && t in w.tasks && w.tasks[t].status == Running && e.outcome.EscalationResolved?
  }

  /** Any loop of t that hears of a failed planner, user or evaluator, and a live one that ends in failure. */
  predicate FailedBy(cfg: ManagerConfig, w: World, e: Event, t: TaskId) {
    && e.Continue? && e.loop < |w.loops| && e.loop < |w.owner| && w.owner[e.loop] == t
    && t in w.tasks && !IsExternalTerminal(w.tasks[t].status)
    && (|| e.outcome.PlanRejected? || e.outcome.EscalationRejected? || e.outcome.EvaluationRejected?
        || (IsLive(w.loops[e.loop])
            && EndsInFailure(cfg.policy, ViewOf(w, t, Counted(w.loops[e.loop])), e.outcome)))
  }

  /** A resume of the paused task, or a completion that finds it at the head of the queue. */
  predicate Launches(w: World, e: Event, t: TaskId) {
    || (e.ResumeTask? && e.task == t && t in w.tasks && w.tasks[t].status == Paused)
    || (e.Settle? && w.queue != [] && w.queue[0] == t)
  }

  ghost predicate Changes(w: World, w': World, t: TaskId, s: Status) {
    t in w.tasks && t in w'.tasks && w.tasks[t].status != s && w'.tasks[t].status == s
  }

  /** All status changes of a task that exists. */
  ghost predicate ChangesExactly(cfg: ManagerConfig, w: World, e: Event, w': World, t: TaskId) {
    && t in w.tasks && t in w'.tasks
    && (Changes(w, w', t, Completed) <==> AchievedBy(w, e, t))
    && (Changes(w, w', t, Paused) <==>
          (e == Pause(t) && w.tasks[t].status != Paused) || EscalatedBy(w, e, t))
    && (Changes(w, w', t, Cancelled) <==>
          (e == Stop(t) && w.tasks[t].status != Cancelled) || (e == CancelStale(t) && w.tasks[t].status == Paused))
    && (Changes(w, w', t, Failed) <==> FailedBy(cfg, w, e, t) || (Launches(w, e, t) && w.tasks[t].step >= 500))
    && (Changes(w, w', t, Running) <==> Launches(w, e, t) && w.tasks[t].step < 500)
    && !Changes(w, w', t, Pending) && !Changes(w, w', t, Queued)
  }

  lemma LaunchChanges(cfg: ManagerConfig, w: World, t: TaskId, at: int, u: TaskId)
    requires t in w.tasks && u in w.tasks
    ensures var w' := RunLoop(cfg, w, t, at);
            && u in w'.tasks
            && w'.tasks[u].status == if u != t then w.tasks[u].status else if w.tasks[t].step >= 500 then Failed else Running
  {
  }

  lemma ContinueChanges(cfg: ManagerConfig, w: World, e: Event, t: TaskId)
    requires Scheduled(w) && Enabled(w, e) && e.Continue? && t in w.tasks
    ensures ChangesExactly(cfg, w, e, Step(cfg, w, e), t)
  {
    hide Segment, EndsInFailure, SaysAchieved;
    var u := w.owner[e.loop];
    var v := ViewOf(w, u, Counted(w.loops[e.loop]));
    assert LoopOk(w, e.loop);
    if IsExternalTerminal(v.row.status) {
      StatusProtected(cfg.policy, v, e.outcome);
    } else {
      SegmentChangesStatus(cfg.policy, v, e.outcome);
    }
    assert Step(cfg, w, e).tasks == w.tasks[u := Segment(cfg.policy, v, e.outcome).row];
  }

  lemma SettleChanges(cfg: ManagerConfig, w: World, e: Event, t: TaskId)
    requires Scheduled(w) && Enabled(w, e) && e.Settle? && t in w.tasks
    ensures ChangesExactly(cfg, w, e, Step(cfg, w, e), t)
  {
    hide RunLoop;
    if w.queue != [] {
      assert WaitingOk(w, w.queue[0]);
      LaunchChanges(cfg, Deregister(w, e.loop).(queue := w.queue[1..]), w.queue[0], e.at, t);
    }
  }

  lemma StartChanges(cfg: ManagerConfig, w: World, e: Event, t: TaskId)
    requires Enabled(w, e) && e.Start? && t in w.tasks
    ensures ChangesExactly(cfg, w, e, Step(cfg, w, e), t)
  {
    var created := w.(tasks := w.tasks[e.task := Task(Pending, 0, e.constraints, None)], admitted := w.admitted + [e.task]);
    LaunchChanges(cfg, created, e.task, e.at, t);
    hide RunLoop;
  }

  lemma ResumeChanges(cfg: ManagerConfig, w: World, e: Event, t: TaskId)
    requires Enabled(w, e) && e.ResumeTask? && t in w.tasks
    ensures ChangesExactly(cfg, w, e, Step(cfg, w, e), t)
  {
    hide RunLoop, Segment;
    if e.task in w.tasks {
      LaunchChanges(cfg, w, e.task, e.at, t);
    }
  }

  lemma HaltKeepsTasks(w: World, t: TaskId)
    ensures Halt(w, t).tasks == w.tasks
  {
    hide RemoveFirst;
  }

  lemma ManagerTasks(cfg: ManagerConfig, w: World, e: Event, t: TaskId)
    requires Enabled(w, e) && t in w.tasks
    requires e.Pause? || e.Stop? || e.StopAll? || e.NewDay? || e.CancelStale?
    ensures var w' := Step(cfg, w, e);
            && t in w'.tasks
            && w'.tasks[t].status ==
               if e == Pause(t) then Paused
               else if e == Stop(t) || (e == CancelStale(t) && w.tasks[t].status == Paused) then Cancelled
               else w.tasks[t].status
  {
    hide RunLoop, Segment, Halt, StopLoops;
    if e.Pause? || e.Stop? {
      HaltKeepsTasks(w, e.task);
    }
  }

  lemma ManagerChanges(cfg: ManagerConfig, w: World, e: Event, t: TaskId)
    requires Enabled(w, e) && t in w.tasks
    requires e.Pause? || e.Stop? || e.StopAll? || e.NewDay? || e.CancelStale?
    ensures ChangesExactly(cfg, w, e, Step(cfg, w, e), t)
  {
    hide Step, EndsInFailure, SaysAchieved, IsExternalTerminal, IsLive;
    ManagerTasks(cfg, w, e, t);
  }

  /** A task's status changes in a step exactly as listed. */
  lemma StatusChangesExactly(cfg: ManagerConfig, w: World, e: Event, t: TaskId)
    requires Scheduled(w) && Enabled(w, e) && t in w.tasks
    ensures ChangesExactly(cfg, w, e, Step(cfg, w, e), t)
  {
    hide Scheduled, Enabled, Step, ChangesExactly;
    match e
    case Continue(_, _) => ContinueChanges(cfg, w, e, t);
    case Settle(_, _) => SettleChanges(cfg, w, e, t);
    case Start(_, _, _) => StartChanges(cfg, w, e, t);
    case ResumeTask(_, _) => ResumeChanges(cfg, w, e, t);
    case _ => ManagerChanges(cfg, w, e, t);
  }

  /** A task that is started begins running, or queued at the cap. */
  lemma StartedStatus(cfg: ManagerConfig, w: World, t: TaskId, c: Constraints, at: int)
    requires t !in w.tasks
    ensures var w' := Step(cfg, w, Start(t, c, at));
            && t in w'.tasks && w'.tasks[t].constraints == c && w'.tasks[t].step == 0
            && w'.tasks[t].status == if |w.running| >= cfg.maxParallelTasks then Queued else Running
  {
  }

  // ---------------------------------------------------------------- loops and what can happen to them

  /** A pause, a stop or a shutdown that finds the loop registered. */
  predicate StopsLoop(w: World, e: Event, l: LoopId) {
    || ((e.Stop? || (e.Pause? && e.task in w.tasks)) && e.task in w.running && w.running[e.task] == l)
    || (e.StopAll? && l in w.running.Values)
  }

  ghost predicate LoopFits(w: World, e: Event, w': World, l: LoopId) {
    l < |w.loops| && l < |w'.loops| && l < |w.owner| && l < |w'.owner| && w'.owner[l] == w.owner[l]
    && w'.loops[l] == if StopsLoop(w, e, l) then w.loops[l].(aborted := true) else w.loops[l]
  }

  lemma LaunchKeepsLoops(cfg: ManagerConfig, w: World, t: TaskId, at: int, l: LoopId)
    requires t in w.tasks && l < |w.loops| == |w.owner|
    ensures var w' := RunLoop(cfg, w, t, at);
            l < |w'.loops| && l < |w'.owner| && w'.owner[l] == w.owner[l] && w'.loops[l] == w.loops[l]
  {
    LaunchedLoop(cfg, w, t, at);
    hide RunLoop;
    assert RunLoop(cfg, w, t, at).loops[..|w.loops|][l] == w.loops[l];
  }

  lemma LaunchesFit(cfg: ManagerConfig, w: World, e: Event, l: LoopId)
    requires Scheduled(w) && Enabled(w, e) && l < |w.loops| && (e.Start? || e.ResumeTask? || e.Settle?)
    ensures LoopFits(w, e, Step(cfg, w, e), l)
  {
    hide RunLoop, LoopOk, EntryOk, WaitingOk;
    if e.Start? {
      var created := w.(tasks := w.tasks[e.task := Task(Pending, 0, e.constraints, None)], admitted := w.admitted + [e.task]);
      LaunchKeepsLoops(cfg, created, e.task, e.at, l);
    } else if e.ResumeTask? && e.task in w.tasks {
      LaunchKeepsLoops(cfg, w, e.task, e.at, l);
    } else if e.Settle? && w.queue != [] {
      LaunchKeepsLoops(cfg, Deregister(w, e.loop).(queue := w.queue[1..]), w.queue[0], e.at, l);
    }
  }

  lemma HaltsFit(cfg: ManagerConfig, w: World, e: Event, l: LoopId)
    requires Scheduled(w) && l < |w.loops| && (e.Pause? || e.Stop? || e.StopAll?)
    ensures LoopFits(w, e, Step(cfg, w, e), l)
  {
    hide RunLoop, Segment, RemoveFirst;
    if !e.StopAll? && e.task in w.running {
      assert EntryOk(w, e.task);
    }
  }

  /** A loop changes by its own continuation, or is stopped; no other step touches it. */
  lemma LoopsChangeExactly(cfg: ManagerConfig, w: World, e: Event, l: LoopId)
    requires Scheduled(w) && Enabled(w, e) && l < |w.loops| && !(e.Continue? && e.loop == l)
    ensures LoopFits(w, e, Step(cfg, w, e), l)
  {
    hide Scheduled, Enabled, Step, LoopFits;
    if e.Start? || e.ResumeTask? || e.Settle? {
      LaunchesFit(cfg, w, e, l);
    } else if e.Pause? || e.Stop? || e.StopAll? {
      HaltsFit(cfg, w, e, l);
    } else {
      OthersFit(cfg, w, e, l);
    }
  }

  lemma OthersFit(cfg: ManagerConfig, w: World, e: Event, l: LoopId)
    requires Scheduled(w) && Enabled(w, e) && l < |w.loops| && !(e.Continue? && e.loop == l)
    requires e.Continue? || e.NewDay? || e.CancelStale?
    ensures LoopFits(w, e, Step(cfg, w, e), l)
  {
    hide RunLoop, Segment;
  }

  /** A task that is paused or stopped is neither registered nor waiting any more; at shutdown no task is. */
  lemma HaltUnregisters(cfg: ManagerConfig, w: World, e: Event)
    requires Scheduled(w) && (e.Stop? || (e.Pause? && e.task in w.tasks) || e.StopAll?)
    ensures var w' := Step(cfg, w, e);
            && w'.completions == w.completions
            && (e.StopAll? ==> w'.running == map[] && w'.queue == [])
            && (!e.StopAll? ==>
                 w'.running == w.running - {e.task} && forall t :: t in w'.queue <==> t in w.queue && t != e.task)
  {
    hide RunLoop, Segment, StopLoops, RemoveFirst, LoopOk, WaitingOk;
    if !e.StopAll? {
      RemoveFirstKeeps(w.queue, e.task);
      if e.task in w.running {
        assert EntryOk(w, e.task);
      }
    }
  }

  /** The completion of a loop is handled once; it takes the loop off the register and launches the first task that waits. */
  lemma SettleRegisters(cfg: ManagerConfig, w: World, e: Event)
    requires Scheduled(w) && Enabled(w, e) && e.Settle?
    ensures var w' := Step(cfg, w, e);
            && (w.queue == [] ==>
                 w'.completions == w.completions - {e.loop} && w'.queue == [] && w'.launched == w.launched
                 && forall t :: t in w'.running <==> t in w.running && w.running[t] != e.loop)
            && (w.queue != [] ==>
                 w'.completions == w.completions - {e.loop} + {|w.loops|} && w'.queue == w.queue[1..]
                 && w'.launched == w.launched + [w.queue[0]]
                 && w.queue[0] in w'.running && w'.running[w.queue[0]] == |w.loops|)
  {
    hide RunLoop, Segment, LoopOk, WaitingOk;
    assert forall t :: t in w.running ==> EntryOk(w, t);
    if w.queue != [] {
      LaunchedLoop(cfg, Deregister(w, e.loop).(queue := w.queue[1..]), w.queue[0], e.at);
    }
  }

  /** A task can be started under a new id; a loop goes on with an outcome of what it awaits; a completion is handled once,
      after its loop has returned. All else can happen at any time. */
  lemma EnabledExactly(w: World, e: Event)
    requires Scheduled(w)
    ensures Enabled(w, e) <==>
            && (e.Start? ==> e.task !in w.tasks)
            && (e.Continue? ==> e.loop < |w.loops| && Awaits(w.loops[e.loop].pc, e.outcome))
            && (e.Settle? ==> e.loop < |w.loops| && e.loop in w.completions && w.loops[e.loop].pc.Returned?)
  {
    if e.Continue? && e.loop < |w.loops| {
      assert LoopOk(w, e.loop);
    }
    assert forall t :: t in w.queue ==> WaitingOk(w, t);
  }

  // ---------------------------------------------------------------- restoring

  /** The tasks that were running, pending or queued, in order. */
  function Interrupted(tasks: map<TaskId, Task>, ts: seq<TaskId>): seq<TaskId> {
    if ts == [] then []
    else (if ts[0] in tasks && tasks[ts[0]].status in {Running, Pending, Queued} then [ts[0]] else [])
         + Interrupted(tasks, ts[1..])
  }

  lemma {:induction false} InterruptedAgree(a: map<TaskId, Task>, b: map<TaskId, Task>, ts: seq<TaskId>)
    requires forall t :: t in ts ==> (t in a <==> t in b) && (t in a ==> a[t] == b[t])
    ensures Interrupted(a, ts) == Interrupted(b, ts)
  {
    if ts != [] {
      InterruptedAgree(a, b, ts[1..]);
    }
  }

  ghost predicate RestoresAs(cfg: ManagerConfig, w: World, t: TaskId, w': World)
    requires t in w.tasks
  {
    && (forall u :: u != t ==> (u in w'.tasks <==> u in w.tasks) && (u in w.tasks ==> w'.tasks[u] == w.tasks[u]))
    && t in w'.tasks
    && if w.tasks[t].status !in {Running, Pending, Queued} then w' == w
       else && w'.admitted == w.admitted + [t]
            && if |w.running| < cfg.maxParallelTasks
               then w'.running.Keys == w.running.Keys + {t} && |w'.running| == |w.running| + 1
                    && w'.launched == w.launched + [t] && w'.queue == w.queue
                    && w'.tasks[t].status == if w.tasks[t].step >= 500 then Failed else Running
               else w'.running == w.running && w'.launched == w.launched && w'.queue == w.queue + [t]
                    && w'.tasks[t] == w.tasks[t].(status := Queued)
  }

  lemma RestoresOne(cfg: ManagerConfig, w: World, t: TaskId, at: int)
    requires t in w.tasks && t !in w.running
    ensures RestoresAs(cfg, w, t, RestoreOne(cfg, w, t, at))
  {
    hide RunLoop;
    if w.tasks[t].status in {Running, Pending, Queued} && |w.running| < cfg.maxParallelTasks {
      hide RestoresAs;
      RestoreLaunches(cfg, w, t, at);
    }
  }

  lemma RestoreLaunches(cfg: ManagerConfig, w: World, t: TaskId, at: int)
    requires t in w.tasks && t !in w.running
    requires w.tasks[t].status in {Running, Pending, Queued} && |w.running| < cfg.maxParallelTasks
    ensures RestoresAs(cfg, w, t, RunLoop(cfg, w.(admitted := w.admitted + [t]), t, at))
  {
    hide RunLoop, Apply;
    LaunchedLoop(cfg, w.(admitted := w.admitted + [t]), t, at);
  }

  function Room(cfg: ManagerConfig, w: World): nat {
    if |w.running| < cfg.maxParallelTasks then cfg.maxParallelTasks - |w.running| else 0
  }

  ghost predicate RestoredAs(w: World, ones: seq<TaskId>, room: nat, w': World) {
    var k := Min(room, |ones|);
    w'.admitted == w.admitted + ones && w'.launched == w.launched + ones[..k] && w'.queue == w.queue + ones[k..]
  }

  /** After a restart the interrupted tasks are taken up in order: as many as there is room for are launched, the others
      wait. */
  lemma {:induction false} RestoredInOrder(cfg: ManagerConfig, w: World, active: seq<TaskId>, at: int)
    requires Distinct(active) && forall t :: t in active ==> t in w.tasks && t !in w.running
    ensures RestoredAs(w, Interrupted(w.tasks, active), Room(cfg, w), Restore(cfg, w, active, at))
    decreases |active|
  {
    hide RestoreOne, RestoredAs, RestoresAs, Room;
    if active == [] {
      NoneRestored(cfg, w);
    } else {
      var t, w1 := active[0], RestoreOne(cfg, w, active[0], at);
      RestoresOne(cfg, w, t, at);
      RestRemains(cfg, w, active, w1);
      RestoredInOrder(cfg, w1, active[1..], at);
      OneMoreRestored(cfg, w, t, w1, Interrupted(w.tasks, active[1..]), Restore(cfg, w1, active[1..], at));
    }
  }

  lemma NoneRestored(cfg: ManagerConfig, w: World)
    ensures RestoredAs(w, [], Room(cfg, w), w)
  {
  }

  lemma RestRemains(cfg: ManagerConfig, w: World, active: seq<TaskId>, w1: World)
    requires active != [] && Distinct(active) && forall t :: t in active ==> t in w.tasks && t !in w.running
    requires RestoresAs(cfg, w, active[0], w1)
    ensures forall t :: t in active[1..] ==> t in w1.tasks && t !in w1.running
    ensures Distinct(active[1..]) && Interrupted(w1.tasks, active[1..]) == Interrupted(w.tasks, active[1..])
  {
    assert active[0] !in active[1..];
    InterruptedAgree(w1.tasks, w.tasks, active[1..]);
  }

  /** How one restored task extends the three lists, and the room it leaves. */
  lemma ListsExtended(cfg: ManagerConfig, w: World, t: TaskId, w1: World)
    requires t in w.tasks && RestoresAs(cfg, w, t, w1) && w.tasks[t].status in {Running, Pending, Queued}
    ensures w1.admitted == w.admitted + [t]
    ensures if Room(cfg, w) > 0
            then Room(cfg, w1) == Room(cfg, w) - 1 && w1.launched == w.launched + [t] && w1.queue == w.queue
            else Room(cfg, w1) == 0 && w1.launched == w.launched && w1.queue == w.queue + [t]
  {
  }

  lemma ListsJoined(admitted: seq<TaskId>, launched: seq<TaskId>, queue: seq<TaskId>, t: TaskId, rest: seq<TaskId>, room: nat)
    ensures admitted + [t] + rest == admitted + ([t] + rest)
    ensures room > 0 ==>
              var k := Min(room - 1, |rest|);
              && Min(room, |[t] + rest|) == k + 1
              && launched + [t] + rest[..k] == launched + ([t] + rest)[..k + 1]
              && queue + rest[k..] == queue + ([t] + rest)[k + 1..]
    ensures room == 0 ==>
              launched + rest[..0] == launched + ([t] + rest)[..0] && queue + [t] + rest[0..] == queue + ([t] + rest)[0..]
  {
  }

  lemma OneMoreRestored(cfg: ManagerConfig, w: World, t: TaskId, w1: World, rest: seq<TaskId>, w': World)
    requires t in w.tasks && RestoresAs(cfg, w, t, w1) && RestoredAs(w1, rest, Room(cfg, w1), w')
    ensures RestoredAs(w, (if w.tasks[t].status in {Running, Pending, Queued} then [t] else []) + rest, Room(cfg, w), w')
  {
    if w.tasks[t].status in {Running, Pending, Queued} {
      ListsExtended(cfg, w, t, w1);
      hide RestoresAs, Room;
      ListsJoined(w.admitted, w.launched, w.queue, t, rest, Room(cfg, w));
    } else {
      hide Room;
      assert [] + rest == rest;
    }
  }

  // ---------------------------------------------------------------- runs

  ghost predicate SomeStepAchieves(cfg: ManagerConfig, w: World, events: seq<Event>, t: TaskId)
    decreases |events|
  {
    events != [] && Enabled(w, events[0])
    && (AchievedBy(w, events[0], t) || SomeStepAchieves(cfg, Step(cfg, w, events[0]), events[1..], t))
  }

  predicate IsCompleted(w: World, t: TaskId) { t in w.tasks && w.tasks[t].status == Completed }

  /** A task found completed at the end of a run, and not before it, was completed by a live loop told so. */
  lemma {:induction false} CompletedByALiveLoop(cfg: ManagerConfig, w: World, events: seq<Event>, w': World, t: TaskId)
    requires Scheduled(w) && Reaches(cfg, w, events, w') && !IsCompleted(w, t) && IsCompleted(w', t)
    ensures SomeStepAchieves(cfg, w, events, t)
    decreases |events|
  {
    hide Step, Scheduled, Enabled, AchievedBy;
    if events != [] {
      var w1 := Step(cfg, w, events[0]);
      StepKeepsSchedule(cfg, w, events[0]);
      if !IsCompleted(w1, t) {
        CompletedByALiveLoop(cfg, w1, events[1..], w', t);
      } else if t in w.tasks {
        StatusChangesExactly(cfg, w, events[0], t);
      } else {
        NewTasks(cfg, w, events[0], t);
      }
    }
  }

  lemma NewTasks(cfg: ManagerConfig, w: World, e: Event, t: TaskId)
    requires Scheduled(w) && Enabled(w, e) && t !in w.tasks
    ensures !IsCompleted(Step(cfg, w, e), t)
  {
    hide RunLoop, Segment, StopLoops, Halt;
    match e
    case Start(u, c, at) =>
      StartedStatus(cfg, w, u, c, at);
      LaunchedLoop(cfg, w.(tasks := w.tasks[u := Task(Pending, 0, c, None)], admitted := w.admitted + [u]), u, at);
    case Settle(l, at) =>
      if w.queue != [] {
        assert WaitingOk(w, w.queue[0]);
        LaunchedLoop(cfg, Deregister(w, l).(queue := w.queue[1..]), w.queue[0], at);
      }
    case ResumeTask(u, at) => if u in w.tasks { LaunchedLoop(cfg, w, u, at); }
    case Pause(u) => HaltKeepsTasks(w, u);
    case Stop(u) => HaltKeepsTasks(w, u);
    case _ =>
  }
}
