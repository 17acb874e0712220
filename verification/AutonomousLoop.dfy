/**
 One autonomous loop, cut at its awaits. A loop resumes when the dependency it awaits settles and then runs
 synchronously up to its next await or to its return; that segment is a function on what the loop can see.
 */
module AutonomousLoop {
  import opened Common
  import opened PolicyEngine

  const MAX_GLOBAL_ITERATIONS := 500

  datatype Status = Pending | Queued | Running | Paused | Completed | Failed | Cancelled

  /** Statuses a loop must not overwrite. */
  predicate IsExternalTerminal(s: Status) { s in {Paused, Cancelled, Completed, Failed} }

  /** A row of the task table. */
  datatype Task = Task(status: Status, step: nat, constraints: Constraints, startedAt: Option<int>)

  datatype Reflection = Reflection(isStuck: bool, goalAchieved: bool, shouldEscalate: bool)

  /** How the awaited dependency settled, with the clock readings taken while the loop then runs. */
  datatype Outcome =
    | PlanResolved(action: PolicyAction, checkedAt: int, recordedAt: int)
    | PlanRejected
    | EscalationResolved
    | EscalationRejected
    | ToolResolved(success: bool, at: int)
    | ToolRejected(at: int)
    | ReflectionResolved(reflection: Reflection)
    | ReflectionRejected
    | EvaluationResolved(achieved: bool, at: int)
    | EvaluationRejected

  /** What a loop is waiting for. */
  datatype Pc =
    | Planning
    | Escalating
    | ExecutingTool(action: PolicyAction)
    | Reflecting
    | Evaluating
    | Returned(result: Status)

  /** `step` is the loop's own copy of the task's step. The last four fields only observe: calls of the planner, tools
      executed, resumptions so far, and the step the run began at. */
  datatype Loop = Loop(
    aborted: bool,
    pc: Pc,
    step: nat,
    engine: EngineState,
    plans: nat,
    tools: nat,
    resumptions: nat,
    firstStep: nat)

  /** Everything one segment reads or writes: the task's row, its policy snapshot, the shared daily total, the loop
      itself. `moved` and `recorded` total the TON that successful tools spent and that was entered in the store;
      `calls` lists every tool call the task has ever made. */
  datatype View = View(
    row: Task,
    snapshot: Option<EngineState>,
    spent: real,
    moved: real,
    recorded: real,
    calls: seq<int>,
    loop: Loop)

  predicate IsLive(l: Loop) { !l.aborted && !l.pc.Returned? }

  predicate Awaits(pc: Pc, o: Outcome) {
    match pc
    case Planning => o.PlanResolved? || o.PlanRejected?
    case Escalating => o.EscalationResolved? || o.EscalationRejected?
    case ExecutingTool(_) => o.ToolResolved? || o.ToolRejected?
    case Reflecting => o.ReflectionResolved? || o.ReflectionRejected?
    case Evaluating => o.EvaluationResolved? || o.EvaluationRejected?
    case Returned(_) => false
  }

  function SpendOf(a: PolicyAction): (t: real)
    ensures t >= 0.0
  {
    match ExtractTonSpend(a)
    case Spend(t) => t
    case _ => 0.0
  }

  /** TON that a checked tool may still spend. */
  function InFlight(l: Loop): (t: real)
    ensures t >= 0.0
  {
    if l.pc.ExecutingTool? then SpendOf(l.pc.action) else 0.0
  }

  // ---------------------------------------------------------------- pieces of run()

  /** The write-through callback saves every change of the engine while the loop runs. */
  function Save(v: View, e: EngineState): View {
    v.(loop := v.loop.(engine := e), snapshot := Some(e))
  }

  function SafeUpdateStatus(row: Task, status: Status): Task {
    if IsExternalTerminal(row.status) && row.status != status then row else row.(status := status)
  }

  function ClearStateOnTerminal(v: View): View {
    if v.row.status == Paused then v else v.(snapshot := None)
  }

  function Return(v: View, result: Status): View { v.(loop := v.loop.(pc := Returned(result))) }

  function Finish(v: View, status: Status): View {
    Return(ClearStateOnTerminal(v.(row := SafeUpdateStatus(v.row, status))), status)
  }

  function PauseSelf(v: View): View { Return(v.(row := SafeUpdateStatus(v.row, Paused)), Paused) }

  /** The handler of LoopAbortedError. */
  function Unwind(v: View): View {
    var status := v.row.status;
    Return(
      if status in {Cancelled, Completed, Failed} then ClearStateOnTerminal(v) else v,
      if IsExternalTerminal(status) then status else Cancelled)
  }

  /** After the while loop: reached only when its header sees the abort flag. */
  function LeaveAborted(v: View): View {
    var row := SafeUpdateStatus(v.row, Cancelled);
    var v' := v.(row := row);
    Return(if row.status == Cancelled then ClearStateOnTerminal(v') else v',
           if row.status == Paused then Paused else Cancelled)
  }

  /** The top of the while loop, up to the planning call. */
  function Header(cfg: PolicyConfig, v: View, at: int): View {
    if v.loop.aborted then LeaveAborted(v)
    else
      var v' := v.(loop := v.loop.(step := v.row.step));
      if v.row.status == Cancelled then Return(ClearStateOnTerminal(v'), Cancelled)
      else if v.row.status == Paused then Return(v', Paused)
      else if v.row.step >= MAX_GLOBAL_ITERATIONS then Finish(v', Failed)
      else
        var s := Save(v', AfterApiCall(cfg, v'.loop.engine, at));
        s.(loop := s.loop.(pc := Planning, plans := s.loop.plans + 1))
  }

  /** run() up to its first await: hydrate, mark the task running, enter the loop. */
  function Begin(cfg: PolicyConfig, v: View, at: int): View {
    if v.loop.aborted then Return(v, Cancelled)
    else
      var row := v.row.(
        status := Running,
        startedAt := if v.row.startedAt.Some? then v.row.startedAt else Some(at / 1000 * 1000));
      Header(cfg, v.(row := row, loop := v.loop.(engine := v.snapshot.GetOr(FreshEngine), step := row.step)), at)
  }

  function FreshLoop(step: nat): Loop { Loop(false, Planning, step, FreshEngine, 0, 0, 0, step) }

  function InputOf(v: View, a: PolicyAction): CheckInput {
    CheckInput(v.loop.step, v.row.constraints, v.row.startedAt, a, if v.spent >= 0.0 then v.spent else 0.0)
  }

  /** Guardrails, then escalation, refusal or the tool call. */
  function AfterPlan(cfg: PolicyConfig, v: View, a: PolicyAction, checkedAt: int, recordedAt: int): View {
    var e := v.loop.engine;
    var checked := v.(loop := v.loop.(engine := AfterCheck(e, checkedAt)));
    if !Allowed(cfg, e, InputOf(v, a), checkedAt) then Finish(checked, Failed)
    else if NeedsEscalation(cfg, e, InputOf(v, a), checkedAt) then checked.(loop := checked.loop.(pc := Escalating))
    else
      var s := Save(checked, AfterToolCall(cfg, checked.loop.engine, recordedAt));
      s.(loop := s.loop.(pc := ExecutingTool(a), tools := s.loop.tools + 1), calls := s.calls + [recordedAt])
  }

  /** Records the spend of a successful tool, then the action, then asks for a reflection. */
  function AfterTool(cfg: PolicyConfig, v: View, a: PolicyAction, success: bool, at: int): View {
    if success && ExtractTonSpend(a).SpendUnbounded? then Finish(v, Failed) // recordDailyTonSpend throws
    else
      var t := if success then SpendOf(a) else 0.0;
      var paid := v.(spent := v.spent + t, recorded := v.recorded + t);
      var s := Save(paid, AfterApiCall(cfg, AfterAction(paid.loop.engine, a.toolName), at));
      s.(loop := s.loop.(pc := Reflecting))
  }

  /** Step counter, checkpoint and the success test. */
  function AdvanceStep(v: View, goalAchieved: bool): View {
    var row := v.row.(step := v.row.step + 1);
    var v' := v.(row := row, loop := v.loop.(step := row.step, pc := Evaluating));
    if !goalAchieved then v'
    else if v'.loop.aborted then Unwind(v')
    else Finish(v', Completed)
  }

  function AfterReflection(cfg: PolicyConfig, v: View, r: Reflection): View {
    if !r.goalAchieved && r.shouldEscalate then v.(loop := v.loop.(pc := Escalating))
    else if !r.goalAchieved && r.isStuck then
      var s := Save(v, AfterUncertain(v.loop.engine));
      if s.loop.engine.uncertain >= cfg.maxConsecutiveUncertain then s.(loop := s.loop.(pc := Escalating))
      else AdvanceStep(s, r.goalAchieved)
    else if v.loop.engine.uncertain == 0 then AdvanceStep(v, r.goalAchieved)
    else AdvanceStep(Save(v, AfterResetUncertain(v.loop.engine)), r.goalAchieved)
  }

  /** One segment. A resolved await re-checks the abort flag first; a rejected one does not. */
  function Segment(cfg: PolicyConfig, v: View, o: Outcome): View
    requires Awaits(v.loop.pc, o)
  {
    match o
    case PlanResolved(a, checkedAt, recordedAt) =>
      if v.loop.aborted then Unwind(v) else AfterPlan(cfg, v, a, checkedAt, recordedAt)
    case PlanRejected => Finish(v, Failed)
    case EscalationResolved => if v.loop.aborted then Unwind(v) else PauseSelf(v)
    case EscalationRejected => Finish(v, Failed)
    case ToolResolved(success, at) =>
      var a := v.loop.pc.action;
      var moved := v.(moved := v.moved + if success then SpendOf(a) else 0.0);
      if v.loop.aborted then Unwind(moved) else AfterTool(cfg, moved, a, success, at)
    case ToolRejected(at) => AfterTool(cfg, v, v.loop.pc.action, false, at)
    case ReflectionResolved(r) => if v.loop.aborted then Unwind(v) else AfterReflection(cfg, v, r)
    case ReflectionRejected => AfterReflection(cfg, v, Reflection(false, false, false))
    case EvaluationResolved(achieved, at) =>
      if v.loop.aborted then Unwind(v)
      else if achieved then Finish(v, Completed)
      else Header(cfg, v, at)
    case EvaluationRejected => Finish(v, Failed)
  }

  function Counted(l: Loop): Loop { l.(resumptions := l.resumptions + 1) }

  // ---------------------------------------------------------------- status protection

  /** No segment ever changes a paused, cancelled, completed or failed status. */
  lemma StatusProtected(cfg: PolicyConfig, v: View, o: Outcome)
    requires Awaits(v.loop.pc, o)
    requires IsExternalTerminal(v.row.status)
    ensures Segment(cfg, v, o).row.status == v.row.status
  {
  }

  /** Rejections that a loop does not tell apart from a crash of its own. */
  predicate CrashesLoop(o: Outcome) { o.PlanRejected? || o.EscalationRejected? || o.EvaluationRejected? }

  /** A stopped loop changes the status exactly when a planning, escalation or evaluation call rejects while the task is
      not paused or finished; it then writes "failed". */
  lemma StoppedLoopWrites(cfg: PolicyConfig, v: View, o: Outcome)
    requires Awaits(v.loop.pc, o) && v.loop.aborted
    ensures var s := Segment(cfg, v, o).row.status;
            && (s != v.row.status <==> CrashesLoop(o) && !IsExternalTerminal(v.row.status))
            && (s != v.row.status ==> s == Failed)
  {
  }

  /** The policy snapshot of a paused task is never dropped by a loop. */
  lemma PausedSnapshotKept(cfg: PolicyConfig, v: View, o: Outcome)
    requires Awaits(v.loop.pc, o)
    requires v.row.status == Paused && v.snapshot.Some?
    ensures Segment(cfg, v, o).snapshot.Some?
  {
  }

  /** A loop that goes on running works for a task that is running or that a stopped loop has failed. */
  lemma GoingOnMeansRunning(cfg: PolicyConfig, v: View, o: Outcome)
    requires Awaits(v.loop.pc, o)
    requires v.row.status in {Running, Failed}
    ensures var v' := Segment(cfg, v, o);
            !v'.loop.pc.Returned? ==> v'.row.status == v.row.status
  {
  }

  // ---------------------------------------------------------------- bounded work

  function IterationCap(c: Constraints): int { Min(MAX_GLOBAL_ITERATIONS, MaxIterationsOf(c)) }

  /** How the steps, plans and tool calls of a run relate to the step of its task. */
  predicate Accounted(row: Task, l: Loop) {
    && (!l.pc.Returned? ==> l.step <= row.step)
    && (l.pc.Planning? ==> l.step < MAX_GLOBAL_ITERATIONS && l.firstStep + l.tools <= l.step && l.plans == l.tools + 1)
    && (l.pc.ExecutingTool? || l.pc.Reflecting? ==> l.step < MAX_GLOBAL_ITERATIONS)
    && (l.pc.ExecutingTool? || l.pc.Reflecting? ==> l.firstStep + l.tools <= l.step + 1 && l.plans == l.tools)
    && (l.pc.Evaluating? ==> l.firstStep + l.tools <= l.step && l.plans == l.tools)
    && l.tools <= l.plans <= l.tools + 1
    && l.tools <= Max(0, IterationCap(row.constraints) - l.firstStep)
  }

  predicate StepsAccounted(v: View) { Accounted(v.row, v.loop) }

  /** Resumptions a loop may still need. */
  function Fuel(l: Loop): nat {
    var left := Max(0, MAX_GLOBAL_ITERATIONS - l.step);
    match l.pc
    case Planning => 5 * left + 4
    case ExecutingTool(_) => 5 * left + 3
    case Reflecting => 5 * left + 2
    case Escalating => 1
    case Evaluating => 5 * left + 5
    case Returned(_) => 0
  }

  lemma PlanAccounts(cfg: PolicyConfig, v: View, a: PolicyAction, checkedAt: int, recordedAt: int)
    requires v.loop.pc.Planning? && StepsAccounted(v)
    ensures StepsAccounted(AfterPlan(cfg, v, a, checkedAt, recordedAt))
  {
    var v' := AfterPlan(cfg, v, a, checkedAt, recordedAt);
    if v'.loop.pc.ExecutingTool? {
      LetThrough(cfg, v.loop.engine, InputOf(v, a), checkedAt);
    }
  }

  lemma ReflectionAccounts(cfg: PolicyConfig, v: View, r: Reflection)
    requires v.loop.pc.Reflecting? && StepsAccounted(v)
    ensures StepsAccounted(AfterReflection(cfg, v, r))
  {
  }

  lemma HeaderAccounts(cfg: PolicyConfig, v: View, at: int)
    requires v.loop.pc.Evaluating? && StepsAccounted(v)
    ensures StepsAccounted(Header(cfg, v, at))
  {
  }

  lemma ToolAccounts(cfg: PolicyConfig, v: View, a: PolicyAction, success: bool, at: int)
    requires v.loop.pc.ExecutingTool? && StepsAccounted(v)
    ensures StepsAccounted(AfterTool(cfg, v, a, success, at))
  {
  }

  lemma ReturnAccounts(v: View, status: Status)
    requires StepsAccounted(v)
    ensures StepsAccounted(Finish(v, status)) && StepsAccounted(Unwind(v)) && StepsAccounted(PauseSelf(v))
  {
  }

  lemma SegmentAccounts(cfg: PolicyConfig, v: View, o: Outcome)
    requires Awaits(v.loop.pc, o) && StepsAccounted(v)
    ensures StepsAccounted(Segment(cfg, v, o))
  {
    ReturnAccounts(v, Failed);
    ReturnAccounts(v, Completed);
    match o
    case PlanResolved(a, checkedAt, recordedAt) => PlanAccounts(cfg, v, a, checkedAt, recordedAt);
    case ToolResolved(success, at) =>
      var moved := v.(moved := v.moved + if success then SpendOf(v.loop.pc.action) else 0.0);
      ReturnAccounts(moved, Failed);
      ToolAccounts(cfg, moved, v.loop.pc.action, success, at);
    case ToolRejected(at) => ToolAccounts(cfg, v, v.loop.pc.action, false, at);
    case ReflectionResolved(r) => ReflectionAccounts(cfg, v, r);
    case ReflectionRejected => ReflectionAccounts(cfg, v, Reflection(false, false, false));
    case EvaluationResolved(_, at) => HeaderAccounts(cfg, v, at);
    case _ =>
  }

  lemma SegmentBurnsFuel(cfg: PolicyConfig, v: View, o: Outcome)
    requires Awaits(v.loop.pc, o) && StepsAccounted(v)
    ensures Fuel(Segment(cfg, v, o).loop) < Fuel(v.loop)
  {
  }

  lemma SegmentMovesForward(cfg: PolicyConfig, v: View, o: Outcome)
    requires Awaits(v.loop.pc, o)
    ensures var v' := Segment(cfg, v, o);
            && v'.row.step >= v.row.step && v'.row.constraints == v.row.constraints
            && v'.loop.firstStep == v.loop.firstStep && v'.loop.resumptions == v.loop.resumptions
  {
  }

  lemma BeginAccounts(cfg: PolicyConfig, v: View, at: int)
    requires v.loop == FreshLoop(v.row.step)
    ensures var v' := Begin(cfg, v, at);
            && StepsAccounted(v') && v'.loop.firstStep == v.row.step && v'.loop.resumptions == 0
            && Fuel(v'.loop) <= 5 * Max(0, MAX_GLOBAL_ITERATIONS - v.row.step) + 4
            && v'.row.step == v.row.step && v'.row.constraints == v.row.constraints
            && !v'.loop.aborted
            && v'.spent == v.spent && v'.moved == v.moved && v'.recorded == v.recorded
            && (IsLive(v'.loop) ==> v'.row.status == Running)
            && InFlight(v'.loop) == 0.0
  {
  }
}
