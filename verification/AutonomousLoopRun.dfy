/**
 The loop object itself: `run()` and the helpers it is made of, written as the program does it and proved to compute
 the segments of AutonomousLoop. The object owns its policy engine, whose `stored` field is the snapshot row.
 */
module AutonomousLoopRun {
  import opened Common
  import opened PolicyEngine
  import opened AutonomousLoop

  class LoopObject {
    const cfg: PolicyConfig
    const engine: PolicyEngine
    // the task's row and the shared daily total
    var row: Task
    var spent: real
    // the loop
    var aborted: bool
    var pc: Pc
    var step: nat
    // observations
    var plans: nat
    var tools: nat
    var resumptions: nat
    var firstStep: nat
    var moved: real
    var recorded: real
    var calls: seq<int>

    function View(): View
      reads this, engine
    {
      AutonomousLoop.View(
        row, engine.stored, spent, moved, recorded, calls,
        Loop(aborted, pc, step, engine.State(), plans, tools, resumptions, firstStep))
    }

    /** The callback is installed exactly while run() is active. */
    ghost predicate Valid()
      reads this, engine
    {
      engine.config == cfg && spent >= 0.0 && (engine.connected <==> !pc.Returned?)
    }

    constructor (cfg: PolicyConfig, row: Task, snapshot: Option<EngineState>, spent: real, calls: seq<int>)
      requires spent >= 0.0
      ensures fresh(engine) && engine.config == this.cfg == cfg && !engine.connected
      ensures View() == AutonomousLoop.View(row, snapshot, spent, 0.0, 0.0, calls, FreshLoop(row.step))
    {
      this.cfg := cfg;
      this.row, this.spent, this.calls := row, spent, calls;
      aborted, pc, step := false, Planning, row.step;
      plans, tools, resumptions, firstStep, moved, recorded := 0, 0, 0, row.step, 0.0, 0.0;
      var e := new PolicyEngine(cfg);
      engine := e;
      new;
      engine.stored := snapshot;
    }

    method SafeUpdateStatus(status: Status) returns (written: bool)
      modifies this`row
      ensures row == AutonomousLoop.SafeUpdateStatus(old(row), status)
      ensures written <==> !(IsExternalTerminal(old(row).status) && old(row).status != status)
    {
      if IsExternalTerminal(row.status) && row.status != status {
        return false;
      }
      row := row.(status := status);
      return true;
    }

    method ClearStateOnTerminal()
      modifies engine`stored
      ensures View() == AutonomousLoop.ClearStateOnTerminal(old(View()))
    {
      if row.status == Paused {
        return;
      }
      engine.stored := None;
    }

    /** Every return of run() passes its `finally`, which disconnects the callback. */
    method Return(result: Status)
      modifies this`pc, engine`connected
      ensures View() == AutonomousLoop.Return(old(View()), result) && !engine.connected
    {
      pc := Returned(result);
      engine.connected := false;
    }

    method Finish(status: Status)
      requires Valid()
      modifies this, engine
      ensures Valid() && View() == AutonomousLoop.Finish(old(View()), status)
    {
      var _ := SafeUpdateStatus(status);
      ClearStateOnTerminal();
      Return(status);
    }

    /** The handler of LoopAbortedError. */
    method Unwind()
      requires Valid()
      modifies this, engine
      ensures Valid() && View() == AutonomousLoop.Unwind(old(View()))
    {
      var status := row.status;
      if status == Cancelled || status == Completed || status == Failed {
        ClearStateOnTerminal();
      }
      Return(if IsExternalTerminal(status) then status else Cancelled);
    }

    method LeaveAborted()
      requires Valid()
      modifies this, engine
      ensures Valid() && View() == AutonomousLoop.LeaveAborted(old(View()))
    {
      var _ := SafeUpdateStatus(Cancelled);
      var status := row.status;
      if status == Cancelled {
        ClearStateOnTerminal();
      }
      Return(if status == Paused then Paused else Cancelled);
    }

    /** The top of the while loop, up to the planning call. */
    method Header(at: int)
      requires Valid() && !pc.Returned?
      modifies this, engine
      ensures Valid() && View() == AutonomousLoop.Header(cfg, old(View()), at)
    {
      if aborted {
        LeaveAborted();
        return;
      }
      step := row.step;
      if row.status == Cancelled {
        ClearStateOnTerminal();
        Return(Cancelled);
      } else if row.status == Paused {
        Return(Paused);
      } else if step >= MAX_GLOBAL_ITERATIONS {
        Finish(Failed);
      } else {
        engine.RecordApiCall(at);
        pc, plans := Planning, plans + 1;
      }
    }

    /** run() up to its first await. */
    method Begin(at: int)
      requires engine.config == cfg && spent >= 0.0 && !pc.Returned? && !engine.connected && !aborted
      requires engine.State() == FreshEngine
      modifies this, engine
      ensures Valid() && View() == AutonomousLoop.Begin(cfg, old(View()), at)
    {
      if engine.stored.Some? {
        engine.Hydrate(Some(Serialized(engine.stored.value)));
      }
      engine.connected := true;
      row := row.(
        status := Running,
        startedAt := if row.startedAt.Some? then row.startedAt else Some(at / 1000 * 1000));
      step := row.step;
      Header(at);
    }

    method OnPlan(a: PolicyAction, checkedAt: int, recordedAt: int)
      requires Valid() && pc.Planning?
      modifies this, engine
      ensures Valid() && View() == AutonomousLoop.AfterPlan(cfg, old(View()), a, checkedAt, recordedAt)
    {
      hide Allowed, NeedsEscalation, ViolationSet, AfterCheck, AfterToolCall;
      engine.SetDailySpend(Finite(spent));
      var verdict := engine.CheckAction(step, row.constraints, row.startedAt, a, checkedAt);
      if !verdict.allowed {
        Finish(Failed);
      } else if verdict.requiresEscalation {
        pc := Escalating;
      } else {
        engine.RecordToolCall(recordedAt);
        pc, tools, calls := ExecutingTool(a), tools + 1, calls + [recordedAt];
      }
    }

    method OnTool(a: PolicyAction, success: bool, at: int)
      requires Valid() && pc.ExecutingTool?
      modifies this, engine
      ensures Valid() && View() == AutonomousLoop.AfterTool(cfg, old(View()), a, success, at)
    {
      if success {
        var spend := ExtractTonSpend(a);
        if spend.SpendUnbounded? {
          Finish(Failed);
          return;
        }
        if spend.Spend? {
          spent, recorded := spent + spend.ton, recorded + spend.ton;
        }
      }
      engine.RecordAction(a.toolName);
      engine.RecordApiCall(at);
      pc := Reflecting;
    }

    method AdvanceStep(goalAchieved: bool)
      requires Valid() && !pc.Returned?
      modifies this, engine
      ensures Valid() && View() == AutonomousLoop.AdvanceStep(old(View()), goalAchieved)
    {
      row := row.(step := row.step + 1);
      step, pc := row.step, Evaluating;
      if goalAchieved {
        if aborted {
          Unwind();
        } else {
          Finish(Completed);
        }
      }
    }

    method OnReflection(r: Reflection)
      requires Valid() && pc.Reflecting?
      modifies this, engine
      ensures Valid() && View() == AutonomousLoop.AfterReflection(cfg, old(View()), r)
    {
      if !r.goalAchieved && r.shouldEscalate {
        pc := Escalating;
        return;
      }
      if !r.goalAchieved && r.isStuck {
        var escalate := engine.RecordUncertain();
        if escalate {
          pc := Escalating;
          return;
        }
      } else {
        engine.ResetUncertainCount();
      }
      AdvanceStep(r.goalAchieved);
    }

    /** The awaited promise rejected; the abort flag is not looked at. */
    method OnRejection(o: Outcome)
      requires Valid() && Awaits(pc, o)
      requires o.PlanRejected? || o.EscalationRejected? || o.ToolRejected? || o.ReflectionRejected? || o.EvaluationRejected?
      modifies this, engine
      ensures Valid() && View() == Segment(cfg, old(View()), o)
    {
      if o.ToolRejected? {
        OnTool(pc.action, false, o.at);
      } else if o.ReflectionRejected? {
        OnReflection(Reflection(false, false, false));
      } else {
        Finish(Failed);
      }
    }

    /** The awaited promise resolved and throwIfAborted let the loop go on. */
    method OnResolution(o: Outcome)
      requires Valid() && Awaits(pc, o) && !aborted
      requires o.PlanResolved? || o.EscalationResolved? || o.ReflectionResolved? || o.EvaluationResolved?
      modifies this, engine
      ensures Valid() && View() == Segment(cfg, old(View()), o)
    {
      match o
      case PlanResolved(a, checkedAt, recordedAt) => OnPlan(a, checkedAt, recordedAt);
      case EscalationResolved =>
        var _ := SafeUpdateStatus(Paused);
        Return(Paused);
      case ReflectionResolved(r) => OnReflection(r);
      case EvaluationResolved(achieved, at) =>
        if achieved {
          Finish(Completed);
        } else {
          Header(at);
        }
    }

    method OnToolResolved(success: bool, at: int)
      requires Valid() && pc.ExecutingTool?
      modifies this, engine
      ensures Valid() && View() == Segment(cfg, old(View()), ToolResolved(success, at))
    {
      moved := moved + if success then SpendOf(pc.action) else 0.0;
      if aborted {
        Unwind();
      } else {
        OnTool(pc.action, success, at);
      }
    }

    /** One settled await: the rest of the segment is exactly the one of the model. */
    method Continue(o: Outcome)
      requires Valid() && Awaits(pc, o)
      modifies this, engine
      ensures Valid() && View() == Segment(cfg, old(View()), o)
    {
      if o.PlanRejected? || o.EscalationRejected? || o.ToolRejected? || o.ReflectionRejected? || o.EvaluationRejected? {
        OnRejection(o);
      } else if o.ToolResolved? {
        OnToolResolved(o.success, o.at);
      } else if aborted {
        Unwind();
      } else {
        OnResolution(o);
      }
    }

    /** run() from start to return against arbitrary dependencies: it terminates, and does no more work than the task's
        limit allows. */
    method Run(answers: (nat, Pc) -> Outcome, at: int)
      requires engine.config == cfg && !engine.connected && View().loop == FreshLoop(row.step) && spent >= 0.0
      requires forall i: nat, p: Pc :: !p.Returned? ==> Awaits(p, answers(i, p))
      modifies this, engine
      ensures Valid() && pc.Returned?
      ensures tools <= Max(0, IterationCap(old(row).constraints) - old(row).step)
      ensures plans <= tools + 1
      ensures resumptions <= 5 * Max(0, MAX_GLOBAL_ITERATIONS - old(row).step) + 4
    {
      BeginAccounts(cfg, View(), at);
      Begin(at);
      while !pc.Returned?
        invariant Valid() && StepsAccounted(View())
        invariant firstStep == old(row).step && row.constraints == old(row).constraints
        invariant resumptions + Fuel(View().loop) <= 5 * Max(0, MAX_GLOBAL_ITERATIONS - old(row).step) + 4
        decreases Fuel(View().loop)
      {
        var o := answers(resumptions, pc);
        resumptions := resumptions + 1;
        ghost var v := View();
        SegmentAccounts(cfg, v, o);
        SegmentBurnsFuel(cfg, v, o);
        SegmentMovesForward(cfg, v, o);
        Continue(o);
      }
    }
  }
}
