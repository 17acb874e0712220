/** What the guardrails promise, tool by tool and limit by limit, and that the amounts they bound are the amounts recorded. */
module PolicyVerdicts {
  import opened Common
  import opened PolicyEngine
  import opened AutonomousLoop
  import opened AutonomousWorld

  // ---------------------------------------------------------------- amounts

  /** The tools whose amount parameter is TON: always, or when they swap from TON. */
  predicate ParameterIsTon(a: PolicyAction) {
    a.toolName in {"ton_send", "dns_start_auction", "dns_bid"}
    || (a.toolName in {"stonfi_swap", "dedust_swap"} && a.fromAssetIsTon)
  }

  predicate FixedPrice(a: PolicyAction) { a.toolName in {"jetton_send", "dns_link", "dns_unlink", "dns_set_site"} }

  /** A tool about which nothing is known but the amount the planner declares. */
  predicate DeclaredOnly(a: PolicyAction) {
    a.toolName !in {"", "ton_send", "dns_start_auction", "dns_bid", "jetton_send", "dns_link", "dns_unlink",
                    "dns_set_site", "stonfi_swap", "dedust_swap"}
  }

  /** A finite amount above zero. */
  predicate PositiveTon(a: Amount) { a.Finite? && a.ton > 0.0 }

  /** What an action is taken to spend, by the name of its tool. */
  lemma SpendByTool(a: PolicyAction)
    ensures ParameterIsTon(a) ==>
              ExtractTonSpend(a) == if PositiveTon(a.paramAmount) then Spend(a.paramAmount.ton) else InvalidSpend
    ensures FixedPrice(a) ==> ExtractTonSpend(a) == Spend(0.05)
    ensures a.toolName in {"stonfi_swap", "dedust_swap"} && !a.fromAssetIsTon ==> ExtractTonSpend(a) == NoSpend
    ensures a.toolName == "" ==> ExtractTonSpend(a) == NoSpend
    ensures DeclaredOnly(a) ==>
              ExtractTonSpend(a) == if PositiveTon(a.tonAmount) then Spend(a.tonAmount.ton)
                                    else if a.tonAmount == PosInfinity then SpendUnbounded else NoSpend
    ensures ParameterIsTon(a) || FixedPrice(a) || DeclaredOnly(a) || a.toolName in {"", "stonfi_swap", "dedust_swap"}
  {
  }

  // ---------------------------------------------------------------- verdicts

  /** The action may spend this much unasked: task budget, confirmation threshold, what is left of the day. */
  predicate Affordable(cfg: PolicyConfig, i: CheckInput, ton: real) {
    && ton <= (if i.constraints.budgetTON.Some? then i.constraints.budgetTON.value else cfg.perTask)
    && ton <= cfg.requireConfirmationAbove
    && i.dailySpend + ton <= cfg.daily
  }

  /** The amount fits in the task budget and in what is left of the day. */
  predicate WithinBudgets(cfg: PolicyConfig, i: CheckInput, ton: real) {
    && ton <= (if i.constraints.budgetTON.Some? then i.constraints.budgetTON.value else cfg.perTask)
    && i.dailySpend + ton <= cfg.daily
  }

  /** Nothing about the action's amounts blocks it: the declared one is well-formed if there is one, the real one is
      well-formed and within both budgets. */
  predicate MoneyPasses(cfg: PolicyConfig, i: CheckInput) {
    var a := i.action;
    && (a.tonAmount == Undefined || (a.tonAmount.Finite? && a.tonAmount.ton >= 0.0))
    && (ParameterIsTon(a) ==> PositiveTon(a.paramAmount) && WithinBudgets(cfg, i, a.paramAmount.ton))
    && (FixedPrice(a) ==> WithinBudgets(cfg, i, 0.05))
    && (DeclaredOnly(a) && PositiveTon(a.tonAmount) ==> WithinBudgets(cfg, i, a.tonAmount.ton))
  }

  /** The amount alone makes the user be asked. */
  predicate MoneyAsks(cfg: PolicyConfig, i: CheckInput) {
    var a := i.action;
    || (ParameterIsTon(a) && PositiveTon(a.paramAmount) && a.paramAmount.ton > cfg.requireConfirmationAbove)
    || (FixedPrice(a) && 0.05 > cfg.requireConfirmationAbove)
    || (DeclaredOnly(a) && PositiveTon(a.tonAmount) && a.tonAmount.ton > cfg.requireConfirmationAbove)
    || (DeclaredOnly(a) && a.tonAmount == PosInfinity)
  }

  /** The task may still act: iterations, hours, and its list of allowed tools. */
  predicate TaskPasses(i: CheckInput, now: int) {
    && i.step < (if i.constraints.maxIterations.Some? then i.constraints.maxIterations.value else 50)
    && (i.constraints.maxDurationHours.Some? && i.startedAt.Some? ==>
          (now - i.startedAt.value) as real < i.constraints.maxDurationHours.value * 3600000.0)
    && (i.constraints.allowedTools == [] || i.action.toolName == "" || i.action.toolName in i.constraints.allowedTools)
  }

  /** How many of the recorded calls are younger than this. */
  function Younger(ts: seq<int>, now: int, age: int): nat {
    if ts == [] then 0 else Younger(ts[..|ts| - 1], now, age) + if now - ts[|ts| - 1] < age then 1 else 0
  }

  predicate RatesPass(cfg: PolicyConfig, e: EngineState, now: int) {
    Younger(e.toolCalls, now, 3600000) < cfg.toolCallsPerHour && Younger(e.apiCalls, now, 60000) < cfg.apiCallsPerMinute
  }

  /** The last so many actions recorded are one and the same; a threshold of zero looks at all of them. */
  predicate Repeats(cfg: PolicyConfig, e: EngineState) {
    var acts, m := e.recentActions, cfg.maxIdenticalActions;
    cfg.loopDetectionEnabled && |acts| >= m
    && forall i :: 0 <= i < |acts| && (m == 0 || |acts| - m <= i) ==> acts[i] == acts[|acts| - 1]
  }

  /** The tool is one the configuration or the task restricts. */
  predicate ToolRestricted(cfg: PolicyConfig, i: CheckInput) {
    i.action.toolName != ""
    && (i.action.toolName in cfg.restrictedTools || i.action.toolName in i.constraints.restrictedTools)
  }

  // ---------------------------------------------------------------- windows

  lemma {:induction false} WithinCounts(ts: seq<int>, now: int, age: int)
    ensures |Within(ts, now, age)| == Younger(ts, now, age)
  {
    if ts != [] {
      WithinCounts(ts[1..], now, age);
      YoungerFront(ts, now, age);
    }
  }

  lemma {:induction false} YoungerFront(ts: seq<int>, now: int, age: int)
    requires ts != []
    ensures Younger(ts, now, age) == (if now - ts[0] < age then 1 else 0) + Younger(ts[1..], now, age)
  {
    if |ts| > 1 {
      YoungerFront(ts[..|ts| - 1], now, age);
      assert ts[1..][..|ts| - 2] == ts[..|ts| - 1][1..];
    }
  }

  ghost predicate AllFirst(s: seq<string>) { forall i :: 0 <= i < |s| ==> s[i] == s[0] }

  ghost predicate AllLast(s: seq<string>, k: nat) { forall i :: k <= i < |s| ==> s[i] == s[|s| - 1] }

  lemma SameEnd(s: seq<string>, k: nat)
    requires k <= |s|
    ensures AllFirst(s[k..]) <==> AllLast(s, k)
  {
    if AllFirst(s[k..]) {
      forall i | k <= i < |s|
        ensures s[i] == s[|s| - 1]
      {
        assert s[k..][i - k] == s[k..][0] == s[k..][|s| - 1 - k];
      }
    }
    if AllLast(s, k) {
      forall i | 0 <= i < |s[k..]|
        ensures s[k..][i] == s[k..][0]
      {
        assert s[k + i] == s[|s| - 1] == s[k];
      }
    }
  }

  lemma RepeatsDetected(cfg: PolicyConfig, e: EngineState)
    ensures DetectsLoop(cfg, e.recentActions) <==> Repeats(cfg, e)
  {
    var acts, m := e.recentActions, cfg.maxIdenticalActions;
    if cfg.loopDetectionEnabled && |acts| >= m {
      var k := if m == 0 then 0 else |acts| - m;
      assert SliceLast(acts, m) == acts[k..];
      SameEnd(acts, k);
      hide SliceLast;
      assert DetectsLoop(cfg, acts) <==> AllFirst(acts[k..]);
      assert Repeats(cfg, e) <==> AllLast(acts, k);
    }
  }

  lemma {:induction false} WithinIsYounger(ts: seq<int>, now: int, age: int)
    ensures forall t :: t in Within(ts, now, age) <==> t in ts && now - t < age
  {
    if ts != [] {
      WithinIsYounger(ts[1..], now, age);
      assert forall t :: t in ts <==> t == ts[0] || t in ts[1..];
    }
  }

  /** A check forgets the calls that are an hour and a minute old, and nothing else. */
  lemma CheckPrunes(e: EngineState, now: int)
    ensures var e' := AfterCheck(e, now);
            && (forall t :: t in e'.toolCalls <==> t in e.toolCalls && now - t < 3600000)
            && (forall t :: t in e'.apiCalls <==> t in e.apiCalls && now - t < 60000)
            && |e'.toolCalls| == Younger(e.toolCalls, now, 3600000) && |e'.apiCalls| == Younger(e.apiCalls, now, 60000)
            && e'.uncertain == e.uncertain && e'.recentActions == e.recentActions
  {
    WithinIsYounger(e.toolCalls, now, 3600000);
    WithinIsYounger(e.apiCalls, now, 60000);
    WithinCounts(e.toolCalls, now, 3600000);
    WithinCounts(e.apiCalls, now, 60000);
  }

  // ---------------------------------------------------------------- main results

  lemma BlockingKinds(cfg: PolicyConfig, e: EngineState, i: CheckInput, now: int)
    ensures Allowed(cfg, e, i, now) <==>
            && !Violates(cfg, e, i, now, MaxIterations) && !Violates(cfg, e, i, now, DurationExceeded)
            && !Violates(cfg, e, i, now, NotAllowedTool) && !Violates(cfg, e, i, now, InvalidDeclaredAmount)
            && !Violates(cfg, e, i, now, InvalidTonAmount) && !Violates(cfg, e, i, now, TaskBudgetExceeded)
            && !Violates(cfg, e, i, now, DailyBudgetExceeded) && !Violates(cfg, e, i, now, ToolRateLimit)
            && !Violates(cfg, e, i, now, ApiRateLimit)
    ensures NeedsEscalation(cfg, e, i, now) <==>
            || Violates(cfg, e, i, now, RestrictedTool) || Violates(cfg, e, i, now, TonConfirmation)
            || Violates(cfg, e, i, now, LoopDetected)
  {
    hide Violates;
    var vs := ViolationSet(cfg, e, i, now);
    assert forall v: ViolationKind :: v in vs <==> Violates(cfg, e, i, now, v);
    assert forall v: ViolationKind :: v in ESCALATING <==> v.RestrictedTool? || v.TonConfirmation? || v.LoopDetected?;
    if NeedsEscalation(cfg, e, i, now) {
      var v :| v in vs * ESCALATING;
    }
    assert RestrictedTool in vs ==> RestrictedTool in vs * ESCALATING;
    assert TonConfirmation in vs ==> TonConfirmation in vs * ESCALATING;
    assert LoopDetected in vs ==> LoopDetected in vs * ESCALATING;
  }

  lemma HoursElapsed(elapsed: int, hours: real)
    ensures elapsed as real / 3600000.0 >= hours <==> elapsed as real >= hours * 3600000.0
  {
  }

  lemma TaskKinds(cfg: PolicyConfig, e: EngineState, i: CheckInput, now: int)
    ensures TaskPasses(i, now) <==>
            && !Violates(cfg, e, i, now, MaxIterations) && !Violates(cfg, e, i, now, DurationExceeded)
            && !Violates(cfg, e, i, now, NotAllowedTool)
    ensures ToolRestricted(cfg, i) <==> Violates(cfg, e, i, now, RestrictedTool)
  {
    hide ExtractTonSpend, Within, DetectsLoop;
    if i.constraints.maxDurationHours.Some? && i.startedAt.Some? {
      HoursElapsed(now - i.startedAt.value, i.constraints.maxDurationHours.value);
    }
  }

  lemma MoneyKinds(cfg: PolicyConfig, e: EngineState, i: CheckInput, now: int)
    ensures MoneyPasses(cfg, i) <==>
            && !Violates(cfg, e, i, now, InvalidDeclaredAmount) && !Violates(cfg, e, i, now, InvalidTonAmount)
            && !Violates(cfg, e, i, now, TaskBudgetExceeded) && !Violates(cfg, e, i, now, DailyBudgetExceeded)
    ensures MoneyAsks(cfg, i) <==> Violates(cfg, e, i, now, TonConfirmation)
  {
    hide ExtractTonSpend, Within, DetectsLoop;
    SpendByTool(i.action);
  }

  lemma RateKinds(cfg: PolicyConfig, e: EngineState, i: CheckInput, now: int)
    ensures RatesPass(cfg, e, now) <==>
            !Violates(cfg, e, i, now, ToolRateLimit) && !Violates(cfg, e, i, now, ApiRateLimit)
  {
    hide ExtractTonSpend, Within, DetectsLoop, Younger;
    WithinCounts(e.toolCalls, now, 3600000);
    WithinCounts(e.apiCalls, now, 60000);
  }

  /** An action is not blocked exactly if the task may act, the money passes and both rates have room. */
  lemma AllowedExactly(cfg: PolicyConfig, e: EngineState, i: CheckInput, now: int)
    ensures Allowed(cfg, e, i, now) <==> TaskPasses(i, now) && MoneyPasses(cfg, i) && RatesPass(cfg, e, now)
  {
    hide *;
    BlockingKinds(cfg, e, i, now);
    TaskKinds(cfg, e, i, now);
    MoneyKinds(cfg, e, i, now);
    RateKinds(cfg, e, i, now);
  }

  /** The user is asked exactly about restricted tools, amounts above the threshold and repeated actions. */
  lemma AskedExactly(cfg: PolicyConfig, e: EngineState, i: CheckInput, now: int)
    ensures NeedsEscalation(cfg, e, i, now) <==> ToolRestricted(cfg, i) || MoneyAsks(cfg, i) || Repeats(cfg, e)
  {
    hide Allowed, NeedsEscalation, ToolRestricted, MoneyAsks, Repeats, DetectsLoop, ExtractTonSpend;
    BlockingKinds(cfg, e, i, now);
    TaskKinds(cfg, e, i, now);
    MoneyKinds(cfg, e, i, now);
    RepeatsDetected(cfg, e);
  }

  /** An action that goes through unasked spends, by its tool, at most what budget, threshold and day leave. */
  lemma UnaskedIsAffordable(cfg: PolicyConfig, e: EngineState, i: CheckInput, now: int)
    requires Allowed(cfg, e, i, now) && !NeedsEscalation(cfg, e, i, now)
    ensures i.action.toolName in {"ton_send", "dns_start_auction", "dns_bid"} ==>
              PositiveTon(i.action.paramAmount) && Affordable(cfg, i, i.action.paramAmount.ton)
    ensures i.action.toolName in {"stonfi_swap", "dedust_swap"} && i.action.fromAssetIsTon ==>
              PositiveTon(i.action.paramAmount) && Affordable(cfg, i, i.action.paramAmount.ton)
    ensures i.action.toolName in {"jetton_send", "dns_link", "dns_unlink", "dns_set_site"} ==> Affordable(cfg, i, 0.05)
    ensures DeclaredOnly(i.action) ==>
              i.action.tonAmount != PosInfinity
              && (PositiveTon(i.action.tonAmount) ==> Affordable(cfg, i, i.action.tonAmount.ton))
  {
    hide Allowed, NeedsEscalation, TaskPasses, RatesPass, Repeats, ToolRestricted;
    AllowedExactly(cfg, e, i, now);
    AskedExactly(cfg, e, i, now);
  }

  /** A planned tool that is executed is checked against the task as it is and the day as it stands. */
  lemma ExecutedIsAffordable(cfg: PolicyConfig, v: View, o: Outcome)
    requires Awaits(v.loop.pc, o) && o.PlanResolved? && Segment(cfg, v, o).loop.pc.ExecutingTool? && v.spent >= 0.0
    ensures var c, budget := v.row.constraints, if v.row.constraints.budgetTON.Some? then v.row.constraints.budgetTON.value
                                               else cfg.perTask;
            && v.loop.step < (if c.maxIterations.Some? then c.maxIterations.value else 50)
            && (c.allowedTools != [] && o.action.toolName != "" ==> o.action.toolName in c.allowedTools)
            && (ParameterIsTon(o.action) ==>
                 PositiveTon(o.action.paramAmount) && o.action.paramAmount.ton <= budget
                 && v.spent + o.action.paramAmount.ton <= cfg.daily)
            && (FixedPrice(o.action) ==> 0.05 <= budget && v.spent + 0.05 <= cfg.daily)
            && (DeclaredOnly(o.action) && PositiveTon(o.action.tonAmount) ==>
                 o.action.tonAmount.ton <= budget && v.spent + o.action.tonAmount.ton <= cfg.daily)
  {
    hide Allowed, NeedsEscalation, RatesPass;
    AllowedExactly(cfg, v.loop.engine, InputOf(v, o.action), o.checkedAt);
  }

  // ---------------------------------------------------------------- what is recorded

  /** A tool that succeeds adds to the day what it is known to have spent; a stopped loop records nothing, and neither does
      one whose declared amount is infinite: it fails. */
  lemma SuccessRecordsSpend(cfg: PolicyConfig, v: View, at: int)
    requires v.loop.pc.ExecutingTool?
    ensures var a, v' := v.loop.pc.action, Segment(cfg, v, ToolResolved(true, at));
            && (v.loop.aborted ==> v'.spent == v.spent)
            && (ParameterIsTon(a) && PositiveTon(a.paramAmount) ==> v'.moved == v.moved + a.paramAmount.ton)
            && (FixedPrice(a) ==> v'.moved == v.moved + 0.05)
            && v'.recorded - v.recorded == v'.spent - v.spent
            && (!v.loop.aborted && ParameterIsTon(a) && PositiveTon(a.paramAmount) ==>
                  v'.spent == v.spent + a.paramAmount.ton)
            && (!v.loop.aborted && FixedPrice(a) ==> v'.spent == v.spent + 0.05)
            && (!v.loop.aborted && DeclaredOnly(a) && PositiveTon(a.tonAmount) ==> v'.spent == v.spent + a.tonAmount.ton)
            && (!v.loop.aborted && DeclaredOnly(a) && !PositiveTon(a.tonAmount) ==> v'.spent == v.spent)
            && (a.toolName in {"stonfi_swap", "dedust_swap"} && !a.fromAssetIsTon ==> v'.spent == v.spent)
            && (a.toolName == "" ==> v'.spent == v.spent)
            && (!v.loop.aborted && DeclaredOnly(a) && a.tonAmount == PosInfinity && !IsExternalTerminal(v.row.status) ==>
                  v'.row.status == Failed)
  {
    SpendByTool(v.loop.pc.action);
    hide ExtractTonSpend, PushPruned;
  }

  /** No other outcome spends anything or changes the day's total. */
  lemma OnlySuccessRecords(cfg: PolicyConfig, v: View, o: Outcome)
    requires Awaits(v.loop.pc, o) && !(o.ToolResolved? && o.success)
    ensures var v' := Segment(cfg, v, o);
            v'.spent == v.spent && v'.moved == v.moved && v'.recorded == v.recorded
  {
    hide Allowed, NeedsEscalation, ExtractTonSpend, PushPruned;
  }

  /** A new day starts at nothing, and no step but a loop's changes the total otherwise. */
  lemma OtherStepsKeepTheDay(cfg: ManagerConfig, w: World, e: Event)
    requires Enabled(w, e) && !e.Continue?
    ensures Step(cfg, w, e).spent == if e.NewDay? then 0.0 else w.spent
  {
    hide RunLoop, RemoveFirst, StopLoops;
    match e
    case Start(t, c, at) =>
      LaunchKeepsTheDay(cfg, w.(tasks := w.tasks[t := Task(Pending, 0, c, None)], admitted := w.admitted + [t]), t, at);
    case ResumeTask(t, at) => if t in w.tasks { LaunchKeepsTheDay(cfg, w, t, at); }
    case Settle(l, at) =>
      if w.queue != [] { LaunchKeepsTheDay(cfg, Deregister(w, l).(queue := w.queue[1..]), w.queue[0], at); }
    case _ =>
  }

  lemma LaunchKeepsTheDay(cfg: ManagerConfig, w: World, t: TaskId, at: int)
    requires t in w.tasks
    ensures RunLoop(cfg, w, t, at).spent == w.spent
  {
    hide PushPruned;
  }

  /** The same in a run: a live loop's successful tool moves the day's total by its known amount. */
  lemma StepRecordsSpend(cfg: ManagerConfig, w: World, l: LoopId, at: int)
    requires Enabled(w, Continue(l, ToolResolved(true, at))) && IsLive(w.loops[l])
    ensures var a, w' := w.loops[l].pc.action, Step(cfg, w, Continue(l, ToolResolved(true, at)));
            && (ParameterIsTon(a) && PositiveTon(a.paramAmount) ==>
                 w'.spent == w.spent + a.paramAmount.ton && w'.moved == w.moved + a.paramAmount.ton)
            && (FixedPrice(a) ==> w'.spent == w.spent + 0.05 && w'.moved == w.moved + 0.05)
            && w'.recorded - w.recorded == w'.spent - w.spent
            && (DeclaredOnly(a) && PositiveTon(a.tonAmount) ==> w'.spent == w.spent + a.tonAmount.ton)
  {
    hide Segment;
    SuccessRecordsSpend(cfg.policy, ViewOf(w, w.owner[l], Counted(w.loops[l])), at);
  }
}
