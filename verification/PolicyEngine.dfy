/**
 The guardrails of one autonomous loop: sliding-window rate limits, loop detection, TON budgets.
 TON amounts are exact reals; a clock reading is an integer number of milliseconds.
 */
module PolicyEngine {
  import opened Common

  const DEFAULT_MAX_ITERATIONS := 50
  const HOUR := 3600000
  const MINUTE := 60000
  const ACTION_WINDOW := 20

  /** A JavaScript value found where a TON amount is expected. */
  datatype Amount = Undefined | Finite(ton: real) | PosInfinity | NegInfinity | NaN | NotANumber

  datatype TonSpend = NoSpend | Spend(ton: real) | SpendUnbounded | InvalidSpend

  datatype PolicyAction = PolicyAction(
    toolName: string,
    paramAmount: Amount,
    fromAssetIsTon: bool,
    tonAmount: Amount)

  datatype Constraints = Constraints(
    maxIterations: Option<int>,
    maxDurationHours: Option<real>,
    allowedTools: seq<string>,
    restrictedTools: seq<string>,
    budgetTON: Option<real>)

  datatype PolicyConfig = PolicyConfig(
    perTask: real,
    daily: real,
    requireConfirmationAbove: real,
    restrictedTools: seq<string>,
    maxConsecutiveUncertain: nat,
    loopDetectionEnabled: bool,
    maxIdenticalActions: nat,
    apiCallsPerMinute: nat,
    toolCallsPerHour: nat)

  datatype EngineState = EngineState(
    toolCalls: seq<int>,
    apiCalls: seq<int>,
    uncertain: nat,
    recentActions: seq<string>)

  const FreshEngine := EngineState([], [], 0, [])

  datatype ViolationKind =
    | MaxIterations
    | DurationExceeded
    | NotAllowedTool
    | RestrictedTool
    | InvalidDeclaredAmount
    | InvalidTonAmount
    | TaskBudgetExceeded
    | DailyBudgetExceeded
    | TonConfirmation
    | ToolRateLimit
    | ApiRateLimit
    | LoopDetected

  /** The order in which violations are listed only affects the message, so they form a set of kinds. */
  datatype CheckResult = CheckResult(allowed: bool, requiresEscalation: bool, violations: set<ViolationKind>)

  /** Everything checkAction looks at besides the engine's own lists. */
  datatype CheckInput = CheckInput(
    step: nat,
    constraints: Constraints,
    startedAt: Option<int>,
    action: PolicyAction,
    dailySpend: real)

  // ---------------------------------------------------------------- amounts

  predicate IsFiniteNonNegative(a: Amount) { a.Finite? && a.ton >= 0.0 }

  predicate IsPositive(a: Amount) { a.Finite? && a.ton > 0.0 }

  const PARAM_AMOUNT_TON_TOOLS := {"ton_send", "dns_start_auction", "dns_bid"}
  const FIXED_TON_SPEND_TOOLS := {"jetton_send", "dns_link", "dns_unlink", "dns_set_site"}
  const FIXED_TON_SPEND: real := 0.05
  const SWAP_TOOLS := {"stonfi_swap", "dedust_swap"}

  function ExtractTonSpend(action: PolicyAction): TonSpend {
    if action.toolName == "" then NoSpend
    else if action.toolName in PARAM_AMOUNT_TON_TOOLS then
      if IsPositive(action.paramAmount) then Spend(action.paramAmount.ton) else InvalidSpend
    else if action.toolName in FIXED_TON_SPEND_TOOLS then Spend(FIXED_TON_SPEND)
    else if action.toolName in SWAP_TOOLS then
      if !action.fromAssetIsTon then NoSpend
      else if IsPositive(action.paramAmount) then Spend(action.paramAmount.ton)
      else InvalidSpend
    else
      match action.tonAmount
      case Finite(t) => if t > 0.0 then Spend(t) else NoSpend
      case PosInfinity => SpendUnbounded
      case _ => NoSpend
  }

  // ---------------------------------------------------------------- windows

  /** The timestamps still inside the window: `ts.filter(t => now - t < window)`. */
  function Within(ts: seq<int>, now: int, window: int): seq<int> {
    if ts == [] then []
    else (if now - ts[0] < window then [ts[0]] else []) + Within(ts[1..], now, window)
  }

  function PushPruned(ts: seq<int>, now: int, window: int, limit: nat): seq<int> {
    SliceLast(Within(ts + [now], now, window), limit)
  }

  // ---------------------------------------------------------------- engine transitions

  function AfterCheck(e: EngineState, now: int): EngineState {
    e.(toolCalls := Within(e.toolCalls, now, HOUR), apiCalls := Within(e.apiCalls, now, MINUTE))
  }

  function AfterToolCall(cfg: PolicyConfig, e: EngineState, now: int): EngineState {
    e.(toolCalls := PushPruned(e.toolCalls, now, HOUR, cfg.toolCallsPerHour))
  }

  function AfterApiCall(cfg: PolicyConfig, e: EngineState, now: int): EngineState {
    e.(apiCalls := PushPruned(e.apiCalls, now, MINUTE, cfg.apiCallsPerMinute))
  }

  function AfterAction(e: EngineState, tool: string): EngineState {
    var pushed := e.recentActions + [tool];
    e.(recentActions := if |pushed| > ACTION_WINDOW then pushed[1..] else pushed)
  }

  function AfterUncertain(e: EngineState): EngineState { e.(uncertain := e.uncertain + 1) }

  function AfterResetUncertain(e: EngineState): EngineState { e.(uncertain := 0) }

  /** The last m recorded actions exist and are all the same. */
  predicate DetectsLoop(cfg: PolicyConfig, actions: seq<string>) {
    cfg.loopDetectionEnabled && |actions| >= cfg.maxIdenticalActions &&
    var lastN := SliceLast(actions, cfg.maxIdenticalActions);
    forall i :: 0 <= i < |lastN| ==> lastN[i] == lastN[0]
  }

  // ---------------------------------------------------------------- the verdict, declaratively

  function MaxIterationsOf(c: Constraints): int { c.maxIterations.GetOr(DEFAULT_MAX_ITERATIONS) }

  predicate Violates(cfg: PolicyConfig, e: EngineState, i: CheckInput, now: int, v: ViolationKind) {
    var spend := ExtractTonSpend(i.action);
    match v
    case MaxIterations => i.step >= MaxIterationsOf(i.constraints)
    case DurationExceeded =>
      i.constraints.maxDurationHours.Some? && i.startedAt.Some? &&
      (now - i.startedAt.value) as real / HOUR as real >= i.constraints.maxDurationHours.value
    case NotAllowedTool =>
      i.action.toolName != "" && i.constraints.allowedTools != [] && i.action.toolName !in i.constraints.allowedTools
    case RestrictedTool =>
      i.action.toolName != "" &&
      (i.action.toolName in cfg.restrictedTools || i.action.toolName in i.constraints.restrictedTools)
    case InvalidDeclaredAmount => i.action.tonAmount != Undefined && !IsFiniteNonNegative(i.action.tonAmount)
    case InvalidTonAmount => spend.InvalidSpend?
    case TaskBudgetExceeded =>
      spend.SpendUnbounded? || (spend.Spend? && spend.ton > i.constraints.budgetTON.GetOr(cfg.perTask))
    case DailyBudgetExceeded =>
      spend.SpendUnbounded? || (spend.Spend? && i.dailySpend + spend.ton > cfg.daily)
    case TonConfirmation =>
      spend.SpendUnbounded? || (spend.Spend? && spend.ton > cfg.requireConfirmationAbove)
    case ToolRateLimit => |Within(e.toolCalls, now, HOUR)| >= cfg.toolCallsPerHour
    case ApiRateLimit => |Within(e.apiCalls, now, MINUTE)| >= cfg.apiCallsPerMinute
    case LoopDetected => DetectsLoop(cfg, e.recentActions)
  }

  /** Restricted tools, confirmations and detected loops ask the user; everything else blocks. */
  const ESCALATING: set<ViolationKind> := {RestrictedTool, TonConfirmation, LoopDetected}

  function ViolationSet(cfg: PolicyConfig, e: EngineState, i: CheckInput, now: int): set<ViolationKind> {
    set v: ViolationKind | Violates(cfg, e, i, now, v)
  }

  predicate Allowed(cfg: PolicyConfig, e: EngineState, i: CheckInput, now: int) {
    ViolationSet(cfg, e, i, now) <= ESCALATING
  }

  predicate NeedsEscalation(cfg: PolicyConfig, e: EngineState, i: CheckInput, now: int) {
    ViolationSet(cfg, e, i, now) * ESCALATING != {}
  }

  /** What an action that is let through without asking can rely on. */
  lemma LetThrough(cfg: PolicyConfig, e: EngineState, i: CheckInput, now: int)
    requires Allowed(cfg, e, i, now) && !NeedsEscalation(cfg, e, i, now)
    ensures i.step < MaxIterationsOf(i.constraints)
    ensures |Within(e.toolCalls, now, HOUR)| < cfg.toolCallsPerHour
    ensures |Within(e.apiCalls, now, MINUTE)| < cfg.apiCallsPerMinute
    ensures ExtractTonSpend(i.action).NoSpend? || ExtractTonSpend(i.action).Spend?
    ensures var s := ExtractTonSpend(i.action);
            s.Spend? ==>
              0.0 < s.ton <= i.constraints.budgetTON.GetOr(cfg.perTask) && s.ton <= cfg.requireConfirmationAbove &&
              i.dailySpend + s.ton <= cfg.daily
  {
    var vs := ViolationSet(cfg, e, i, now);
    assert vs == vs * ESCALATING == {};
    assert forall v: ViolationKind :: Violates(cfg, e, i, now, v) ==> v in vs;
    assert !Violates(cfg, e, i, now, MaxIterations) && !Violates(cfg, e, i, now, ToolRateLimit);
    assert !Violates(cfg, e, i, now, ApiRateLimit) && !Violates(cfg, e, i, now, InvalidTonAmount);
    assert !Violates(cfg, e, i, now, TaskBudgetExceeded) && !Violates(cfg, e, i, now, DailyBudgetExceeded);
    assert !Violates(cfg, e, i, now, TonConfirmation);
  }

  // ---------------------------------------------------------------- snapshots

  /** A snapshot as it is read back: a field that is missing or of another type is None. */
  datatype Snapshot = Snapshot(
    toolCalls: Option<seq<int>>,
    apiCalls: Option<seq<int>>,
    uncertain: Option<nat>,
    recentActions: Option<seq<string>>)

  function Serialized(e: EngineState): Snapshot {
    Snapshot(Some(e.toolCalls), Some(e.apiCalls), Some(e.uncertain), Some(e.recentActions))
  }

  /** The state a snapshot stands for: what it lacks is empty. */
  function Restored(s: Snapshot): EngineState {
    EngineState(s.toolCalls.GetOr([]), s.apiCalls.GetOr([]), s.uncertain.GetOr(0), s.recentActions.GetOr([]))
  }

  // ---------------------------------------------------------------- the class

  /** The engine object of one loop. `stored` is the row the state-change callback writes; `connected` says whether
      the callback is installed. */
  class PolicyEngine {
    const config: PolicyConfig
    var toolCallTimestamps: seq<int>
    var apiCallTimestamps: seq<int>
    var consecutiveUncertainCount: nat
    var recentActions: seq<string>
    var dailySpend: real
    var connected: bool
    var stored: Option<EngineState>

    function State(): EngineState
      reads this
    {
      EngineState(toolCallTimestamps, apiCallTimestamps, consecutiveUncertainCount, recentActions)
    }

    constructor (config: PolicyConfig)
      ensures this.config == config && State() == FreshEngine && dailySpend == 0.0
      ensures !connected && stored == None
    {
      this.config := config;
      toolCallTimestamps, apiCallTimestamps, consecutiveUncertainCount, recentActions := [], [], 0, [];
      dailySpend, connected, stored := 0.0, false, None;
    }

    method NotifyChange()
      modifies this`stored
      ensures stored == if connected then Some(State()) else old(stored)
    {
      if connected {
        stored := Some(State());
      }
    }

    /** Missing and malformed fields are emptied; no snapshot at all changes nothing. */
    method Hydrate(state: Option<Snapshot>)
      modifies this`toolCallTimestamps, this`apiCallTimestamps, this`consecutiveUncertainCount, this`recentActions
      ensures state.None? ==> State() == old(State())
      ensures state.Some? ==> State() == Restored(state.value)
      ensures forall e :: state == Some(Serialized(e)) ==> State() == e
      ensures state.Some? && state.value.toolCalls.None? ==> toolCallTimestamps == []
      ensures state.Some? && state.value.apiCalls.None? ==> apiCallTimestamps == []
      ensures state.Some? && state.value.uncertain.None? ==> consecutiveUncertainCount == 0
      ensures state.Some? && state.value.recentActions.None? ==> recentActions == []
    {
      if state.None? { return; }
      toolCallTimestamps := if state.value.toolCalls.Some? then state.value.toolCalls.value else [];
      apiCallTimestamps := if state.value.apiCalls.Some? then state.value.apiCalls.value else [];
      consecutiveUncertainCount := if state.value.uncertain.Some? then state.value.uncertain.value else 0;
      recentActions := if state.value.recentActions.Some? then state.value.recentActions.value else [];
    }

    method SetDailySpend(amount: Amount)
      modifies this`dailySpend
      ensures dailySpend == if IsFiniteNonNegative(amount) then amount.ton else 0.0
    {
      dailySpend := if IsFiniteNonNegative(amount) then amount.ton else 0.0;
    }

    /** The checks on the task and the tool name. */
    method CheckTask(i: CheckInput, now: int) returns (r: CheckResult)
      ensures Reports(r, i, now, {MaxIterations, DurationExceeded, NotAllowedTool, RestrictedTool})
    {
      var violations: set<ViolationKind> := {};
      var blocking, escalate := 0, false;
      if i.step >= MaxIterationsOf(i.constraints) {
        violations, blocking := violations + {MaxIterations}, blocking + 1;
      }
      if i.constraints.maxDurationHours.Some? && i.startedAt.Some? {
        var elapsedHours := (now - i.startedAt.value) as real / HOUR as real;
        if elapsedHours >= i.constraints.maxDurationHours.value {
          violations, blocking := violations + {DurationExceeded}, blocking + 1;
        }
      }
      if i.action.toolName != "" {
        if |i.constraints.allowedTools| > 0 && i.action.toolName !in i.constraints.allowedTools {
          violations, blocking := violations + {NotAllowedTool}, blocking + 1;
        }
        if i.action.toolName in config.restrictedTools || i.action.toolName in i.constraints.restrictedTools {
          violations, escalate := violations + {RestrictedTool}, true;
        }
      }
      r := CheckResult(blocking == 0, escalate, violations);
    }

    /** The checks on the amount derived from the real tool parameters. */
    method CheckSpend(i: CheckInput, now: int) returns (r: CheckResult)
      requires i.dailySpend == dailySpend
      ensures Reports(r, i, now, {InvalidDeclaredAmount, InvalidTonAmount, TaskBudgetExceeded, DailyBudgetExceeded,
                                  TonConfirmation})
    {
      var violations: set<ViolationKind> := {};
      var blocking, escalate := 0, false;
      if i.action.tonAmount != Undefined && !IsFiniteNonNegative(i.action.tonAmount) {
        violations, blocking := violations + {InvalidDeclaredAmount}, blocking + 1;
      }
      var spend := ExtractTonSpend(i.action);
      if spend.InvalidSpend? {
        violations, blocking := violations + {InvalidTonAmount}, blocking + 1;
      } else if spend.SpendUnbounded? {
        violations := violations + {TaskBudgetExceeded, DailyBudgetExceeded, TonConfirmation};
        blocking, escalate := blocking + 2, true;
      } else if spend.Spend? && spend.ton > 0.0 {
        if spend.ton > i.constraints.budgetTON.GetOr(config.perTask) {
          violations, blocking := violations + {TaskBudgetExceeded}, blocking + 1;
        }
        var projectedDailySpend := dailySpend + spend.ton;
        if projectedDailySpend > config.daily {
          violations, blocking := violations + {DailyBudgetExceeded}, blocking + 1;
        }
        if spend.ton > config.requireConfirmationAbove {
          violations, escalate := violations + {TonConfirmation}, true;
        }
      }
      r := CheckResult(blocking == 0, escalate, violations);
    }

    /** Prunes both windows and reports the limits they reach. */
    method CheckRates(i: CheckInput, now: int) returns (r: CheckResult)
      modifies this`toolCallTimestamps, this`apiCallTimestamps
      ensures State() == AfterCheck(old(State()), now)
      ensures old(Reports(r, i, now, {ToolRateLimit, ApiRateLimit}))
    {
      var violations: set<ViolationKind> := {};
      toolCallTimestamps := Within(toolCallTimestamps, now, HOUR);
      if |toolCallTimestamps| >= config.toolCallsPerHour {
        violations := violations + {ToolRateLimit};
      }
      apiCallTimestamps := Within(apiCallTimestamps, now, MINUTE);
      if |apiCallTimestamps| >= config.apiCallsPerMinute {
        violations := violations + {ApiRateLimit};
      }
      r := CheckResult(violations == {}, false, violations);
    }

    /** r lists exactly the violated kinds of the group, and summarises them correctly. */
    ghost predicate Reports(r: CheckResult, i: CheckInput, now: int, kinds: set<ViolationKind>)
      reads this
    {
      && r.violations == (set v | v in kinds && Violates(config, State(), i, now, v))
      && (r.allowed <==> r.violations <= ESCALATING)
      && (r.requiresEscalation <==> r.violations * ESCALATING != {})
    }

    method CheckLoop(i: CheckInput, now: int) returns (r: CheckResult)
      ensures Reports(r, i, now, {LoopDetected})
    {
      r := CheckResult(true, false, {});
      assert Violates(config, State(), i, now, LoopDetected) == DetectsLoop(config, recentActions);
      if config.loopDetectionEnabled && |recentActions| >= config.maxIdenticalActions {
        var lastN := SliceLast(recentActions, config.maxIdenticalActions);
        if forall k :: 0 <= k < |lastN| ==> lastN[k] == lastN[0] {
          r := CheckResult(true, true, {LoopDetected});
          assert LoopDetected in r.violations * ESCALATING;
        }
      }
    }

    /** The violations reported are exactly those of the declarative table; the call is blocked by any of them that
        does not merely escalate. The lists are pruned and nothing is written through. */
    method CheckAction(step: nat, constraints: Constraints, startedAt: Option<int>, action: PolicyAction, now: int)
      returns (r: CheckResult)
      modifies this`toolCallTimestamps, this`apiCallTimestamps
      ensures var i := CheckInput(step, constraints, startedAt, action, dailySpend);
              && r.violations == ViolationSet(config, old(State()), i, now)
              && (r.allowed <==> Allowed(config, old(State()), i, now))
              && (r.requiresEscalation <==> NeedsEscalation(config, old(State()), i, now))
      ensures State() == AfterCheck(old(State()), now)
    {
      hide Within, DetectsLoop, ExtractTonSpend;
      var i := CheckInput(step, constraints, startedAt, action, dailySpend);
      var task := CheckTask(i, now);
      var spend := CheckSpend(i, now);
      var repeated := CheckLoop(i, now);
      var rates := CheckRates(i, now);
      r := CheckResult(
        task.allowed && spend.allowed && rates.allowed,
        task.requiresEscalation || spend.requiresEscalation || repeated.requiresEscalation,
        task.violations + spend.violations + rates.violations + repeated.violations);
      assert r.violations == ViolationSet(config, old(State()), i, now);
    }

    method RecordToolCall(now: int)
      modifies this`toolCallTimestamps, this`stored
      ensures State() == AfterToolCall(config, old(State()), now)
      ensures stored == if connected then Some(State()) else old(stored)
    {
      toolCallTimestamps := toolCallTimestamps + [now];
      toolCallTimestamps := SliceLast(Within(toolCallTimestamps, now, HOUR), config.toolCallsPerHour);
      NotifyChange();
    }

    method RecordApiCall(now: int)
      modifies this`apiCallTimestamps, this`stored
      ensures State() == AfterApiCall(config, old(State()), now)
      ensures stored == if connected then Some(State()) else old(stored)
    {
      apiCallTimestamps := apiCallTimestamps + [now];
      apiCallTimestamps := SliceLast(Within(apiCallTimestamps, now, MINUTE), config.apiCallsPerMinute);
      NotifyChange();
    }

    method RecordUncertain() returns (escalate: bool)
      modifies this`consecutiveUncertainCount, this`stored
      ensures State() == AfterUncertain(old(State()))
      ensures escalate <==> consecutiveUncertainCount >= config.maxConsecutiveUncertain
      ensures stored == if connected then Some(State()) else old(stored)
    {
      consecutiveUncertainCount := consecutiveUncertainCount + 1;
      NotifyChange();
      escalate := consecutiveUncertainCount >= config.maxConsecutiveUncertain;
    }

    method ResetUncertainCount()
      modifies this`consecutiveUncertainCount, this`stored
      ensures State() == AfterResetUncertain(old(State()))
      ensures stored == if connected && old(consecutiveUncertainCount) != 0 then Some(State()) else old(stored)
    {
      if consecutiveUncertainCount == 0 {
        return;
      }
      consecutiveUncertainCount := 0;
      NotifyChange();
    }

    method RecordAction(toolName: string)
      modifies this`recentActions, this`stored
      ensures State() == AfterAction(old(State()), toolName)
      ensures stored == if connected then Some(State()) else old(stored)
    {
      recentActions := recentActions + [toolName];
      if |recentActions| > ACTION_WINDOW {
        recentActions := recentActions[1..];
      }
      NotifyChange();
    }
  }
}
