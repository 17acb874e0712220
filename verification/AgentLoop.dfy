/**
 The agentic loop of one message: requests to the model, six retry budgets, and rounds of tool calls. The model's answers,
 the abort signal and the stall detector are arbitrary. The control of the loop is a function of one pass; the loop
 itself is a method proved against it.
 */
module AgentLoop {
  import opened ToolPool

  const RATE_LIMIT_MAX_RETRIES := 8
  const SERVER_ERROR_MAX_RETRIES := 3
  const NETWORK_ERROR_MAX_RETRIES := 3
  const EMPTY_RESPONSE_MAX_RETRIES := 3
  const EMPTY_RESPONSE_RECOVERY_MAX_ATTEMPTS := 1

  /** Which families of error the text of a failed answer matches. */
  datatype ErrorText = ErrorText(overflow: bool, rate: bool, server: bool, network: bool)

  datatype Reply = Reply(text: string, tokens: bool, calls: seq<ToolCall>)

  datatype Outcome = NetworkThrown | OtherThrown | Failed(error: ErrorText) | Answered(reply: Reply)

  /** Everything the environment decides during one pass of the loop. */
  datatype Turn = Turn(
    abortedBefore: bool,
    outcome: Outcome,
    abortedInBackoff: bool,
    abortedBeforeTools: bool,
    stalled: bool,
    recoverable: bool,
    diagnosable: bool)

  datatype Failure = NetworkFailure | RateLimited | ServerFailure | OverflowPersists | EmptyResponse | OtherFailure

  /** How the loop ended: `Stopped` is a break without a final response. */
  datatype Exit = Running | Stopped | Final(reply: Reply) | Thrown(failure: Failure)

  datatype Control = Control(
    iteration: nat,
    overflows: nat,
    rateRetries: nat,
    serverRetries: nat,
    networkRetries: nat,
    emptyRetries: nat,
    recoveries: nat,
    prompted: bool,
    requests: nat,
    rounds: nat,
    exit: Exit)

  const START := Control(0, 0, 0, 0, 0, 0, 0, false, 0, 0, Running)

  // ---------------------------------------------------------------- one pass

  /** After a backoff: the iteration is given back, unless the wait was aborted. */
  function Retry(c: Control, t: Turn): Control
    requires c.iteration > 0
  {
    if t.abortedInBackoff then c.(exit := Stopped) else c.(iteration := c.iteration - 1)
  }

  function OnNetworkError(c: Control, t: Turn): Control
    requires c.iteration > 0
  {
    var c := c.(networkRetries := c.networkRetries + 1);
    if c.networkRetries <= NETWORK_ERROR_MAX_RETRIES then Retry(c, t) else c.(exit := Thrown(NetworkFailure))
  }

  /** The families are tried in this order: overflow, rate limit, server, network. */
  function OnFailed(c: Control, t: Turn, e: ErrorText): Control
    requires c.iteration > 0
  {
    if e.overflow then
      var c := c.(overflows := c.overflows + 1);
      if c.overflows > 1 then c.(exit := Thrown(OverflowPersists)) else c
    else if e.rate then
      var c := c.(rateRetries := c.rateRetries + 1);
      if c.rateRetries <= RATE_LIMIT_MAX_RETRIES then Retry(c, t) else c.(exit := Thrown(RateLimited))
    else if e.server then
      var c := c.(serverRetries := c.serverRetries + 1);
      if c.serverRetries <= SERVER_ERROR_MAX_RETRIES then Retry(c, t) else c.(exit := Thrown(ServerFailure))
    else if e.network then OnNetworkError(c, t)
    else c.(exit := Thrown(OtherFailure))
  }

  predicate IsEmpty(reply: Reply) { reply.text == "" && !reply.tokens && reply.calls == [] }

  function OnEmpty(c: Control, t: Turn, reply: Reply): Control
    requires c.iteration > 0
  {
    if c.emptyRetries < EMPTY_RESPONSE_MAX_RETRIES then Retry(c.(emptyRetries := c.emptyRetries + 1), t)
    else if t.recoverable && c.recoveries < EMPTY_RESPONSE_RECOVERY_MAX_ATTEMPTS then
      c.(recoveries := c.recoveries + 1, prompted := true, iteration := c.iteration - 1)
    else if t.diagnosable then c.(exit := Thrown(EmptyResponse))
    else c.(exit := Final(reply))
  }

  function OnAnswered(maxIterations: nat, canRunTools: bool, c: Control, t: Turn, reply: Reply): Control
    requires c.iteration > 0
  {
    if IsEmpty(reply) then OnEmpty(c, t, reply) else
    var c := c.(emptyRetries := 0, recoveries := 0, prompted := false);
    if reply.calls == [] then c.(exit := Final(reply))
    else if !canRunTools then c.(exit := Stopped)
    else if t.abortedBeforeTools then c.(exit := Final(reply))
    else
      var c := c.(rounds := c.rounds + 1);
      if t.stalled || c.iteration == maxIterations then c.(exit := Final(reply)) else c
  }

  function Pass(maxIterations: nat, canRunTools: bool, c: Control, t: Turn): Control {
    var c := c.(iteration := c.iteration + 1);
    if t.abortedBefore then c.(exit := Stopped) else
    var c := c.(requests := c.requests + 1);
    match t.outcome
    case NetworkThrown => OnNetworkError(c, t)
    case OtherThrown => c.(exit := Thrown(OtherFailure))
    case Failed(error) => OnFailed(c, t, error)
    case Answered(reply) => OnAnswered(maxIterations, canRunTools, c, t, reply)
  }

  // ---------------------------------------------------------------- the whole loop

  /** Budgets of a loop still running. */
  predicate InBudget(c: Control) {
    && c.rateRetries <= RATE_LIMIT_MAX_RETRIES && c.serverRetries <= SERVER_ERROR_MAX_RETRIES
    && c.networkRetries <= NETWORK_ERROR_MAX_RETRIES && c.overflows <= 1
    && c.emptyRetries <= EMPTY_RESPONSE_MAX_RETRIES && c.recoveries <= EMPTY_RESPONSE_RECOVERY_MAX_ATTEMPTS
  }

  /** Retries that never come back. */
  function Retries(c: Control): nat
    requires InBudget(c)
  {
    (RATE_LIMIT_MAX_RETRIES - c.rateRetries) + (SERVER_ERROR_MAX_RETRIES - c.serverRetries)
    + (NETWORK_ERROR_MAX_RETRIES - c.networkRetries)
  }

  /** Retries left to the current streak of empty answers. */
  function StreakLeft(c: Control): nat
    requires InBudget(c)
  {
    (EMPTY_RESPONSE_MAX_RETRIES - c.emptyRetries) + (EMPTY_RESPONSE_RECOVERY_MAX_ATTEMPTS - c.recoveries)
  }

  /** From a pass begun as c to a pass ended as d, some measure went down. */
  predicate Progress(maxIterations: nat, c: Control, d: Control)
    requires InBudget(c)
  {
    d.exit.Running? ==>
      && InBudget(d)
      && ((d.iteration == c.iteration + 1 <= maxIterations && Retries(d) == Retries(c))
          || (d.iteration == c.iteration && Retries(d) == Retries(c) - 1 && StreakLeft(d) == StreakLeft(c))
          || (d.iteration == c.iteration && Retries(d) == Retries(c) && StreakLeft(d) == StreakLeft(c) - 1))
  }

  /** The state in which a pass meets the model's answer. */
  function Asked(c: Control): Control { c.(iteration := c.iteration + 1, requests := c.requests + 1) }

  lemma FailedProgresses(maxIterations: nat, c: Control, t: Turn, e: ErrorText)
    requires c.exit.Running? && InBudget(c) && c.iteration < maxIterations
    ensures Progress(maxIterations, c, OnFailed(Asked(c), t, e)) && Progress(maxIterations, c, OnNetworkError(Asked(c), t))
  {
  }

  lemma AnsweredProgresses(maxIterations: nat, canRunTools: bool, c: Control, t: Turn, reply: Reply)
    requires c.exit.Running? && InBudget(c) && c.iteration < maxIterations
    ensures Progress(maxIterations, c, OnAnswered(maxIterations, canRunTools, Asked(c), t, reply))
  {
  }

  /** A pass that goes on consumes an iteration, or a retry of a budget that never resets, or one of the streak. */
  lemma PassProgresses(maxIterations: nat, canRunTools: bool, c: Control, t: Turn)
    requires c.exit.Running? && InBudget(c) && c.iteration < maxIterations
    ensures Progress(maxIterations, c, Pass(maxIterations, canRunTools, c, t))
  {
    hide OnFailed, OnNetworkError, OnAnswered;
    match t.outcome
    case NetworkThrown => FailedProgresses(maxIterations, c, t, ErrorText(false, false, false, false));
    case OtherThrown =>
    case Failed(error) => FailedProgresses(maxIterations, c, t, error);
    case Answered(reply) => AnsweredProgresses(maxIterations, canRunTools, c, t, reply);
  }

  function RunFrom(maxIterations: nat, canRunTools: bool, c: Control, turns: nat -> Turn, pass: nat): Control
    requires c.exit.Running? && InBudget(c) && c.iteration <= maxIterations
    decreases maxIterations - c.iteration, Retries(c), StreakLeft(c)
  {
    if c.iteration == maxIterations then c.(exit := Stopped) else
    PassProgresses(maxIterations, canRunTools, c, turns(pass));
    var d := Pass(maxIterations, canRunTools, c, turns(pass));
    if d.exit.Running? then RunFrom(maxIterations, canRunTools, d, turns, pass + 1) else d
  }

  function RunLoop(maxIterations: nat, canRunTools: bool, turns: nat -> Turn): Control {
    RunFrom(maxIterations, canRunTools, START, turns, 0)
  }

  // ---------------------------------------------------------------- bounds

  /** Requests a running loop can still make. */
  function Allowance(maxIterations: nat, c: Control): nat
    requires InBudget(c) && c.iteration <= maxIterations
  {
    Retries(c)
    + if c.iteration == maxIterations then 0
      else 5 * (maxIterations - c.iteration) - c.emptyRetries - c.recoveries
  }

  /** What the answer to one request leaves counted. */
  predicate Counts(c: Control, d: Control) {
    && d.requests == c.requests + 1 && d.rounds <= c.rounds + 1
    && (d.exit.Running? && d.iteration == c.iteration ==> d.rounds == c.rounds)
  }

  lemma FailedCounts(c: Control, t: Turn, e: ErrorText)
    ensures Counts(c, OnFailed(Asked(c), t, e)) && Counts(c, OnNetworkError(Asked(c), t))
  {
  }

  lemma AnsweredCounts(maxIterations: nat, canRunTools: bool, c: Control, t: Turn, reply: Reply)
    ensures Counts(c, OnAnswered(maxIterations, canRunTools, Asked(c), t, reply))
  {
  }

  lemma PassCounts(maxIterations: nat, canRunTools: bool, c: Control, t: Turn)
    ensures var d := Pass(maxIterations, canRunTools, c, t);
            if t.abortedBefore then d.exit == Stopped && d.requests == c.requests && d.rounds == c.rounds else Counts(c, d)
  {
    hide OnFailed, OnNetworkError, OnAnswered;
    match t.outcome
    case NetworkThrown => FailedCounts(c, t, ErrorText(false, false, false, false));
    case OtherThrown =>
    case Failed(error) => FailedCounts(c, t, error);
    case Answered(reply) => AnsweredCounts(maxIterations, canRunTools, c, t, reply);
  }

  /** From any state, the loop ends within its allowance of requests and one round of tools per iteration left. */
  lemma {:induction false} RunWithinAllowance(maxIterations: nat, canRunTools: bool, c: Control, turns: nat -> Turn,
                                              pass: nat)
    requires c.exit.Running? && InBudget(c) && c.iteration <= maxIterations
    ensures var d := RunFrom(maxIterations, canRunTools, c, turns, pass);
            && !d.exit.Running?
            && c.requests <= d.requests <= c.requests + Allowance(maxIterations, c)
            && d.rounds <= c.rounds + maxIterations - c.iteration
    decreases maxIterations - c.iteration, Retries(c), StreakLeft(c)
  {
    hide Pass;
    if c.iteration < maxIterations {
      var d := Pass(maxIterations, canRunTools, c, turns(pass));
      PassProgresses(maxIterations, canRunTools, c, turns(pass));
      PassCounts(maxIterations, canRunTools, c, turns(pass));
      if d.exit.Running? {
        RunWithinAllowance(maxIterations, canRunTools, d, turns, pass + 1);
      }
    }
  }

  /** Whatever the model answers, the loop ends after at most 5 M + 14 requests and M rounds of tools. */
  lemma LoopIsBounded(maxIterations: nat, canRunTools: bool, turns: nat -> Turn)
    requires maxIterations >= 1
    ensures var d := RunLoop(maxIterations, canRunTools, turns);
            !d.exit.Running? && d.requests <= 5 * maxIterations + 14 && d.rounds <= maxIterations
  {
    RunWithinAllowance(maxIterations, canRunTools, START, turns, 0);
  }

  /** A first context overflow resets the session and asks again only if an iteration is left: the reset consumes one. */
  lemma OverflowRetriedExactly(maxIterations: nat, canRunTools: bool, c: Control, turns: nat -> Turn, pass: nat)
    requires c.exit.Running? && InBudget(c) && c.iteration < maxIterations && c.overflows == 0
    requires !turns(pass).abortedBefore && turns(pass).outcome.Failed? && turns(pass).outcome.error.overflow
    ensures RunFrom(maxIterations, canRunTools, c, turns, pass).requests > c.requests + 1
            <==> c.iteration + 1 < maxIterations && !turns(pass + 1).abortedBefore
  {
    assert Pass(maxIterations, canRunTools, c, turns(pass)) == Asked(c).(overflows := 1);
    hide Pass;
    var d := Asked(c).(overflows := 1);
    if d.iteration < maxIterations {
      var e := Pass(maxIterations, canRunTools, d, turns(pass + 1));
      PassCounts(maxIterations, canRunTools, d, turns(pass + 1));
      PassProgresses(maxIterations, canRunTools, d, turns(pass + 1));
      if e.exit.Running? {
        RunWithinAllowance(maxIterations, canRunTools, e, turns, pass + 2);
      }
    }
  }

  // ---------------------------------------------------------------- tool calls to the end

  /** Every request is answered with this reply, and nothing interferes. */
  ghost predicate AlwaysCalls(turns: nat -> Turn, reply: Reply) {
    forall k: nat :: turns(k).outcome == Answered(reply)
                     && !turns(k).abortedBefore && !turns(k).abortedBeforeTools && !turns(k).stalled
  }

  /** Then every iteration left is a round of tools, and the reply to the last is the final response. */
  lemma {:induction false} CallsToTheEnd(maxIterations: nat, c: Control, turns: nat -> Turn, pass: nat, reply: Reply)
    requires c.exit.Running? && InBudget(c) && c.iteration < maxIterations
    requires reply.calls != [] && AlwaysCalls(turns, reply)
    ensures var d := RunFrom(maxIterations, true, c, turns, pass);
            d.exit == Final(reply) && d.rounds == c.rounds + maxIterations - c.iteration
    decreases maxIterations - c.iteration
  {
    var d := Pass(maxIterations, true, c, turns(pass));
    assert !turns(pass).abortedBefore;
    if c.iteration + 1 < maxIterations {
      CallsToTheEnd(maxIterations, d, turns, pass + 1, reply);
    }
  }

  // ---------------------------------------------------------------- the bound is attained

  const CALL := ToolCall("1", "tool")

  function TurnWith(outcome: Outcome): Turn { Turn(false, outcome, false, false, false, true, true) }

  /** Every rate, server and network retry first; then, for each iteration, four empty answers and a tool call. */
  function Worst(k: nat): Turn {
    if k < 8 then TurnWith(Failed(ErrorText(false, true, false, false)))
    else if k < 11 then TurnWith(Failed(ErrorText(false, false, true, false)))
    else if k < 14 then TurnWith(NetworkThrown)
    else if (k - 14) % 5 < 4 then TurnWith(Answered(Reply("", false, [])))
    else TurnWith(Answered(Reply("", true, [CALL])))
  }

  function Clamp(n: int, limit: nat): nat { if n < 0 then 0 else if n > limit then limit else n }

  /** The loop after k passes of the worst run. */
  function WorstAt(k: nat): Control {
    if k < 14 then START.(rateRetries := Clamp(k, 8), serverRetries := Clamp(k - 8, 3),
                          networkRetries := Clamp(k - 11, 3), requests := k)
    else WorstIn((k - 14) / 5, (k - 14) % 5, k)
  }

  function WorstIn(i: nat, p: nat, k: nat): Control {
    Control(i, 0, 8, 3, 3, Clamp(p, 3), if p == 4 then 1 else 0, p == 4, k, i, Running)
  }

  lemma WorstPass(maxIterations: nat, k: nat)
    requires k + 1 < 5 * maxIterations + 14
    ensures Pass(maxIterations, true, WorstAt(k), Worst(k)) == WorstAt(k + 1)
  {
    if k >= 14 {
      var i, p := (k - 14) / 5, (k - 14) % 5;
      assert k - 14 == 5 * i + p;
      if p < 4 {
        assert (k + 1 - 14) / 5 == i && (k + 1 - 14) % 5 == p + 1;
      } else {
        assert (k + 1 - 14) / 5 == i + 1 && (k + 1 - 14) % 5 == 0;
      }
    }
  }

  lemma WorstInBudget(maxIterations: nat, k: nat)
    requires k < 5 * maxIterations + 14
    ensures var c := WorstAt(k); c.exit.Running? && InBudget(c) && (maxIterations > 0 ==> c.iteration < maxIterations)
  {
    if k >= 14 {
      assert k - 14 == 5 * ((k - 14) / 5) + (k - 14) % 5;
    }
  }

  lemma {:induction false} WorstReaches(maxIterations: nat, k: nat)
    requires maxIterations >= 1 && k < 5 * maxIterations + 14
    requires WorstAt(k).exit.Running? && InBudget(WorstAt(k)) && WorstAt(k).iteration < maxIterations
    ensures RunLoop(maxIterations, true, Worst) == RunFrom(maxIterations, true, WorstAt(k), Worst, k)
  {
    hide Pass, Worst;
    if k > 0 {
      WorstInBudget(maxIterations, k - 1);
      WorstReaches(maxIterations, k - 1);
      WorstPass(maxIterations, k - 1);
      assert RunFrom(maxIterations, true, WorstAt(k - 1), Worst, k - 1)
          == RunFrom(maxIterations, true, WorstAt(k), Worst, k);
    }
  }

  /** The bounds cannot be lowered: some answers of the model make exactly 5 M + 14 requests and M rounds of tools. */
  lemma BoundIsAttained(maxIterations: nat)
    requires maxIterations >= 1
    ensures exists turns :: var d := RunLoop(maxIterations, true, turns);
                            d.requests == 5 * maxIterations + 14 && d.rounds == maxIterations
  {
    var k := 5 * maxIterations + 13;
    WorstInBudget(maxIterations, k);
    WorstReaches(maxIterations, k);
    assert (k - 14) / 5 == maxIterations - 1 && (k - 14) % 5 == 4;
    var d := Pass(maxIterations, true, WorstAt(k), Worst(k));
    assert d.exit.Final? && d.requests == 5 * maxIterations + 14 && d.rounds == maxIterations;
    assert RunLoop(maxIterations, true, Worst) == d;
  }
}
