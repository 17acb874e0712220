/**
 The agentic loop as it runs, with the conversation it builds. It follows the control function pass by pass, and every
 context it sends pairs each assistant message with one result per tool call, in order.
 */
module AgentLoopRun {
  import opened Common
  import opened ToolPool
  import opened AgentLoop
  import opened AgentLoopExits

  datatype Message =
    | User(text: string)
    | Assistant(calls: seq<ToolCall>)
    | ToolResult(callId: string, toolName: string, isError: bool)

  // ---------------------------------------------------------------- conversations

  predicate Answers(results: seq<Message>, calls: seq<ToolCall>)
  {
    |results| == |calls| && forall i :: 0 <= i < |calls| ==> results[i].ToolResult? && results[i].callId == calls[i].id
  }

  /** Each assistant message is followed at once by the results of its calls, and results occur nowhere else. */
  predicate Paired(ms: seq<Message>) {
    ms == [] ||
    match ms[0]
    case User(_) => Paired(ms[1..])
    case Assistant(calls) =>
      |ms| > |calls| && Answers(ms[1..1 + |calls|], calls) && Paired(ms[1 + |calls|..])
    case ToolResult(_, _, _) => false
  }

  lemma {:induction false} PairedAppend(a: seq<Message>, b: seq<Message>)
    requires Paired(a)
    ensures Paired(a + b) <==> Paired(b)
    decreases |a|
  {
    if a == [] {
      assert a + b == b;
    } else {
      assert (a + b)[0] == a[0];
      var n := if a[0].Assistant? then 1 + |a[0].calls| else 1;
      assert (a + b)[n..] == a[n..] + b;
      if a[0].Assistant? {
        assert (a + b)[1..n] == a[1..n];
      }
      PairedAppend(a[n..], b);
    }
  }

  predicate EndsWithAssistant(ms: seq<Message>) { ms != [] && ms[|ms| - 1].Assistant? }

  /** One reply with the results of its calls. */
  lemma RoundIsPaired(calls: seq<ToolCall>, results: seq<Message>)
    requires Answers(results, calls)
    ensures Paired([Assistant(calls)] + results)
  {
    var ms := [Assistant(calls)] + results;
    assert ms[1..1 + |calls|] == results && ms[1 + |calls|..] == [];
  }

  // ---------------------------------------------------------------- a round of tools

  /** Decisions of the tool:before hooks: the reason a call is blocked, if it is. */
  type Hooks = ToolCall -> Option<string>

  function PlanOf(hooks: Hooks, call: ToolCall): Plan {
    match hooks(call)
    case None => Plan(call, false, "")
    case Some(reason) => Plan(call, true, if reason == "" then "Blocked by plugin hook" else reason)
  }

  function PlansOf(hooks: Hooks, calls: seq<ToolCall>): (plans: seq<Plan>)
    ensures |plans| == |calls|
  {
    Map((c: ToolCall) => PlanOf(hooks, c), calls)
  }

  function ResultOf(call: ToolCall, outcome: ToolOutcome): Message { ToolResult(call.id, call.name, !outcome.success) }

  function ResultsOf(calls: seq<ToolCall>, outcomes: seq<ToolOutcome>): (results: seq<Message>)
    requires |outcomes| == |calls|
    ensures Answers(results, calls)
  {
    seq(|calls|, i requires 0 <= i < |calls| => ResultOf(calls[i], outcomes[i]))
  }

  /** First phase: the hooks, in order. */
  method PlanCalls(calls: seq<ToolCall>, hooks: Hooks) returns (toolPlans: seq<Plan>)
    ensures toolPlans == PlansOf(hooks, calls)
  {
    toolPlans := [];
    var i := 0;
    while i < |calls|
      invariant 0 <= i <= |calls|
      invariant toolPlans == PlansOf(hooks, calls)[..i]
    {
      var decision := hooks(calls[i]);
      if decision.Some? {
        toolPlans := toolPlans +
          [Plan(calls[i], true, if decision.value == "" then "Blocked by plugin hook" else decision.value)];
      } else {
        toolPlans := toolPlans + [Plan(calls[i], false, "")];
      }
      i := i + 1;
    }
  }

  /** Third phase: one result per call, in order. */
  method PushResults(messages: seq<Message>, calls: seq<ToolCall>, outcomes: seq<ToolOutcome>)
    returns (after: seq<Message>)
    requires |outcomes| == |calls|
    ensures after == messages + ResultsOf(calls, outcomes)
  {
    after := messages;
    var i := 0;
    while i < |calls|
      invariant 0 <= i <= |calls|
      invariant after == messages + ResultsOf(calls, outcomes)[..i]
    {
      after := after + [ToolResult(calls[i].id, calls[i].name, !outcomes[i].success)];
      i := i + 1;
    }
  }

  /** After the reply, one result per call, under its id and name: an error if the call was blocked, came after the abort or
      failed. */
  predicate ResultsSay(added: seq<Message>, calls: seq<ToolCall>, hooks: Hooks, registry: Registry, cut: nat) {
    && |added| == 1 + |calls| && added[0] == Assistant(calls)
    && forall i :: 0 <= i < |calls| ==>
         added[1 + i] ==
         ToolResult(calls[i].id, calls[i].name, i >= cut || hooks(calls[i]).Some? || !registry(i).success)
  }

  /** What became of a call: cut off by the abort, blocked for a reason, or answered by the registry. */
  function Became(call: ToolCall, hooks: Hooks, answer: ToolOutcome, claimed: bool): ToolOutcome {
    if !claimed then ToolOutcome(false, "Run aborted") else
    match hooks(call)
    case Some(reason) => ToolOutcome(false, if reason == "" then "Blocked by plugin hook" else reason)
    case None => answer
  }

  predicate OutcomesSay(outcomes: seq<ToolOutcome>, calls: seq<ToolCall>, hooks: Hooks, registry: Registry, cut: nat) {
    |outcomes| == |calls| && forall i :: 0 <= i < |calls| ==> outcomes[i] == Became(calls[i], hooks, registry(i), i < cut)
  }

  lemma OutcomesSaid(calls: seq<ToolCall>, hooks: Hooks, registry: Registry, cut: nat)
    ensures OutcomesSay(Filled(PlansOf(hooks, calls), registry, cut), calls, hooks, registry, cut)
  {
    forall i | 0 <= i < |calls|
      ensures Filled(PlansOf(hooks, calls), registry, cut)[i] == Became(calls[i], hooks, registry(i), i < cut)
    {
      assert PlansOf(hooks, calls)[i] == PlanOf(hooks, calls[i]);
    }
  }

  lemma ResultsSaid(messages: seq<Message>, calls: seq<ToolCall>, hooks: Hooks, registry: Registry, cut: nat,
                    outcomes: seq<ToolOutcome>)
    requires OutcomesSay(outcomes, calls, hooks, registry, cut)
    ensures var after := messages + ([Assistant(calls)] + ResultsOf(calls, outcomes));
            ResultsSay(after[|messages|..], calls, hooks, registry, cut)
  {
    hide Answers;
    var added := [Assistant(calls)] + ResultsOf(calls, outcomes);
    assert (messages + added)[|messages|..] == added;
    forall i | 0 <= i < |calls|
      ensures added[1 + i] ==
              ToolResult(calls[i].id, calls[i].name, i >= cut || hooks(calls[i]).Some? || !registry(i).success)
    {
      assert added[1 + i] == ResultOf(calls[i], outcomes[i]);
    }
  }

  method RunTools(messages: seq<Message>, calls: seq<ToolCall>, hooks: Hooks, registry: Registry)
    returns (after: seq<Message>, outcomes: seq<ToolOutcome>, launched: seq<nat>, cut: nat)
    ensures cut <= |calls| && outcomes == Filled(PlansOf(hooks, calls), registry, cut)
    ensures launched == Unblocked(PlansOf(hooks, calls), cut)
    ensures after == messages + ([Assistant(calls)] + ResultsOf(calls, outcomes))
    ensures calls != [] ==> !EndsWithAssistant(after)
    ensures OutcomesSay(outcomes, calls, hooks, registry, cut)
    ensures ResultsSay(after[|messages|..], calls, hooks, registry, cut)
  {
    hide PlansOf, Filled, Unblocked, OutcomesSay, ResultsSay, ResultsOf;
    var toolPlans := PlanCalls(calls, hooks);
    var peak;
    outcomes, launched, cut, peak := RunPool(toolPlans, registry);
    after := PushResults(messages + [Assistant(calls)], calls, outcomes);
    assert after == messages + ([Assistant(calls)] + ResultsOf(calls, outcomes));
    OutcomesSaid(calls, hooks, registry, cut);
    ResultsSaid(messages, calls, hooks, registry, cut, outcomes);
  }

  lemma RoundKeepsPaired(messages: seq<Message>, calls: seq<ToolCall>, outcomes: seq<ToolOutcome>)
    requires |outcomes| == |calls| && Paired(messages)
    ensures Paired(messages + ([Assistant(calls)] + ResultsOf(calls, outcomes)))
  {
    RoundIsPaired(calls, ResultsOf(calls, outcomes));
    PairedAppend(messages, [Assistant(calls)] + ResultsOf(calls, outcomes));
  }

  // ---------------------------------------------------------------- after the loop

  /** The final response joins the conversation unless the last message is already the assistant's. */
  function Closed(messages: seq<Message>, reply: Reply): seq<Message> {
    if messages != [] && messages[|messages| - 1].Assistant? then messages else messages + [Assistant(reply.calls)]
  }

  /** Joined that way, a reply that calls tools is left without results: a loop ended by its last iteration or by a
      stall repeats its last reply after the results. */
  lemma ClosedIsPairedExactly(messages: seq<Message>, reply: Reply)
    requires Paired(messages)
    ensures Paired(Closed(messages, reply)) <==> reply.calls == [] || EndsWithAssistant(messages)
  {
    PairedAppend(messages, [Assistant(reply.calls)]);
    assert [Assistant(reply.calls)][1..] == [];
  }

  // ---------------------------------------------------------------- the loop

  /** The environment of a whole message: turns by pass, hooks and registry by round, text of recovery messages. */
  datatype Environment = Environment(
    maxIterations: nat,
    canRunTools: bool,
    recoveryEnabled: bool,
    turns: nat -> Turn,
    hooks: nat -> Hooks,
    registries: nat -> Registry)

  predicate SomeFailed(outcomes: seq<ToolOutcome>) { exists i :: 0 <= i < |outcomes| && !outcomes[i].success }

  ghost predicate AllPaired(contexts: seq<seq<Message>>) {
    forall i :: 0 <= i < |contexts| ==> Paired(contexts[i])
  }

  // ---------------------------------------------------------------- what a run adds to the conversation

  /** A round of tools: the turn whose reply asked for it, its calls and their outcomes, and whether a recovery message
      follows. */
  datatype Round = Round(turn: nat, calls: seq<ToolCall>, outcomes: seq<ToolOutcome>, recovery: bool)

  function MessagesOf(r: Round): seq<Message> {
    (if |r.outcomes| == |r.calls| then [Assistant(r.calls)] + ResultsOf(r.calls, r.outcomes) else [])
    + if r.recovery then [User("recovery")] else []
  }

  function Written(rounds: seq<Round>): seq<Message> {
    if rounds == [] then [] else Written(rounds[..|rounds| - 1]) + MessagesOf(rounds[|rounds| - 1])
  }

  /** The round is the one of its turn: the calls of the reply, answered for hooks, registry and some moment of abort; a
      recovery message follows a failure if recovery is on and another iteration is left. */
  ghost predicate IsRound(env: Environment, r: Round) {
    && env.turns(r.turn).outcome.Answered? && env.turns(r.turn).outcome.reply.calls == r.calls != []
    && |r.outcomes| == |r.calls|
    && (exists cut: nat :: r.outcomes == Filled(PlansOf(env.hooks(r.turn), r.calls), env.registries(r.turn), cut))
    && (r.recovery <==>
          env.recoveryEnabled && (exists i :: 0 <= i < |r.outcomes| && !r.outcomes[i].success)
          && Spent(env.turns, r.turn) + 1 < env.maxIterations)
  }

  /** Rounds in the order of their turns, all before a turn. */
  ghost predicate RoundsOf(env: Environment, rounds: seq<Round>, to: nat) {
    && (forall i :: 0 <= i < |rounds| ==> rounds[i].turn < to && IsRound(env, rounds[i]))
    && (forall i, j :: 0 <= i < j < |rounds| ==> rounds[i].turn < rounds[j].turn)
  }

  /** The rounds of these turns. */
  function Between(rounds: seq<Round>, from: nat, to: nat): seq<Round> {
    if rounds == [] then [] else
      var before, last := Between(rounds[..|rounds| - 1], from, to), rounds[|rounds| - 1];
      if from <= last.turn < to then before + [last] else before
  }

  lemma WrittenNext(rounds: seq<Round>, r: Round)
    ensures Written(rounds + [r]) == Written(rounds) + MessagesOf(r) && Written([]) == []
  {
    assert (rounds + [r])[..|rounds|] == rounds;
  }

  lemma BetweenNext(rounds: seq<Round>, r: Round, from: nat, to: nat)
    ensures Between(rounds + [r], from, to) ==
            Between(rounds, from, to) + if from <= r.turn < to then [r] else []
  {
    assert (rounds + [r])[..|rounds|] == rounds;
    assert Between(rounds, from, to) + [] == Between(rounds, from, to);
  }

  /** Beyond the last of them, turns do not matter. */
  lemma {:induction false} BetweenBounds(rounds: seq<Round>, from: nat, to: nat, later: nat)
    requires to <= later && forall i :: 0 <= i < |rounds| ==> rounds[i].turn < to
    ensures Between(rounds, from, later) == Between(rounds, from, to) && Between(rounds, to, later) == []
  {
    if rounds != [] {
      BetweenBounds(rounds[..|rounds| - 1], from, to, later);
    }
  }

  // ---------------------------------------------------------------- passes

  /** A reply: an empty one is asked for again, one without calls ends the loop, the others start a round of tools. */
  method RunAnswered(env: Environment, pass: nat, before: Control, history: seq<Message>, reply: Reply)
    returns (c: Control, messages: seq<Message>, round: Option<Round>)
    requires before.exit.Running? && 0 < before.iteration <= env.maxIterations
    requires env.turns(pass).outcome == Answered(reply) && before.iteration == Spent(env.turns, pass) + 1
    ensures c == OnAnswered(env.maxIterations, env.canRunTools, before, env.turns(pass), reply)
    ensures round.Some? <==> c.rounds == before.rounds + 1
    ensures round.Some? ==> round.value.turn == pass && IsRound(env, round.value)
    ensures messages == history + if round.Some? then MessagesOf(round.value) else []
    ensures Paired(history) ==> Paired(messages)
    ensures EndsWithAssistant(messages) ==> EndsWithAssistant(history)
  {
    hide Paired, Filled, Unblocked, ResultsOf, Spent;
    var turn := env.turns(pass);
    messages, round := history, None;
    c := before;
    if reply.text != "" || reply.tokens || reply.calls != [] {
      c := c.(emptyRetries := 0, recoveries := 0, prompted := false);
    }
    if reply.calls == [] {
      if reply.text == "" && !reply.tokens {
        if c.emptyRetries < EMPTY_RESPONSE_MAX_RETRIES {
          c := c.(emptyRetries := c.emptyRetries + 1);
          if turn.abortedInBackoff { return c.(exit := Stopped), messages, None; }
          c := c.(iteration := c.iteration - 1);
          return;
        }
        if turn.recoverable && c.recoveries < EMPTY_RESPONSE_RECOVERY_MAX_ATTEMPTS {
          c := c.(recoveries := c.recoveries + 1, prompted := true);
          c := c.(iteration := c.iteration - 1);
          return;
        }
        if turn.diagnosable { return c.(exit := Thrown(EmptyResponse)), messages, None; }
      }
      return c.(exit := Final(reply)), messages, None;
    }
    if !env.canRunTools { return c.(exit := Stopped), messages, None; }
    if turn.abortedBeforeTools { return c.(exit := Final(reply)), messages, None; }
    var r;
    messages, r := RunRound(env, pass, c.iteration, history, reply.calls);
    round := Some(r);
    c := c.(rounds := c.rounds + 1);
    if turn.stalled { return c.(exit := Final(reply)), messages, round; }
    if c.iteration == env.maxIterations { c := c.(exit := Final(reply)); }
  }

  lemma RoundMade(env: Environment, r: Round, iteration: nat, cut: nat)
    requires env.turns(r.turn).outcome.Answered? && env.turns(r.turn).outcome.reply.calls == r.calls != []
    requires iteration == Spent(env.turns, r.turn) + 1
    requires r.outcomes == Filled(PlansOf(env.hooks(r.turn), r.calls), env.registries(r.turn), cut)
    requires r.recovery <==> SomeFailed(r.outcomes) && env.recoveryEnabled && iteration < env.maxIterations
    ensures IsRound(env, r)
  {
    hide Spent, Slot, PlanOf;
  }

  lemma RoundWritten(history: seq<Message>, r: Round)
    requires |r.outcomes| == |r.calls|
    ensures history + MessagesOf(r) ==
            history + ([Assistant(r.calls)] + ResultsOf(r.calls, r.outcomes)) + if r.recovery then [User("recovery")] else []
  {
    hide ResultsOf;
  }

  /** The tools of one reply and, after a failure, the recovery message. */
  method RunRound(env: Environment, pass: nat, iteration: nat, history: seq<Message>, calls: seq<ToolCall>)
    returns (messages: seq<Message>, round: Round)
    requires env.turns(pass).outcome.Answered? && env.turns(pass).outcome.reply.calls == calls != []
    requires iteration == Spent(env.turns, pass) + 1
    ensures round.turn == pass && IsRound(env, round) && messages == history + MessagesOf(round)
    ensures Paired(history) ==> Paired(messages)
    ensures !EndsWithAssistant(messages)
  {
    hide Paired, Filled, Unblocked, Spent, IsRound, MessagesOf, ResultsOf, PlansOf, ResultsSay;
    var outcomes, launched, cut;
    messages, outcomes, launched, cut := RunTools(history, calls, env.hooks(pass), env.registries(pass));
    if Paired(history) { RoundKeepsPaired(history, calls, outcomes); }
    var recovery := SomeFailed(outcomes) && env.recoveryEnabled && iteration < env.maxIterations;
    round := Round(pass, calls, outcomes, recovery);
    RoundMade(env, round, iteration, cut);
    RoundWritten(history, round);
    if recovery {
      RecoveryKeepsPaired(messages);
      messages := messages + [User("recovery")];
    }
  }

  /** Errors run no tools, and answers reset nothing. */
  lemma ErrorKeeps(c: Control, turn: Turn, error: ErrorText)
    requires c.iteration > 0
    ensures OnNetworkError(c, turn).rounds == c.rounds && OnNetworkError(c, turn).overflows == c.overflows
    ensures OnFailed(c, turn, error).rounds == c.rounds
    ensures !error.overflow ==> OnFailed(c, turn, error).overflows == c.overflows
  {
  }

  lemma AnswerKeeps(env: Environment, c: Control, turn: Turn, reply: Reply)
    requires c.iteration > 0
    ensures OnAnswered(env.maxIterations, env.canRunTools, c, turn, reply).overflows == c.overflows
  {
  }

  /** The body of the loop: one request, and what its answer leads to. */
  method RunPass(env: Environment, pass: nat, before: Control, history: seq<Message>, userMsg: Message)
    returns (c: Control, messages: seq<Message>, round: Option<Round>)
    requires before.exit.Running? && InBudget(before) && before.iteration < env.maxIterations && userMsg.User?
    requires before.iteration == Spent(env.turns, pass)
    ensures c == Pass(env.maxIterations, env.canRunTools, before, env.turns(pass))
    ensures round.Some? <==> c.rounds == before.rounds + 1
    ensures round.Some? ==> round.value.turn == pass && IsRound(env, round.value)
    ensures messages == if c.overflows == before.overflows + 1 && c.exit.Running? then [userMsg]
                        else history + if round.Some? then MessagesOf(round.value) else []
    ensures Paired(history) ==> Paired(messages)
    ensures EndsWithAssistant(messages) ==> EndsWithAssistant(history)
  {
    hide Paired, OnNetworkError, OnAnswered, Spent, IsRound, MessagesOf;
    messages, round := history, None;
    var turn := env.turns(pass);
    c := before.(iteration := before.iteration + 1);
    if turn.abortedBefore { return c.(exit := Stopped), messages, None; }
    c := c.(requests := c.requests + 1);
    match turn.outcome {
      case OtherThrown =>
        return c.(exit := Thrown(OtherFailure)), messages, None;
      case NetworkThrown =>
        ErrorKeeps(c, turn, ErrorText(false, false, false, false));
        c := RetryNetwork(c, turn);
        return;
      case Failed(error) =>
        if error.overflow {
          c := c.(overflows := c.overflows + 1);
          if c.overflows > 1 { return c.(exit := Thrown(OverflowPersists)), messages, None; }
          messages := [userMsg];
          UserIsPaired(userMsg);
          return;
        }
        ErrorKeeps(c, turn, error);
        c := RetryFailed(c, turn, error);
        return;
      case Answered(reply) =>
        AnswerKeeps(env, c, turn, reply);
        c, messages, round := RunAnswered(env, pass, c, history, reply);
    }
  }

  lemma UserIsPaired(userMsg: Message)
    requires userMsg.User?
    ensures Paired([userMsg])
  {
    assert [userMsg][1..] == [];
  }

  lemma RecoveryKeepsPaired(messages: seq<Message>)
    ensures Paired(messages) ==> Paired(messages + [User("recovery")])
  {
    if Paired(messages) {
      UserIsPaired(User("recovery"));
      PairedAppend(messages, [User("recovery")]);
    }
  }

  method RetryNetwork(before: Control, turn: Turn) returns (c: Control)
    requires before.iteration > 0
    ensures c == OnNetworkError(before, turn)
  {
    c := before.(networkRetries := before.networkRetries + 1);
    if c.networkRetries <= NETWORK_ERROR_MAX_RETRIES {
      if turn.abortedInBackoff { return c.(exit := Stopped); }
      c := c.(iteration := c.iteration - 1);
      return;
    }
    c := c.(exit := Thrown(NetworkFailure));
  }

  /** The branches for an answer that failed for another reason than an overflow. */
  method RetryFailed(before: Control, turn: Turn, error: ErrorText) returns (c: Control)
    requires before.iteration > 0 && !error.overflow
    ensures c == OnFailed(before, turn, error)
  {
    c := before;
    if error.rate {
      c := c.(rateRetries := c.rateRetries + 1);
      if c.rateRetries <= RATE_LIMIT_MAX_RETRIES {
        if turn.abortedInBackoff { return c.(exit := Stopped); }
        return c.(iteration := c.iteration - 1);
      }
      return c.(exit := Thrown(RateLimited));
    } else if error.server {
      c := c.(serverRetries := c.serverRetries + 1);
      if c.serverRetries <= SERVER_ERROR_MAX_RETRIES {
        if turn.abortedInBackoff { return c.(exit := Stopped); }
        return c.(iteration := c.iteration - 1);
      }
      return c.(exit := Thrown(ServerFailure));
    } else if error.network {
      c := RetryNetwork(c, turn);
    } else {
      c := c.(exit := Thrown(OtherFailure));
    }
  }

  /** The conversation before turn `to`: the rounds so far on top of the history or, after a session reset, of the user's
      message. */
  function Conversation(history: seq<Message>, userMsg: Message, rounds: seq<Round>, reset: nat, to: nat): seq<Message> {
    if reset == 0 || to < reset then history + Written(Between(rounds, 0, to))
    else [userMsg] + Written(Between(rounds, reset, to))
  }

  /** Every request was made with the conversation before its turn, and with the recovery prompt exactly after four empty
      answers. */
  ghost predicate Requests(env: Environment, history: seq<Message>, userMsg: Message, rounds: seq<Round>, reset: nat,
                           sent: seq<seq<Message>>, prompts: seq<bool>)
  {
    && |sent| == |prompts|
    && forall i :: 0 <= i < |sent| ==>
         sent[i] == Conversation(history, userMsg, rounds, reset, i) && (prompts[i] <==> EmptyInARow(env.turns, i) == 4)
  }

  /** The turn before `reset` is the first overflow, if there is any among these. */
  predicate ResetAt(env: Environment, reset: nat, overflows: nat) {
    if reset == 0 then overflows == 0
    else overflows >= 1 && KindOf(env.turns(reset - 1).outcome) == OverflowTurn && HowMany(env.turns, reset - 1, OverflowTurn) == 0
  }

  /** A further round changes no earlier conversation. */
  lemma EarlierConversations(history: seq<Message>, userMsg: Message, rounds: seq<Round>, reset: nat, round: Round, to: nat)
    requires to <= round.turn
    ensures Conversation(history, userMsg, rounds + [round], reset, to) == Conversation(history, userMsg, rounds, reset, to)
  {
    hide Written;
    BetweenNext(rounds, round, 0, to);
    BetweenNext(rounds, round, reset, to);
    assert Between(rounds, 0, to) + [] == Between(rounds, 0, to);
    assert Between(rounds, reset, to) + [] == Between(rounds, reset, to);
  }

  /** The conversation after a turn without a round of tools, and after one with it. */
  lemma NextConversation(env: Environment, history: seq<Message>, userMsg: Message, rounds: seq<Round>, reset: nat,
                         pass: nat)
    requires RoundsOf(env, rounds, pass) && reset <= pass
    ensures Conversation(history, userMsg, rounds, reset, pass + 1) == Conversation(history, userMsg, rounds, reset, pass)
  {
    hide IsRound, Written;
    BetweenBounds(rounds, 0, pass, pass + 1);
    BetweenBounds(rounds, reset, pass, pass + 1);
  }

  lemma RoundAdded(history: seq<Message>, userMsg: Message, rounds: seq<Round>, reset: nat, round: Round)
    requires reset <= round.turn
    ensures Conversation(history, userMsg, rounds + [round], reset, round.turn + 1) ==
            Conversation(history, userMsg, rounds, reset, round.turn + 1) + MessagesOf(round)
  {
    hide MessagesOf, Between, Written;
    var to := round.turn + 1;
    BetweenNext(rounds, round, 0, to);
    BetweenNext(rounds, round, reset, to);
    WrittenNext(Between(rounds, 0, to), round);
    WrittenNext(Between(rounds, reset, to), round);
    Associates(history, [userMsg], Written(Between(rounds, 0, to)), MessagesOf(round));
    Associates(history, [userMsg], Written(Between(rounds, reset, to)), MessagesOf(round));
  }

  /** A pass without a reset. */
  lemma RoundJoins(env: Environment, history: seq<Message>, userMsg: Message, rounds: seq<Round>, reset: nat, pass: nat,
                   round: Option<Round>, sent: seq<seq<Message>>, prompts: seq<bool>)
    requires RoundsOf(env, rounds, pass) && reset <= pass && |sent| <= pass + 1
    requires round.Some? ==> round.value.turn == pass && IsRound(env, round.value)
    requires Requests(env, history, userMsg, rounds, reset, sent, prompts)
    ensures var all := rounds + if round.Some? then [round.value] else [];
            && RoundsOf(env, all, pass + 1)
            && Requests(env, history, userMsg, all, reset, sent, prompts)
            && Conversation(history, userMsg, all, reset, pass + 1) ==
               Conversation(history, userMsg, rounds, reset, pass) + if round.Some? then MessagesOf(round.value) else []
  {
    hide IsRound, MessagesOf, EmptyInARow, Conversation;
    NextConversation(env, history, userMsg, rounds, reset, pass);
    if round.Some? {
      RoundAdded(history, userMsg, rounds, reset, round.value);
      forall i | 0 <= i < |sent|
        ensures Conversation(history, userMsg, rounds + [round.value], reset, i)
             == Conversation(history, userMsg, rounds, reset, i)
      {
        EarlierConversations(history, userMsg, rounds, reset, round.value, i);
      }
    } else {
      assert rounds + [] == rounds;
      assert Conversation(history, userMsg, rounds, reset, pass) + [] == Conversation(history, userMsg, rounds, reset, pass);
    }
  }

  /** One more request. */
  lemma RequestMade(env: Environment, history: seq<Message>, userMsg: Message, rounds: seq<Round>, reset: nat,
                    sent: seq<seq<Message>>, prompts: seq<bool>, context: seq<Message>, prompt: bool)
    requires Requests(env, history, userMsg, rounds, reset, sent, prompts)
    requires context == Conversation(history, userMsg, rounds, reset, |sent|)
    requires prompt <==> EmptyInARow(env.turns, |sent|) == 4
    ensures Requests(env, history, userMsg, rounds, reset, sent + [context], prompts + [prompt])
  {
    hide Conversation, EmptyInARow;
  }

  /** A pass that resets the session. */
  lemma ResetJoins(env: Environment, history: seq<Message>, userMsg: Message, rounds: seq<Round>, pass: nat,
                   sent: seq<seq<Message>>, prompts: seq<bool>)
    requires RoundsOf(env, rounds, pass) && |sent| <= pass + 1
    requires Requests(env, history, userMsg, rounds, 0, sent, prompts)
    ensures RoundsOf(env, rounds, pass + 1)
    ensures Requests(env, history, userMsg, rounds, pass + 1, sent, prompts)
    ensures Conversation(history, userMsg, rounds, pass + 1, pass + 1) == [userMsg]
  {
    hide IsRound, EmptyInARow, Between;
    BetweenBounds(rounds, 0, pass + 1, pass + 1);
    assert Written([]) == [];
  }

  lemma EmptyConversation(history: seq<Message>, userMsg: Message, pass: nat)
    ensures Conversation(history, userMsg, [], 0, pass) == history
  {
    assert history + [] == history;
  }

  lemma Associates(a: seq<Message>, b: seq<Message>, c: seq<Message>, d: seq<Message>)
    ensures a + (c + d) == a + c + d && b + (c + d) == b + c + d
  {
  }

  /** The conversation with what has happened: the contexts of the requests made, which of them were made with the recovery
      prompt, the rounds of tools, and the turn after the session reset, if there was one. */
  datatype Log = Log(
    messages: seq<Message>,
    sent: seq<seq<Message>>,
    prompts: seq<bool>,
    rounds: seq<Round>,
    reset: nat)

  /** The log after this many turns. */
  ghost predicate LogFits(env: Environment, history: seq<Message>, userMsg: Message, log: Log, c: Control, turns: nat) {
    && |log.rounds| == c.rounds && RoundsOf(env, log.rounds, turns)
    && ResetAt(env, log.reset, c.overflows) && log.reset <= turns
    && Requests(env, history, userMsg, log.rounds, log.reset, log.sent, log.prompts)
    && log.messages == Conversation(history, userMsg, log.rounds, log.reset, turns)
    && (Paired(history) ==> Paired(log.messages) && AllPaired(log.sent))
    && (!EndsWithAssistant(history) ==> !EndsWithAssistant(log.messages))
  }

  /** The request of a turn. */
  lemma RequestLogged(env: Environment, history: seq<Message>, userMsg: Message, log: Log, c: Control, pass: nat)
    requires LogFits(env, history, userMsg, log, c, pass) && |log.sent| == pass && Matches(c, env.turns, pass)
    ensures LogFits(env, history, userMsg,
                    log.(sent := log.sent + [log.messages], prompts := log.prompts + [c.prompted]), c, pass)
  {
    hide Requests, Conversation, RoundsOf, ResetAt, Paired, EndsWithAssistant, HowMany, EmptyInARow, Spent;
    RequestMade(env, history, userMsg, log.rounds, log.reset, log.sent, log.prompts, log.messages, c.prompted);
  }

  /** The answer to it. */
  lemma AnswerLogged(env: Environment, history: seq<Message>, userMsg: Message, log: Log, before: Control, c: Control,
                     pass: nat, messages: seq<Message>, round: Option<Round>)
    requires LogFits(env, history, userMsg, log, before, pass) && |log.sent| <= pass + 1
    requires round.Some? ==> round.value.turn == pass && IsRound(env, round.value)
    requires c.rounds == before.rounds + if round.Some? then 1 else 0
    requires c.overflows == before.overflows
             || (before.overflows >= 1 && c.overflows == before.overflows + 1)
    requires messages == log.messages + if round.Some? then MessagesOf(round.value) else []
    requires Paired(log.messages) ==> Paired(messages)
    requires EndsWithAssistant(messages) ==> EndsWithAssistant(log.messages)
    ensures LogFits(env, history, userMsg,
                    log.(messages := messages, rounds := log.rounds + if round.Some? then [round.value] else []),
                    c, pass + 1)
  {
    hide Requests, Conversation, RoundsOf, Paired, EndsWithAssistant, HowMany, IsRound, MessagesOf;
    RoundJoins(env, history, userMsg, log.rounds, log.reset, pass, round, log.sent, log.prompts);
  }

  /** A session reset. */
  lemma ResetLogged(env: Environment, history: seq<Message>, userMsg: Message, log: Log, before: Control, c: Control,
                    pass: nat)
    requires LogFits(env, history, userMsg, log, before, pass) && |log.sent| <= pass + 1 && userMsg.User?
    requires before.overflows == 0 && c.overflows == 1 && c.rounds == before.rounds
    requires KindOf(env.turns(pass).outcome) == OverflowTurn && HowMany(env.turns, pass, OverflowTurn) == 0
    ensures LogFits(env, history, userMsg, log.(messages := [userMsg], reset := pass + 1), c, pass + 1)
  {
    hide Requests, Conversation, RoundsOf, HowMany, IsRound, MessagesOf;
    ResetJoins(env, history, userMsg, log.rounds, pass, log.sent, log.prompts);
    UserIsPaired(userMsg);
  }

  /** One turn of the loop. */
  method TakeTurn(env: Environment, ghost history: seq<Message>, userMsg: Message, before: Control, log: Log, pass: nat)
    returns (c: Control, after: Log)
    requires Matches(before, env.turns, pass) && InBudget(before) && before.iteration < env.maxIterations && userMsg.User?
    requires LogFits(env, history, userMsg, log, before, pass) && |log.sent| == pass
    ensures c == Pass(env.maxIterations, env.canRunTools, before, env.turns(pass))
    ensures |after.sent| == c.requests
    ensures LogFits(env, history, userMsg, after, c, c.requests)
    ensures c.exit.Running? ==> c.requests == pass + 1
  {
    hide Pass, GoesOn, Spent, HowMany, EmptyInARow, IsRound, Conversation, MessagesOf, Paired, LogFits, ExitFits;
    PassSteps(env.maxIterations, env.canRunTools, before, env.turns, pass);
    PassCounts(env.maxIterations, env.canRunTools, before, env.turns(pass));
    LogMessages(env, history, userMsg, log, before, pass);
    after := log;
    if !env.turns(pass).abortedBefore {
      RequestLogged(env, history, userMsg, log, before, pass);
      after := after.(sent := log.sent + [log.messages], prompts := log.prompts + [before.prompted]);
    }
    var messages, round;
    c, messages, round := RunPass(env, pass, before, log.messages, userMsg);
    if c.overflows == before.overflows + 1 && c.exit.Running? {
      ResetLogged(env, history, userMsg, after, before, c, pass);
      after := after.(messages := messages, reset := pass + 1);
    } else if env.turns(pass).abortedBefore {
      LogStays(env, history, userMsg, log, before, c, pass);
    } else {
      AnswerLogged(env, history, userMsg, after, before, c, pass, messages, round);
      after := after.(messages := messages, rounds := log.rounds + if round.Some? then [round.value] else []);
    }
  }

  lemma LogMessages(env: Environment, history: seq<Message>, userMsg: Message, log: Log, c: Control, pass: nat)
    requires LogFits(env, history, userMsg, log, c, pass)
    ensures log.reset <= pass && (c.overflows == 0 ==> log.reset == 0)
  {
  }

  lemma NothingLogged(env: Environment, history: seq<Message>, userMsg: Message, pass: nat)
    ensures LogFits(env, history, userMsg, Log(history, [], [], [], 0), START, pass)
  {
    EmptyConversation(history, userMsg, pass);
  }

  lemma ClosedFits(env: Environment, history: seq<Message>, userMsg: Message, log: Log, c: Control)
    requires LogFits(env, history, userMsg, log, c, c.requests)
    ensures Paired(history) && c.exit.Final? ==>
              (Paired(Closed(log.messages, c.exit.reply)) <==>
               c.exit.reply.calls == [] || EndsWithAssistant(log.messages))
  {
    if Paired(history) && c.exit.Final? {
      ClosedIsPairedExactly(log.messages, c.exit.reply);
    }
  }

  lemma LogStays(env: Environment, history: seq<Message>, userMsg: Message, log: Log, c: Control, d: Control, pass: nat)
    requires LogFits(env, history, userMsg, log, c, pass) && d.rounds == c.rounds && d.overflows == c.overflows
    ensures LogFits(env, history, userMsg, log, d, pass)
  {
  }

  lemma OutOfIterations(maxIterations: nat, canRunTools: bool, c: Control, turns: nat -> Turn, pass: nat)
    requires c.exit.Running? && InBudget(c) && c.iteration == maxIterations
    ensures RunFrom(maxIterations, canRunTools, c, turns, pass) == c.(exit := Stopped)
  {
  }

  /** The while loop. */
  method Run(env: Environment, history: seq<Message>, userMsg: Message) returns (c: Control, log: Log)
    requires userMsg.User?
    ensures c == RunLoop(env.maxIterations, env.canRunTools, env.turns)
    ensures |log.sent| == c.requests && LogFits(env, history, userMsg, log, c, c.requests)
    ensures Paired(history) && c.exit.Final? ==>
              (Paired(Closed(log.messages, c.exit.reply)) <==>
               c.exit.reply.calls == [] || EndsWithAssistant(log.messages))
  {
    hide Pass, Matches, InBudget, RunFrom, Paired, LogFits, EndsWithAssistant, Closed, Retries, StreakLeft;
    log := Log(history, [], [], [], 0);
    c := START;
    var pass := 0;
    NoTurnYet(env.turns, pass);
    NothingLogged(env, history, userMsg, pass);
    while c.iteration < env.maxIterations
      invariant Matches(c, env.turns, pass) && InBudget(c) && c.iteration <= env.maxIterations && c.requests == pass
      invariant c.exit.Running?
      invariant RunLoop(env.maxIterations, env.canRunTools, env.turns)
             == RunFrom(env.maxIterations, env.canRunTools, c, env.turns, pass)
      invariant LogFits(env, history, userMsg, log, c, pass) && |log.sent| == pass
      decreases env.maxIterations - c.iteration, Retries(c), StreakLeft(c)
    {
      TurnAdvances(env.maxIterations, env.canRunTools, c, env.turns, pass);
      RunNext(env.maxIterations, env.canRunTools, c, env.turns, pass);
      c, log := TakeTurn(env, history, userMsg, c, log, pass);
      if !c.exit.Running? {
        ClosedFits(env, history, userMsg, log, c);
        return;
      }
      pass := pass + 1;
    }
    OutOfIterations(env.maxIterations, env.canRunTools, c, env.turns, pass);
    LogStays(env, history, userMsg, log, c, c.(exit := Stopped), pass);
    c := c.(exit := Stopped);
  }

  // ---------------------------------------------------------------- a loop that runs out of iterations

  /** Whenever the model answers each request with the same tool calls and nothing interferes, the last of them is
      repeated without results. */
  method RunOutOfIterations(env: Environment, history: seq<Message>, userMsg: Message, reply: Reply)
    returns (c: Control, messages: seq<Message>)
    requires userMsg.User? && Paired(history) && !EndsWithAssistant(history)
    requires env.maxIterations >= 1 && env.canRunTools && reply.calls != [] && AlwaysCalls(env.turns, reply)
    ensures c.exit == Final(reply) && c.rounds == env.maxIterations
    ensures Paired(messages) && !Paired(Closed(messages, reply))
  {
    hide Paired, Closed;
    CallsToTheEnd(env.maxIterations, START, env.turns, 0, reply);
    var log;
    c, log := Run(env, history, userMsg);
    messages := log.messages;
  }
}
