/**
 How the agentic loop ends, in terms of the turns it met. The budgets are counted over the turns themselves, not by the
 loop's counters: of each family of errors so many, of empty answers so many in a row.
 */
module AgentLoopExits {
  import opened AgentLoop

  datatype Kind = OverflowTurn | RateTurn | ServerTurn | NetworkTurn | OtherTurn | EmptyTurn | TextTurn | CallTurn

  function KindOf(o: Outcome): Kind {
    match o
    case NetworkThrown => NetworkTurn
    case OtherThrown => OtherTurn
    case Failed(e) =>
      if e.overflow then OverflowTurn else if e.rate then RateTurn else if e.server then ServerTurn
      else if e.network then NetworkTurn else OtherTurn
    case Answered(reply) =>
      if reply.calls != [] then CallTurn else if reply.text == "" && !reply.tokens then EmptyTurn else TextTurn
  }

  /** How many of the first k turns are of a kind. */
  function HowMany(turns: nat -> Turn, k: nat, kind: Kind): nat {
    if k == 0 then 0 else HowMany(turns, k - 1, kind) + if KindOf(turns(k - 1).outcome) == kind then 1 else 0
  }

  /** Empty answers since the last other answer; errors in between do not end the row. */
  function EmptyInARow(turns: nat -> Turn, k: nat): nat {
    if k == 0 then 0 else
    match KindOf(turns(k - 1).outcome)
    case EmptyTurn => EmptyInARow(turns, k - 1) + 1
    case TextTurn => 0
    case CallTurn => 0
    case _ => EmptyInARow(turns, k - 1)
  }

  /** Iterations spent: on rounds of tools and on the session reset after an overflow. */
  function Spent(turns: nat -> Turn, k: nat): nat { HowMany(turns, k, CallTurn) + HowMany(turns, k, OverflowTurn) }

  /** The k-th turn, if the loop reaches it, does not end the loop. */
  predicate GoesOn(maxIterations: nat, canRunTools: bool, turns: nat -> Turn, k: nat) {
    var t := turns(k);
    !t.abortedBefore &&
    match KindOf(t.outcome)
    case OverflowTurn => HowMany(turns, k, OverflowTurn) == 0
    case RateTurn => HowMany(turns, k, RateTurn) < 8 && !t.abortedInBackoff
    case ServerTurn => HowMany(turns, k, ServerTurn) < 3 && !t.abortedInBackoff
    case NetworkTurn => HowMany(turns, k, NetworkTurn) < 3 && !t.abortedInBackoff
    case OtherTurn => false
    case EmptyTurn =>
      (EmptyInARow(turns, k) < 3 && !t.abortedInBackoff) || (EmptyInARow(turns, k) == 3 && t.recoverable)
    case TextTurn => false
    case CallTurn => canRunTools && !t.abortedBeforeTools && !t.stalled && Spent(turns, k) + 1 < maxIterations
  }

  ghost predicate ReachesTurn(maxIterations: nat, canRunTools: bool, turns: nat -> Turn, n: nat) {
    forall k :: 0 <= k < n ==> Spent(turns, k) < maxIterations && GoesOn(maxIterations, canRunTools, turns, k)
  }

  /** An empty answer that is neither retried nor recovered. */
  predicate EmptyForGood(turns: nat -> Turn, n: nat) {
    KindOf(turns(n).outcome) == EmptyTurn
    && EmptyInARow(turns, n) >= 3 && !(EmptyInARow(turns, n) == 3 && turns(n).recoverable)
  }

  /** The final response is the reply to the last turn: one without calls, or one whose calls an abort, a stall or the last
      iteration made the last. */
  predicate EndsWithReply(maxIterations: nat, canRunTools: bool, turns: nat -> Turn, n: nat) {
    var t := turns(n);
    !t.abortedBefore
    && (|| KindOf(t.outcome) == TextTurn
        || (EmptyForGood(turns, n) && !t.diagnosable)
        || (KindOf(t.outcome) == CallTurn && canRunTools
            && (t.abortedBeforeTools || t.stalled || Spent(turns, n) + 1 == maxIterations)))
  }

  /** What the last turn throws. */
  predicate Throws(turns: nat -> Turn, n: nat, f: Failure) {
    var t, kind := turns(n), KindOf(turns(n).outcome);
    !t.abortedBefore &&
    match f
    case OverflowPersists => kind == OverflowTurn && HowMany(turns, n, OverflowTurn) >= 1
    case RateLimited => kind == RateTurn && HowMany(turns, n, RateTurn) >= 8
    case ServerFailure => kind == ServerTurn && HowMany(turns, n, ServerTurn) >= 3
    case NetworkFailure => kind == NetworkTurn && HowMany(turns, n, NetworkTurn) >= 3
    case EmptyResponse => EmptyForGood(turns, n) && t.diagnosable
    case OtherFailure => kind == OtherTurn
  }

  /** A round of tools is run in the last turn as well. */
  predicate RunsTools(canRunTools: bool, turns: nat -> Turn, n: nat) {
    KindOf(turns(n).outcome) == CallTurn && canRunTools && !turns(n).abortedBefore && !turns(n).abortedBeforeTools
  }

  /** The end of a loop whose last turn is the n-th. */
  ghost predicate EndsAt(maxIterations: nat, canRunTools: bool, turns: nat -> Turn, n: nat, d: Control) {
    && (forall reply :: d.exit == Final(reply) <==>
          turns(n).outcome == Answered(reply) && EndsWithReply(maxIterations, canRunTools, turns, n))
    && (forall f :: d.exit == Thrown(f) <==> Throws(turns, n, f))
    && (d.exit == Stopped <==>
          !EndsWithReply(maxIterations, canRunTools, turns, n) && forall f :: !Throws(turns, n, f))
    && d.requests == n + (if turns(n).abortedBefore then 0 else 1)
    && d.rounds == HowMany(turns, n, CallTurn) + if RunsTools(canRunTools, turns, n) then 1 else 0
  }

  // ---------------------------------------------------------------- the counters count the turns

  predicate Matches(c: Control, turns: nat -> Turn, k: nat) {
    && c.exit.Running? && c.requests == k && c.rounds == HowMany(turns, k, CallTurn)
    && c.iteration == Spent(turns, k) && c.overflows == HowMany(turns, k, OverflowTurn)
    && c.rateRetries == HowMany(turns, k, RateTurn) && c.serverRetries == HowMany(turns, k, ServerTurn)
    && c.networkRetries == HowMany(turns, k, NetworkTurn)
    && EmptyInARow(turns, k) == c.emptyRetries + c.recoveries && (c.recoveries == 0 || c.emptyRetries == 3)
    && (c.prompted <==> EmptyInARow(turns, k) == 4)
  }

  /** The exit of a loop that ends at this turn. */
  ghost predicate ExitFits(maxIterations: nat, canRunTools: bool, turns: nat -> Turn, n: nat, exit: Exit) {
    match exit
    case Running => false
    case Final(reply) => turns(n).outcome == Answered(reply) && EndsWithReply(maxIterations, canRunTools, turns, n)
    case Thrown(f) => Throws(turns, n, f)
    case Stopped => !EndsWithReply(maxIterations, canRunTools, turns, n) && forall f :: !Throws(turns, n, f)
  }

  /** A turn cannot end the loop in two ways. */
  lemma OneExit(maxIterations: nat, canRunTools: bool, turns: nat -> Turn, n: nat, f: Failure, g: Failure)
    ensures Throws(turns, n, f) ==> !EndsWithReply(maxIterations, canRunTools, turns, n)
    ensures Throws(turns, n, f) && Throws(turns, n, g) ==> f == g
    ensures EndsWithReply(maxIterations, canRunTools, turns, n) ==> turns(n).outcome.Answered?
  {
    hide HowMany, EmptyInARow;
  }

  lemma FittingExit(maxIterations: nat, canRunTools: bool, turns: nat -> Turn, n: nat, d: Control)
    requires ExitFits(maxIterations, canRunTools, turns, n, d.exit)
    requires d.requests == n + if turns(n).abortedBefore then 0 else 1
    requires d.rounds == HowMany(turns, n, CallTurn) + if RunsTools(canRunTools, turns, n) then 1 else 0
    ensures EndsAt(maxIterations, canRunTools, turns, n, d) && !d.exit.Running?
  {
    hide Throws, EndsWithReply, RunsTools, HowMany;
    forall f
      ensures Throws(turns, n, f) ==> !EndsWithReply(maxIterations, canRunTools, turns, n)
      ensures Throws(turns, n, f) && d.exit.Thrown? ==> f == d.exit.failure
    {
      OneExit(maxIterations, canRunTools, turns, n, f, if d.exit.Thrown? then d.exit.failure else f);
    }
    OneExit(maxIterations, canRunTools, turns, n, OtherFailure, OtherFailure);
  }

  /** One more turn. */
  lemma Next(turns: nat -> Turn, k: nat, kind: Kind)
    ensures HowMany(turns, k + 1, kind) == HowMany(turns, k, kind) + if KindOf(turns(k).outcome) == kind then 1 else 0
    ensures EmptyInARow(turns, k + 1) ==
            match KindOf(turns(k).outcome)
            case EmptyTurn => EmptyInARow(turns, k) + 1
            case TextTurn => 0
            case CallTurn => 0
            case _ => EmptyInARow(turns, k)
  {
  }

  lemma AllNext(turns: nat -> Turn, k: nat)
    ensures forall kind: Kind :: HowMany(turns, k + 1, kind) ==
              HowMany(turns, k, kind) + if KindOf(turns(k).outcome) == kind then 1 else 0
    ensures EmptyInARow(turns, k + 1) ==
            match KindOf(turns(k).outcome)
            case EmptyTurn => EmptyInARow(turns, k) + 1
            case TextTurn => 0
            case CallTurn => 0
            case _ => EmptyInARow(turns, k)
  {
    hide HowMany, EmptyInARow, KindOf;
    forall kind: Kind
      ensures HowMany(turns, k + 1, kind) ==
              HowMany(turns, k, kind) + if KindOf(turns(k).outcome) == kind then 1 else 0
    {
      Next(turns, k, kind);
    }
    Next(turns, k, CallTurn);
  }

  /** What a pass makes of a turn that does not end the loop, and of one that does. */
  ghost predicate TurnFits(maxIterations: nat, canRunTools: bool, turns: nat -> Turn, k: nat, d: Control) {
    if GoesOn(maxIterations, canRunTools, turns, k) then Matches(d, turns, k + 1)
    else
      && ExitFits(maxIterations, canRunTools, turns, k, d.exit)
      && d.requests == k + (if turns(k).abortedBefore then 0 else 1)
      && d.rounds == HowMany(turns, k, CallTurn) + if RunsTools(canRunTools, turns, k) then 1 else 0
  }

  lemma ErrorFits(maxIterations: nat, canRunTools: bool, c: Control, turns: nat -> Turn, k: nat)
    requires Matches(c, turns, k) && InBudget(c) && c.iteration < maxIterations && !turns(k).outcome.Answered?
    ensures TurnFits(maxIterations, canRunTools, turns, k, Pass(maxIterations, canRunTools, c, turns(k)))
  {
    hide HowMany, EmptyInARow;
    AllNext(turns, k);
  }

  lemma EmptyFits(maxIterations: nat, canRunTools: bool, c: Control, turns: nat -> Turn, k: nat)
    requires Matches(c, turns, k) && InBudget(c) && c.iteration < maxIterations
    requires KindOf(turns(k).outcome) == EmptyTurn
    ensures TurnFits(maxIterations, canRunTools, turns, k, Pass(maxIterations, canRunTools, c, turns(k)))
  {
    hide HowMany, EmptyInARow;
    AllNext(turns, k);
  }

  lemma ReplyFits(maxIterations: nat, canRunTools: bool, c: Control, turns: nat -> Turn, k: nat)
    requires Matches(c, turns, k) && InBudget(c) && c.iteration < maxIterations
    requires KindOf(turns(k).outcome) in {TextTurn, CallTurn}
    ensures TurnFits(maxIterations, canRunTools, turns, k, Pass(maxIterations, canRunTools, c, turns(k)))
  {
    hide HowMany, EmptyInARow;
    AllNext(turns, k);
  }

  lemma TurnCounts(maxIterations: nat, canRunTools: bool, c: Control, turns: nat -> Turn, k: nat)
    requires Matches(c, turns, k) && InBudget(c) && c.iteration < maxIterations
    ensures TurnFits(maxIterations, canRunTools, turns, k, Pass(maxIterations, canRunTools, c, turns(k)))
  {
    hide Pass, Matches, TurnFits;
    if !turns(k).outcome.Answered? {
      ErrorFits(maxIterations, canRunTools, c, turns, k);
    } else if KindOf(turns(k).outcome) == EmptyTurn {
      EmptyFits(maxIterations, canRunTools, c, turns, k);
    } else {
      ReplyFits(maxIterations, canRunTools, c, turns, k);
    }
  }

  /** What a pass counts besides. */
  lemma PassSteps(maxIterations: nat, canRunTools: bool, c: Control, turns: nat -> Turn, k: nat)
    requires InBudget(c) && c.exit.Running? && c.iteration < maxIterations
    ensures var d := Pass(maxIterations, canRunTools, c, turns(k));
            && c.rounds <= d.rounds <= c.rounds + 1
            && d.overflows ==
               c.overflows + (if !turns(k).abortedBefore && KindOf(turns(k).outcome) == OverflowTurn then 1 else 0)
            && (d.overflows > c.overflows ==> (d.exit.Running? <==> c.overflows == 0) && d.rounds == c.rounds)
  {
  }

  lemma RunNext(maxIterations: nat, canRunTools: bool, c: Control, turns: nat -> Turn, k: nat)
    requires InBudget(c) && c.exit.Running? && c.iteration < maxIterations
    ensures var d := Pass(maxIterations, canRunTools, c, turns(k));
            && (d.exit.Running? ==> InBudget(d) && d.iteration <= maxIterations)
            && RunFrom(maxIterations, canRunTools, c, turns, k) ==
               if d.exit.Running? then RunFrom(maxIterations, canRunTools, d, turns, k + 1) else d
  {
    hide Pass;
    PassProgresses(maxIterations, canRunTools, c, turns(k));
  }

  /** A turn that goes on leaves a loop that can go on, with less left to do. */
  lemma TurnAdvances(maxIterations: nat, canRunTools: bool, c: Control, turns: nat -> Turn, k: nat)
    requires Matches(c, turns, k) && InBudget(c) && c.iteration < maxIterations
    ensures var d := Pass(maxIterations, canRunTools, c, turns(k));
            d.exit.Running? ==>
              && Matches(d, turns, k + 1) && InBudget(d) && d.iteration <= maxIterations
              && (|| d.iteration > c.iteration
                  || (d.iteration == c.iteration && Retries(d) < Retries(c))
                  || (d.iteration == c.iteration && Retries(d) == Retries(c) && StreakLeft(d) < StreakLeft(c)))
  {
    hide Pass, GoesOn, Throws, EndsWithReply;
    PassProgresses(maxIterations, canRunTools, c, turns(k));
    TurnCounts(maxIterations, canRunTools, c, turns, k);
  }

  lemma {:induction false} EndsFrom(maxIterations: nat, canRunTools: bool, c: Control, turns: nat -> Turn, k: nat)
    returns (n: nat)
    requires Matches(c, turns, k) && InBudget(c) && c.iteration <= maxIterations
    requires ReachesTurn(maxIterations, canRunTools, turns, k)
    ensures ReachesTurn(maxIterations, canRunTools, turns, n) && Spent(turns, n) <= maxIterations
    ensures var d := RunFrom(maxIterations, canRunTools, c, turns, k);
            if Spent(turns, n) == maxIterations then d.exit == Stopped && d.requests == n
            else !GoesOn(maxIterations, canRunTools, turns, n) && EndsAt(maxIterations, canRunTools, turns, n, d)
    decreases maxIterations - c.iteration, Retries(c), StreakLeft(c)
  {
    hide Pass, GoesOn, EndsAt, ExitFits, Spent, HowMany, EmptyInARow;
    n := k;
    if c.iteration < maxIterations {
      PassProgresses(maxIterations, canRunTools, c, turns(k));
      TurnCounts(maxIterations, canRunTools, c, turns, k);
      var d := Pass(maxIterations, canRunTools, c, turns(k));
      if GoesOn(maxIterations, canRunTools, turns, k) {
        n := EndsFrom(maxIterations, canRunTools, d, turns, k + 1);
      } else {
        FittingExit(maxIterations, canRunTools, turns, k, d);
      }
    }
  }

  lemma NoTurnYet(turns: nat -> Turn, k: nat)
    requires k == 0
    ensures Matches(START, turns, k) && InBudget(START)
  {
    hide HowMany, EmptyInARow, Matches, Spent;
    NothingCounted(turns, k);
    assert InBudget(START);
    StartMatches(START, turns, k);
  }

  lemma StartMatches(c: Control, turns: nat -> Turn, k: nat)
    requires c == Control(0, 0, 0, 0, 0, 0, 0, false, 0, 0, Running) && k == 0
    requires EmptyInARow(turns, k) == 0 && HowMany(turns, k, CallTurn) == 0 && HowMany(turns, k, OverflowTurn) == 0
    requires HowMany(turns, k, RateTurn) == 0 && HowMany(turns, k, ServerTurn) == 0 && HowMany(turns, k, NetworkTurn) == 0
    ensures Matches(c, turns, k)
  {
    hide HowMany, EmptyInARow;
  }

  lemma NothingCounted(turns: nat -> Turn, k: nat)
    requires k == 0
    ensures EmptyInARow(turns, k) == 0 && forall kind: Kind :: HowMany(turns, k, kind) == 0
  {
    hide KindOf;
  }

  /** Every loop reaches its turns one by one until the iterations are spent, then it is stopped, or a turn does not go on,
      then it ends with that turn's reply, with that turn's failure, or stopped. */
  lemma LoopEnds(maxIterations: nat, canRunTools: bool, turns: nat -> Turn) returns (n: nat)
    ensures ReachesTurn(maxIterations, canRunTools, turns, n) && Spent(turns, n) <= maxIterations
    ensures var d := RunLoop(maxIterations, canRunTools, turns);
            if Spent(turns, n) == maxIterations then d.exit == Stopped && d.requests == n
            else !GoesOn(maxIterations, canRunTools, turns, n) && EndsAt(maxIterations, canRunTools, turns, n, d)
  {
    hide RunFrom, GoesOn, EndsAt, Spent, Matches;
    var k: nat := 0;
    NoTurnYet(turns, k);
    n := EndsFrom(maxIterations, canRunTools, START, turns, k);
  }
}
