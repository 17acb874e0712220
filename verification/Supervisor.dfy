/**
 The process supervisor: one child restarted after every exit, with exponential backoff, until it is stopped or gives up.
 Exits, timers, probes and stop() interleave freely; restarts may overlap, because a child can crash while an earlier
 restart still probes it.
 */
module Supervisor {
  import opened Common

  const INITIAL_BACKOFF_MS := 1000
  const MAX_RESTART_FAILURES := 5

  /** The fields of the supervisor, and what it has set going: children not yet exited, restart timers and probes. */
  datatype State = State(
    child: Option<nat>,
    stopped: bool,
    failures: nat,
    backoffMs: nat,
    alive: set<nat>,
    timers: nat,
    probes: nat,
    starting: bool,
    spawned: nat,
    spawnFailed: bool)

  /** Environment events; a spawn may fail, in which case no exit is ever reported for it. */
  datatype Event = Exit(pid: nat) | Fire(spawns: bool) | Healthy | Unhealthy | StartHealthy | StartUnhealthy | Stop

  function Spawn(s: State, spawns: bool): State {
    if spawns then s.(child := Some(s.spawned), alive := s.alive + {s.spawned}, spawned := s.spawned + 1)
    else s.(child := None, spawned := s.spawned + 1, spawnFailed := true)
  }

  /** The signal is sent; the exit comes later, as an event. */
  function Kill(s: State): State { s.(child := None) }

  function OnExit(s: State, pid: nat): State {
    var s := s.(alive := s.alive - {pid});
    if s.stopped then s else s.(timers := s.timers + 1)
  }

  function OnFire(s: State, spawns: bool): State
    requires s.timers > 0
  {
    var s := s.(timers := s.timers - 1);
    if s.stopped then s else Spawn(s, spawns).(probes := s.probes + 1)
  }

  function Recovered(s: State): State { s.(failures := 0, backoffMs := INITIAL_BACKOFF_MS) }

  function Failed(s: State, cap: nat): State {
    var s := s.(failures := s.failures + 1, backoffMs := Min(2 * s.backoffMs, cap));
    Kill(if s.failures >= MAX_RESTART_FAILURES then s.(stopped := true) else s)
  }

  function Step(s: State, e: Event, cap: nat): State {
    match e
    case Exit(pid) => if pid in s.alive then OnExit(s, pid) else s
    case Fire(spawns) => if s.timers > 0 then OnFire(s, spawns) else s
    case Healthy => if s.probes > 0 then Recovered(s.(probes := s.probes - 1)) else s
    case Unhealthy => if s.probes > 0 then Failed(s.(probes := s.probes - 1), cap) else s
    case StartHealthy => s.(starting := false)
    case StartUnhealthy => if s.starting then Kill(s.(starting := false, stopped := true)) else s
    case Stop => if s.stopped then s else Kill(s.(stopped := true))
  }

  /** After start() has spawned its child. */
  function Started(spawns: bool): State {
    Spawn(State(None, false, 0, INITIAL_BACKOFF_MS, {}, 0, 0, true, 0, false), spawns)
  }

  function Run(spawns: bool, events: seq<Event>, cap: nat): State {
    if events == [] then Started(spawns)
    else Step(Run(spawns, events[..|events| - 1], cap), events[|events| - 1], cap)
  }

  // ---------------------------------------------------------------- one token

  function Doubled(n: nat): (p: nat)
    ensures p >= 1
  {
    if n == 0 then 1 else 2 * Doubled(n - 1)
  }

  /** Children and timers together; the token is lost only with a child that could not be spawned. */
  predicate OneToken(s: State) {
    && |s.alive| + s.timers <= (if s.spawnFailed then 0 else 1)
    && (!s.stopped ==> |s.alive| + s.timers == if s.spawnFailed then 0 else 1)
    && (forall pid :: pid in s.alive ==> pid < s.spawned)
  }

  predicate BackoffOk(s: State, cap: nat) {
    s.backoffMs == Min(INITIAL_BACKOFF_MS * Doubled(s.failures), cap)
  }

  lemma StepKeepsToken(s: State, e: Event, cap: nat)
    requires OneToken(s)
    ensures OneToken(Step(s, e, cap))
  {
    match e {
      case Exit(pid) =>
        if pid in s.alive {
          assert |s.alive - {pid}| == |s.alive| - 1;
        }
      case Fire(spawns) =>
        if s.timers > 0 {
          assert s.alive == {};
          assert |{s.spawned}| == 1 && {} + {s.spawned} == {s.spawned};
        }
      case _ =>
    }
  }

  lemma StepKeepsBackoff(s: State, e: Event, cap: nat)
    requires BackoffOk(s, cap) && cap >= INITIAL_BACKOFF_MS
    ensures BackoffOk(Step(s, e, cap), cap)
  {
    assert Doubled(0) == 1;
  }

  /** Over every interleaving after one start(): never more than one child or restart timer; until the supervisor stops,
      exactly one, unless a spawn has failed; and the backoff doubles with each failure up to the cap. */
  lemma {:induction false} OneChildAtATime(spawns: bool, events: seq<Event>, cap: nat)
    requires cap >= INITIAL_BACKOFF_MS
    ensures OneToken(Run(spawns, events, cap)) && BackoffOk(Run(spawns, events, cap), cap)
  {
    hide Step, OneToken, BackoffOk;
    if events == [] {
      StartedOk(spawns, cap);
    } else {
      OneChildAtATime(spawns, events[..|events| - 1], cap);
      StepKeepsToken(Run(spawns, events[..|events| - 1], cap), events[|events| - 1], cap);
      StepKeepsBackoff(Run(spawns, events[..|events| - 1], cap), events[|events| - 1], cap);
    }
  }

  lemma StartedOk(spawns: bool, cap: nat)
    requires cap >= INITIAL_BACKOFF_MS
    ensures OneToken(Started(spawns)) && BackoffOk(Started(spawns), cap)
  {
    assert Doubled(0) == 1;
    assert {} + {0} == {0};
  }

  /** After stop(), or after giving up, no child is ever spawned again. */
  lemma {:induction false} StoppedSpawnsNothing(spawns: bool, events: seq<Event>, more: seq<Event>, cap: nat)
    requires Run(spawns, events, cap).stopped
    ensures Run(spawns, events + more, cap).stopped
    ensures Run(spawns, events + more, cap).spawned == Run(spawns, events, cap).spawned
    decreases |more|
  {
    if more == [] {
      assert events + more == events;
    } else {
      StoppedSpawnsNothing(spawns, events, more[..|more| - 1], cap);
      assert (events + more)[..|events + more| - 1] == events + more[..|more| - 1];
    }
  }

  // ---------------------------------------------------------------- the state, from what has happened

  /** What can happen to what is running. */
  predicate Happens(s: State, e: Event) {
    match e
    case Exit(pid) => pid in s.alive
    case Fire(_) => s.timers > 0
    case Healthy => s.probes > 0
    case Unhealthy => s.probes > 0
    case StartHealthy => s.starting
    case StartUnhealthy => s.starting
    case Stop => true
  }

  predicate AllHappen(spawns: bool, events: seq<Event>, cap: nat) {
    events != [] ==>
      AllHappen(spawns, events[..|events| - 1], cap)
      && Happens(Run(spawns, events[..|events| - 1], cap), events[|events| - 1])
  }

  /** Probes that failed since one succeeded. */
  function InARow(events: seq<Event>): nat {
    if events == [] then 0 else
    match events[|events| - 1]
    case Healthy => 0
    case Unhealthy => 1 + InARow(events[..|events| - 1])
    case _ => InARow(events[..|events| - 1])
  }

  /** stop() was called, the first child never got healthy, or five probes in a row have failed. */
  predicate HasEnded(events: seq<Event>) {
    events != []
    && (HasEnded(events[..|events| - 1]) || events[|events| - 1] in {Stop, StartUnhealthy} || InARow(events) >= 5)
  }

  /** Exits, and timers, before the end. */
  function ExitsBeforeEnd(events: seq<Event>): nat {
    if events == [] then 0 else
    ExitsBeforeEnd(events[..|events| - 1])
    + if events[|events| - 1].Exit? && !HasEnded(events[..|events| - 1]) then 1 else 0
  }

  function Restarts(events: seq<Event>): nat {
    if events == [] then 0 else
    Restarts(events[..|events| - 1])
    + if events[|events| - 1].Fire? && !HasEnded(events[..|events| - 1]) then 1 else 0
  }

  function Fires(events: seq<Event>): nat {
    if events == [] then 0 else Fires(events[..|events| - 1]) + if events[|events| - 1].Fire? then 1 else 0
  }

  function Answers(events: seq<Event>): nat {
    if events == [] then 0 else
    Answers(events[..|events| - 1]) + if events[|events| - 1] in {Healthy, Unhealthy} then 1 else 0
  }

  /** Child 0 is the one start() spawned, child k the one the k-th restart did. */
  predicate WasSpawned(spawns: bool, events: seq<Event>, pid: nat) {
    if events == [] then spawns && pid == 0 else
    || WasSpawned(spawns, events[..|events| - 1], pid)
    || (events[|events| - 1] == Fire(true) && !HasEnded(events[..|events| - 1])
        && pid == 1 + Restarts(events[..|events| - 1]))
  }

  /** The child the object holds: the last one spawned, unless it was sent a signal since. */
  function Held(spawns: bool, events: seq<Event>): Option<nat> {
    if events == [] then if spawns then Some(0) else None else
    var before := events[..|events| - 1];
    match events[|events| - 1]
    case Fire(ok) =>
      if HasEnded(before) then Held(spawns, before) else if ok then Some(1 + Restarts(before)) else None
    case Exit(_) => Held(spawns, before)
    case Healthy => Held(spawns, before)
    case StartHealthy => Held(spawns, before)
    case _ => None
  }

  ghost predicate DecidedBy(s: State, spawns: bool, events: seq<Event>, cap: nat) {
    && s.failures == InARow(events)
    && s.backoffMs == Min(1000 * Doubled(InARow(events)), cap)
    && (s.stopped <==> HasEnded(events))
    && NumbersAre(s, events)
    && s.child == Held(spawns, events) && (s.stopped ==> s.child == None)
    && LivingAre(s, spawns, events)
  }

  predicate NumbersAre(s: State, events: seq<Event>) {
    && s.timers == ExitsBeforeEnd(events) - Fires(events)
    && s.spawned == 1 + Restarts(events)
    && s.probes == Restarts(events) - Answers(events)
    && (s.starting <==> StartHealthy !in events && StartUnhealthy !in events)
  }

  /** Only spawned children exit, and those that have not are alive. */
  ghost predicate LivingAre(s: State, spawns: bool, events: seq<Event>) {
    && (forall pid :: Exit(pid) in events ==> WasSpawned(spawns, events, pid))
    && (forall pid :: pid in s.alive <==> WasSpawned(spawns, events, pid) && Exit(pid) !in events)
  }

  /** Every field is what the history says: when the supervisor has ended, how long it waits, how many timers, probes and
      children there are, and which child it holds. */
  lemma {:induction false} HistoryDecides(spawns: bool, events: seq<Event>, cap: nat)
    requires cap >= 1000 && AllHappen(spawns, events, cap)
    ensures DecidedBy(Run(spawns, events, cap), spawns, events, cap)
    decreases |events|
  {
    if events != [] {
      var before, e := events[..|events| - 1], events[|events| - 1];
      assert events == before + [e];
      HistoryDecides(spawns, before, cap);
      StepDecided(spawns, before, e, cap);
    }
  }

  lemma StepDecided(spawns: bool, before: seq<Event>, e: Event, cap: nat)
    requires cap >= 1000 && Happens(Run(spawns, before, cap), e)
    requires DecidedBy(Run(spawns, before, cap), spawns, before, cap)
    ensures DecidedBy(Run(spawns, before + [e], cap), spawns, before + [e], cap)
  {
    hide LivingAre, NumbersAre, Happens, InARow, HasEnded, Held, Run, Doubled;
    NumbersRead(Run(spawns, before, cap), before);
    LivingDecided(spawns, before, e, cap);
    FailuresDecided(spawns, before, e, cap);
    NumbersDecided(spawns, before, e, cap);
    ChildDecided(spawns, before, e, cap);
  }

  lemma NumbersRead(s: State, events: seq<Event>)
    requires NumbersAre(s, events)
    ensures s.spawned == 1 + Restarts(events)
  {
  }

  lemma LivingDecided(spawns: bool, before: seq<Event>, e: Event, cap: nat)
    requires Happens(Run(spawns, before, cap), e) && LivingAre(Run(spawns, before, cap), spawns, before)
    requires Run(spawns, before, cap).spawned == 1 + Restarts(before)
    requires Run(spawns, before, cap).stopped == HasEnded(before)
    ensures LivingAre(Run(spawns, before + [e], cap), spawns, before + [e])
  {
    hide HasEnded, Restarts, Run, Doubled, InARow;
    OneMore(spawns, before, e, cap);
    SpawnedAreNumbered(spawns, before);
    var s := Run(spawns, before, cap);
    assert Step(s, e, cap).alive ==
           if e.Exit? then s.alive - {e.pid} else if e == Fire(true) && !s.stopped then s.alive + {s.spawned} else s.alive;
  }

  lemma OneMore(spawns: bool, before: seq<Event>, e: Event, cap: nat)
    ensures Run(spawns, before + [e], cap) == Step(Run(spawns, before, cap), e, cap)
    ensures (before + [e])[..|before + [e]| - 1] == before
  {
    assert (before + [e])[..|before + [e]| - 1] == before;
  }

  lemma {:induction false} SpawnedAreNumbered(spawns: bool, events: seq<Event>)
    ensures forall pid: nat :: WasSpawned(spawns, events, pid) ==> pid <= Restarts(events)
  {
    hide HasEnded;
    if events != [] {
      SpawnedAreNumbered(spawns, events[..|events| - 1]);
    }
  }

  lemma FailuresDecided(spawns: bool, before: seq<Event>, e: Event, cap: nat)
    requires cap >= 1000 && Happens(Run(spawns, before, cap), e)
    requires var s := Run(spawns, before, cap);
             && s.failures == InARow(before) && s.backoffMs == Min(1000 * Doubled(InARow(before)), cap)
             && s.stopped == HasEnded(before)
    ensures var s, events := Run(spawns, before + [e], cap), before + [e];
            && s.failures == InARow(events) && s.backoffMs == Min(1000 * Doubled(InARow(events)), cap)
            && s.stopped == HasEnded(events)
  {
    assert (before + [e])[..|before + [e]| - 1] == before;
  }

  lemma NumbersDecided(spawns: bool, before: seq<Event>, e: Event, cap: nat)
    requires Happens(Run(spawns, before, cap), e) && NumbersAre(Run(spawns, before, cap), before)
    requires Run(spawns, before, cap).stopped == HasEnded(before)
    ensures NumbersAre(Run(spawns, before + [e], cap), before + [e])
  {
    assert (before + [e])[..|before + [e]| - 1] == before;
    hide HasEnded;
  }

  lemma ChildDecided(spawns: bool, before: seq<Event>, e: Event, cap: nat)
    requires Happens(Run(spawns, before, cap), e)
    requires var s := Run(spawns, before, cap);
             s.stopped == HasEnded(before) && s.spawned == 1 + Restarts(before)
             && s.child == Held(spawns, before) && (s.stopped ==> s.child == None)
    ensures var s := Run(spawns, before + [e], cap);
            s.child == Held(spawns, before + [e]) && (s.stopped ==> s.child == None)
  {
    assert (before + [e])[..|before + [e]| - 1] == before;
    hide HasEnded, Restarts;
  }

  // ---------------------------------------------------------------- the object

  class GocoonSupervisor {
    const backoffCapMs: nat
    var child: Option<nat>
    var stopped: bool
    var failures: nat
    var backoffMs: nat
    /** What runs outside the object. */
    var alive: set<nat>
    var timers: nat
    var probes: nat
    var starting: bool
    var spawned: nat
    var spawnFailed: bool

    function View(): State
      reads this
    {
      State(child, stopped, failures, backoffMs, alive, timers, probes, starting, spawned, spawnFailed)
    }

    /** A supervisor whose start() has spawned its child. */
    constructor (backoffCapMs: nat, spawns: bool)
      ensures View() == Started(spawns) && this.backoffCapMs == backoffCapMs
    {
      this.backoffCapMs := backoffCapMs;
      stopped, failures, backoffMs := false, 0, INITIAL_BACKOFF_MS;
      timers, probes, starting := 0, 0, true;
      child, alive, spawned, spawnFailed := None, {}, 0, false;
      new;
      SpawnChild(spawns);
    }

    method SpawnChild(spawns: bool)
      modifies this
      ensures View() == Spawn(old(View()), spawns)
    {
      if spawns {
        child, alive := Some(spawned), alive + {spawned};
      } else {
        child, spawnFailed := None, true;
      }
      spawned := spawned + 1;
    }

    method OnChildExit(pid: nat)
      modifies this
      ensures View() == Step(old(View()), Exit(pid), backoffCapMs)
    {
      if pid !in alive { return; }
      alive := alive - {pid};
      if stopped { return; }
      timers := timers + 1;
    }

    /** A restart timer fires; the probe of the new child answers later. */
    method Restart(spawns: bool)
      modifies this
      ensures View() == Step(old(View()), Fire(spawns), backoffCapMs)
    {
      if timers == 0 { return; }
      timers := timers - 1;
      if stopped { return; }
      SpawnChild(spawns);
      probes := probes + 1;
    }

    method RestartProbed(healthy: bool)
      modifies this
      ensures View() == Step(old(View()), if healthy then Healthy else Unhealthy, backoffCapMs)
    {
      if probes == 0 { return; }
      probes := probes - 1;
      if healthy {
        failures, backoffMs := 0, INITIAL_BACKOFF_MS;
        return;
      }
      failures := failures + 1;
      backoffMs := Min(backoffMs * 2, backoffCapMs);
      if failures >= MAX_RESTART_FAILURES { stopped := true; }
      child := None;
    }

    method StartProbed(healthy: bool)
      modifies this
      ensures View() == Step(old(View()), if healthy then StartHealthy else StartUnhealthy, backoffCapMs)
    {
      if !starting { return; }
      starting := false;
      if !healthy {
        stopped := true;
        child := None;
      }
    }

    method StopSupervisor()
      modifies this
      ensures View() == Step(old(View()), Stop, backoffCapMs)
    {
      if stopped { return; }
      stopped := true;
      child := None;
    }
  }
}
