/**
 The hourly tool limit across pauses and resumes. Because every change of the engine is written through and a resumed
 loop rehydrates the snapshot, every stored and loaded list decides like all the tool calls its task ever made, and no
 hour holds more of them than the limit. Two kinds of step undo that, and only these: pausing a finished task whose
 snapshot is gone, and a stopped loop that saves its old list after a later loop has made a call.
 */
module AutonomousRates {
  import opened Common
  import opened PolicyEngine
  import opened PolicyWindows
  import opened AutonomousLoop
  import opened AutonomousWorld
  import opened AutonomousInvariant

  /** What is left of the list within the hour decides like the calls it stands for, and the calls respect the limit in
      every hour. */
  ghost predicate Good(cfg: PolicyConfig, list: seq<int>, calls: seq<int>, clock: int) {
    && Refines(Within(list, clock, HOUR), calls, cfg.toolCallsPerHour, HOUR, clock)
    && Spaced(calls, cfg.toolCallsPerHour, HOUR)
  }

  /** A relation between a list of timestamps and the calls it stands for. */
  type Standing = (seq<int>, seq<int>) -> bool

  ghost function GoodAt(cfg: PolicyConfig, clock: int): Standing { (list, calls) => Good(cfg, list, calls, clock) }

  /** Statuses in which a loop may have dropped the snapshot. */
  predicate IsFinished(s: Status) { s in {Completed, Failed, Cancelled} }

  /** What the store keeps of a task: a snapshot stands for all its calls; without one, an engine that starts afresh
      does, unless the task is finished. */
  ghost predicate Kept(snapshot: Option<EngineState>, status: Status, calls: seq<int>, ok: Standing) {
    && ok(calls, calls)
    && (snapshot.Some? ==> ok(snapshot.value.toolCalls, calls))
    && (snapshot.None? && !IsFinished(status) ==> ok([], calls))
  }

  /** Store and engine both stand for the calls of the task. */
  ghost predicate ViewOk(v: View, ok: Standing) {
    Kept(v.snapshot, v.row.status, v.calls, ok) && (!v.loop.pc.Returned? ==> ok(v.loop.engine.toolCalls, v.calls))
  }

  /** The clock readings of an outcome are in order and none precedes `clock`. */
  predicate Timely(o: Outcome, clock: int) {
    match o
    case PlanResolved(_, checkedAt, recordedAt) => clock <= checkedAt <= recordedAt
    case ToolResolved(_, at) => clock <= at
    case ToolRejected(at) => clock <= at
    case EvaluationResolved(_, at) => clock <= at
    case _ => true
  }

  function After(o: Outcome, clock: int): int {
    match o
    case PlanResolved(_, _, recordedAt) => recordedAt
    case ToolResolved(_, at) => at
    case ToolRejected(at) => at
    case EvaluationResolved(_, at) => at
    case _ => clock
  }

  lemma {:induction false} WithinTwice(ts: seq<int>, now: int, later: int, window: int)
    requires now <= later
    ensures Within(Within(ts, now, window), later, window) == Within(ts, later, window)
  {
    if ts != [] {
      WithinTwice(ts[1..], now, later, window);
      var kept := Within(ts[1..], now, window);
      if now - ts[0] < window {
        assert ([ts[0]] + kept)[1..] == kept;
      } else {
        assert [] + kept == kept;
      }
    }
  }

  lemma GoodLater(cfg: PolicyConfig, list: seq<int>, calls: seq<int>, clock: int, later: int)
    requires Good(cfg, list, calls, clock) && clock <= later
    ensures Good(cfg, list, calls, later)
  {
    WithinTwice(list, clock, later, HOUR);
    CheckKeepsRefinement(Within(list, clock, HOUR), calls, cfg.toolCallsPerHour, HOUR, clock, later);
  }

  /** The whole history stands for itself. */
  lemma GoodItself(cfg: PolicyConfig, list: seq<int>, calls: seq<int>, clock: int)
    requires Good(cfg, list, calls, clock)
    ensures Good(cfg, calls, calls, clock)
  {
    assert calls == calls[0..];
    CheckKeepsRefinement(calls, calls, cfg.toolCallsPerHour, HOUR, clock, clock);
  }

  lemma GoodFresh(cfg: PolicyConfig, clock: int)
    ensures Good(cfg, [], [], clock)
  {
  }

  /** Pruning at a check keeps a list good. */
  lemma GoodPruned(cfg: PolicyConfig, list: seq<int>, calls: seq<int>, clock: int, now: int)
    requires Good(cfg, list, calls, clock) && clock <= now
    ensures Good(cfg, Within(list, now, HOUR), calls, now)
  {
    GoodLater(cfg, list, calls, clock, now);
    WithinTwice(list, now, now, HOUR);
  }

  /** A call recorded after a check that found room keeps a list good. */
  lemma GoodRecorded(cfg: PolicyConfig, list: seq<int>, calls: seq<int>, clock: int, checkedAt: int, recordedAt: int)
    requires Good(cfg, list, calls, clock) && clock <= checkedAt <= recordedAt
    requires |Within(list, checkedAt, HOUR)| < cfg.toolCallsPerHour
    ensures Good(cfg, PushPruned(Within(list, checkedAt, HOUR), recordedAt, HOUR, cfg.toolCallsPerHour),
                 calls + [recordedAt], recordedAt)
  {
    GoodLater(cfg, list, calls, clock, checkedAt);
    var kept, limit := Within(list, checkedAt, HOUR), cfg.toolCallsPerHour;
    WithinTwice(list, checkedAt, checkedAt, HOUR);
    SameDecision(kept, calls, limit, HOUR, checkedAt, checkedAt);
    AdmittedCallKeepsSpacing(calls, limit, HOUR, checkedAt, recordedAt);
    RecordKeepsRefinement(kept, calls, limit, HOUR, checkedAt, recordedAt);
    CheckKeepsRefinement(PushPruned(kept, recordedAt, HOUR, limit), calls + [recordedAt], limit, HOUR, recordedAt,
                         recordedAt);
  }

  // ---------------------------------------------------------------- lists that miss calls

  /** The last of these calls, if any, is an hour old. */
  predicate HourOld(calls: seq<int>, clock: int) { calls == [] || clock - calls[|calls| - 1] >= HOUR }

  /** A list that stands for the first calls stands for all of them exactly if the last of the others, if any, is an hour
      old. */
  lemma StaleStandsExactly(cfg: PolicyConfig, list: seq<int>, first: seq<int>, more: seq<int>, clock: int)
    requires Good(cfg, list, first, clock) && Good(cfg, first + more, first + more, clock)
    ensures Good(cfg, list, first + more, clock) <==> HourOld(more, clock)
  {
    hide Within, Spaced;
    var kept, calls := Within(list, clock, HOUR), first + more;
    AllWithin(list, clock, HOUR);
    assert first <= calls;
    if more == [] {
      assert calls == first;
    } else {
      assert calls[|calls| - 1] == more[|more| - 1];
      KeptStandsExactly(cfg.toolCallsPerHour, kept, first, calls, clock);
    }
  }

  lemma KeptStandsExactly(limit: nat, kept: seq<int>, first: seq<int>, calls: seq<int>, clock: int)
    requires EndOfFirst(kept, first, calls) && |first| < |calls| && (kept == [] || clock - kept[0] < HOUR)
    requires Recorded(calls, clock) && Spaced(calls, limit, HOUR)
    ensures Refines(kept, calls, limit, HOUR, clock) <==> HourOld(calls, clock)
  {
    if HourOld(calls, clock) {
      NothingKept(kept, first, calls, clock);
      assert calls[|calls|..] == [];
    } else {
      MissedCall(limit, kept, first, calls, clock);
    }
  }

  /** The same for a list that misses this many calls. */
  lemma PrefixStandsExactly(cfg: PolicyConfig, list: seq<int>, calls: seq<int>, missed: nat, clock: int)
    requires missed <= |calls| && Good(cfg, list, calls[..|calls| - missed], clock) && Good(cfg, calls, calls, clock)
    ensures Good(cfg, list, calls, clock) <==> missed == 0 || HourOld(calls, clock)
  {
    hide Good;
    var first, more := calls[..|calls| - missed], calls[|calls| - missed..];
    assert calls == first + more;
    StaleStandsExactly(cfg, list, first, more, clock);
  }

  lemma {:induction false} AllWithin(ts: seq<int>, now: int, window: int)
    ensures forall i :: 0 <= i < |Within(ts, now, window)| ==> now - Within(ts, now, window)[i] < window
  {
    if ts != [] {
      AllWithin(ts[1..], now, window);
    }
  }

  /** `kept` ends the calls `first`, with which `calls` begins. */
  ghost predicate EndOfFirst(kept: seq<int>, first: seq<int>, calls: seq<int>) {
    |kept| <= |first| && kept == first[|first| - |kept|..] && first <= calls && Sorted(calls)
  }

  lemma EndOfFirstAt(kept: seq<int>, first: seq<int>, calls: seq<int>, k: nat)
    requires EndOfFirst(kept, first, calls) && kept != [] && |first| - |kept| <= k < |calls|
    ensures kept[0] <= calls[k] && kept[0] == calls[|first| - |kept|]
  {
    assert kept[0] == first[|first| - |kept|] == calls[|first| - |kept|];
  }

  /** If even the last call has expired, so has every earlier one. */
  lemma NothingKept(kept: seq<int>, first: seq<int>, calls: seq<int>, clock: int)
    requires EndOfFirst(kept, first, calls) && calls != [] && clock - calls[|calls| - 1] >= HOUR
    ensures kept == [] || clock - kept[0] >= HOUR
  {
    if kept != [] {
      EndOfFirstAt(kept, first, calls, |calls| - 1);
    }
  }

  /** If nothing kept has expired, no call after it has. */
  lemma StillFresh(kept: seq<int>, first: seq<int>, calls: seq<int>, clock: int, k: nat)
    requires EndOfFirst(kept, first, calls) && (kept == [] || clock - kept[0] < HOUR)
    requires |first| - |kept| <= k < |calls| && clock - calls[|calls| - 1] < HOUR && (kept == [] ==> k == |calls| - 1)
    ensures clock - calls[k] < HOUR
  {
    if kept != [] {
      EndOfFirstAt(kept, first, calls, k);
    }
  }

  /** A call within the hour that the list misses would be one too many. */
  lemma MissedCall(limit: nat, kept: seq<int>, first: seq<int>, calls: seq<int>, clock: int)
    requires EndOfFirst(kept, first, calls) && |first| < |calls| && (kept == [] || clock - kept[0] < HOUR)
    requires Recorded(calls, clock) && clock - calls[|calls| - 1] < HOUR
    ensures !(Refines(kept, calls, limit, HOUR, clock) && Spaced(calls, limit, HOUR))
  {
    StillFresh(kept, first, calls, clock, |calls| - |kept| - 1);
    if |kept| >= limit {
      var k := |calls| - 1 - limit;
      StillFresh(kept, first, calls, clock, k);
      assert calls[k + limit] - calls[k] < HOUR;
    }
  }

  // ---------------------------------------------------------------- segments

  /** Of a live loop, everything but a plan that is acted on leaves the tool timestamps alone, saves them, or drops the
      snapshot of a finished task. */
  lemma OtherSegmentsKeep(cfg: PolicyConfig, v: View, o: Outcome, ok: Standing)
    requires Awaits(v.loop.pc, o) && !o.PlanResolved?
    requires ViewOk(v, ok)
    ensures ViewOk(Segment(cfg, v, o), ok)
  {
  }

  /** Rejections after which a stopped loop still saves its engine. */
  predicate SavesLate(l: Loop, o: Outcome) {
    l.aborted && (o.ToolRejected? || (o.ReflectionRejected? && l.engine.uncertain != 0))
  }

  /** A stopped loop makes no call; what the store keeps goes on standing for the calls unless it saves a list that does
      not. */
  lemma StoppedSegmentKeeps(cfg: PolicyConfig, v: View, o: Outcome, ok: Standing)
    requires Awaits(v.loop.pc, o) && v.loop.aborted && Kept(v.snapshot, v.row.status, v.calls, ok)
    ensures var v' := Segment(cfg, v, o);
            && v'.calls == v.calls && v'.loop.tools == v.loop.tools && v'.loop.aborted
            && v'.loop.engine.toolCalls == v.loop.engine.toolCalls
            && (Kept(v'.snapshot, v'.row.status, v'.calls, ok)
                <==> (SavesLate(v.loop, o) ==> ok(v.loop.engine.toolCalls, v.calls)))
  {
  }

  /** A segment makes the calls it counts. */
  lemma SegmentCounts(cfg: PolicyConfig, v: View, o: Outcome)
    requires Awaits(v.loop.pc, o)
    ensures var v' := Segment(cfg, v, o);
            && v.calls <= v'.calls && |v'.calls| - |v.calls| == v'.loop.tools - v.loop.tools
            && v'.loop.aborted == v.loop.aborted
  {
  }

  lemma PlanKeeps(cfg: PolicyConfig, v: View, a: PolicyAction, checkedAt: int, recordedAt: int, ok: Standing)
    requires v.loop.pc.Planning? && ViewOk(v, ok)
    requires ok(Within(v.loop.engine.toolCalls, checkedAt, HOUR), v.calls)
    requires |Within(v.loop.engine.toolCalls, checkedAt, HOUR)| < cfg.toolCallsPerHour ==>
               ok(v.calls + [recordedAt], v.calls + [recordedAt]) &&
               ok(PushPruned(Within(v.loop.engine.toolCalls, checkedAt, HOUR), recordedAt, HOUR, cfg.toolCallsPerHour),
                  v.calls + [recordedAt])
    ensures ViewOk(AfterPlan(cfg, v, a, checkedAt, recordedAt), ok)
  {
    if AfterPlan(cfg, v, a, checkedAt, recordedAt).loop.pc.ExecutingTool? {
      LetThrough(cfg, v.loop.engine, InputOf(v, a), checkedAt);
    }
  }

  lemma KeptLater(cfg: PolicyConfig, snapshot: Option<EngineState>, status: Status, calls: seq<int>, clock: int,
                  later: int)
    requires Kept(snapshot, status, calls, GoodAt(cfg, clock)) && clock <= later
    ensures Kept(snapshot, status, calls, GoodAt(cfg, later))
  {
    GoodLater(cfg, calls, calls, clock, later);
    if snapshot.Some? {
      GoodLater(cfg, snapshot.value.toolCalls, calls, clock, later);
    } else if !IsFinished(status) {
      GoodLater(cfg, [], calls, clock, later);
    }
  }

  lemma ViewLater(cfg: PolicyConfig, v: View, clock: int, later: int)
    requires ViewOk(v, GoodAt(cfg, clock)) && clock <= later
    ensures ViewOk(v, GoodAt(cfg, later))
  {
    KeptLater(cfg, v.snapshot, v.row.status, v.calls, clock, later);
    if !v.loop.pc.Returned? { GoodLater(cfg, v.loop.engine.toolCalls, v.calls, clock, later); }
  }

  /** Guardrails let a call through only when full history has room for it. */
  lemma SegmentKeepsRates(cfg: PolicyConfig, v: View, o: Outcome, clock: int)
    requires Awaits(v.loop.pc, o) && ViewOk(v, GoodAt(cfg, clock)) && Timely(o, clock) && !v.loop.aborted
    ensures ViewOk(Segment(cfg, v, o), GoodAt(cfg, After(o, clock)))
  {
    var later := After(o, clock);
    ViewLater(cfg, v, clock, later);
    if o.PlanResolved? {
      var list := v.loop.engine.toolCalls;
      GoodPruned(cfg, list, v.calls, clock, o.checkedAt);
      GoodLater(cfg, Within(list, o.checkedAt, HOUR), v.calls, o.checkedAt, later);
      if |Within(list, o.checkedAt, HOUR)| < cfg.toolCallsPerHour {
        GoodRecorded(cfg, list, v.calls, clock, o.checkedAt, o.recordedAt);
        GoodItself(cfg, PushPruned(Within(list, o.checkedAt, HOUR), o.recordedAt, HOUR, cfg.toolCallsPerHour),
                   v.calls + [o.recordedAt], o.recordedAt);
      }
      PlanKeeps(cfg, v, o.action, o.checkedAt, o.recordedAt, GoodAt(cfg, later));
    } else {
      OtherSegmentsKeep(cfg, v, o, GoodAt(cfg, later));
    }
  }

  lemma BeginKeeps(cfg: PolicyConfig, v: View, at: int, ok: Standing)
    requires v.loop == FreshLoop(v.row.step)
    requires Kept(v.snapshot, v.row.status, v.calls, ok) && !IsFinished(v.row.status)
    ensures ViewOk(Begin(cfg, v, at), ok)
  {
  }

  // ---------------------------------------------------------------- the world

  /** No clock reading precedes the last one. */
  predicate InOrder(e: Event, clock: int) {
    match e
    case Start(_, _, at) => clock <= at
    case ResumeTask(_, at) => clock <= at
    case Continue(_, o) => Timely(o, clock)
    case Settle(_, at) => clock <= at
    case _ => true
  }

  function ClockAfter(e: Event, clock: int): int {
    match e
    case Start(_, _, at) => at
    case ResumeTask(_, at) => at
    case Continue(_, o) => After(o, clock)
    case Settle(_, at) => at
    case _ => clock
  }

  function CallsOf(w: World, t: TaskId): seq<int> { if t in w.calls then w.calls[t] else [] }

  /** What the store keeps of t stands for its calls; a task that does not exist counts as pending. */
  ghost predicate TaskKept(w: World, t: TaskId, ok: Standing) {
    Kept(if t in w.snapshots then Some(w.snapshots[t]) else None, StatusOf(w, t), CallsOf(w, t), ok)
  }

  function StatusOf(w: World, t: TaskId): Status { if t in w.tasks then w.tasks[t].status else Pending }

  /** Tool calls made by the loops of t from number k on. */
  function ToolsFrom(w: World, t: TaskId, k: nat): nat
    requires |w.loops| == |w.owner|
    decreases |w.loops| - k
  {
    if k >= |w.loops| then 0
    else (if w.owner[k] == t then w.loops[k].tools else 0) + ToolsFrom(w, t, k + 1)
  }

  /** Tool calls made for the same task by later loops. */
  function CallsSince(w: World, l: LoopId): nat
    requires l < |w.loops| == |w.owner|
  {
    ToolsFrom(w, w.owner[l], l + 1)
  }

  /** An unreturned loop knows the calls made before those of later loops. */
  ghost predicate LoopRates(w: World, l: LoopId, ok: Standing)
    requires l < |w.loops| == |w.owner|
  {
    !w.loops[l].pc.Returned? ==>
      var calls, missed := CallsOf(w, w.owner[l]), CallsSince(w, l);
      missed <= |calls| && ok(w.loops[l].engine.toolCalls, calls[..|calls| - missed])
  }

  /** Only the last loop of a task can be live; everything persisted stands for all calls of its task, everything in
      memory for those its loop can know. */
  ghost predicate Rated(w: World, ok: Standing) {
    && |w.loops| == |w.owner|
    && (forall l, k :: 0 <= l < k < |w.loops| && w.owner[l] == w.owner[k] ==> !IsLive(w.loops[l]))
    && (forall t :: TaskKept(w, t, ok))
    && (forall l :: 0 <= l < |w.loops| ==> LoopRates(w, l, ok))
  }

  lemma {:induction false} SameTools(w: World, w': World, t: TaskId, k: nat)
    requires |w.loops| == |w.owner| && w'.owner == w.owner && |w'.loops| == |w.loops|
    requires forall l :: k <= l < |w.loops| ==> w'.loops[l].tools == w.loops[l].tools
    ensures ToolsFrom(w', t, k) == ToolsFrom(w, t, k)
    decreases |w.loops| - k
  {
    if k < |w.loops| {
      SameTools(w, w', t, k + 1);
    }
  }

  lemma {:induction false} OneLoopCounts(w: World, w': World, t: TaskId, k: nat, l: LoopId)
    requires k <= l < |w.loops| == |w.owner| && w'.owner == w.owner && |w'.loops| == |w.loops|
    requires forall j :: 0 <= j < |w.loops| && j != l ==> w'.loops[j].tools == w.loops[j].tools
    ensures ToolsFrom(w', t, k) ==
            ToolsFrom(w, t, k) + if w.owner[l] == t then w'.loops[l].tools - w.loops[l].tools else 0
    decreases |w.loops| - k
  {
    if k < l {
      OneLoopCounts(w, w', t, k + 1, l);
    } else {
      SameTools(w, w', t, k + 1);
    }
  }

  lemma {:induction false} NewLoopCounts(w: World, w': World, t: TaskId, k: nat)
    requires |w.loops| == |w.owner| && |w'.owner| == |w'.loops| == |w.loops| + 1 && w'.owner[..|w.owner|] == w.owner
    requires w'.loops[..|w.loops|] == w.loops && w'.loops[|w.loops|].tools == 0 && k <= |w.loops|
    ensures ToolsFrom(w', t, k) == ToolsFrom(w, t, k)
    decreases |w.loops| - k
  {
    if k < |w.loops| {
      assert w'.loops[k] == w'.loops[..|w.loops|][k] && w'.owner[k] == w'.owner[..|w.owner|][k];
      NewLoopCounts(w, w', t, k + 1);
    }
  }

  lemma {:induction false} NoLaterLoops(w: World, t: TaskId, k: nat)
    requires |w.loops| == |w.owner| && forall l :: k <= l < |w.loops| ==> w.owner[l] != t
    ensures ToolsFrom(w, t, k) == 0
    decreases |w.loops| - k
  {
    if k < |w.loops| {
      NoLaterLoops(w, t, k + 1);
    }
  }

  lemma RatedLater(cfg: PolicyConfig, w: World, clock: int, later: int)
    requires Rated(w, GoodAt(cfg, clock)) && clock <= later
    ensures Rated(w, GoodAt(cfg, later))
  {
    forall t
      ensures TaskKept(w, t, GoodAt(cfg, later))
    {
      assert TaskKept(w, t, GoodAt(cfg, clock));
      KeptLater(cfg, if t in w.snapshots then Some(w.snapshots[t]) else None, StatusOf(w, t), CallsOf(w, t), clock, later);
    }
    forall l | 0 <= l < |w.loops|
      ensures LoopRates(w, l, GoodAt(cfg, later))
    {
      assert LoopRates(w, l, GoodAt(cfg, clock));
      if !w.loops[l].pc.Returned? {
        var calls := CallsOf(w, w.owner[l]);
        GoodLater(cfg, w.loops[l].engine.toolCalls, calls[..|calls| - CallsSince(w, l)], clock, later);
      }
    }
  }

  /** Nothing about rates changes, and no finished task is anything else afterwards. */
  lemma QuietRates(w: World, w': World, ok: Standing)
    requires Rated(w, ok)
    requires forall t :: IsFinished(StatusOf(w, t)) ==> IsFinished(StatusOf(w', t))
    requires w'.owner == w.owner && |w'.loops| == |w.loops| && w'.calls == w.calls && w'.snapshots == w.snapshots
    requires forall l :: 0 <= l < |w.loops| ==>
                           w'.loops[l] == w.loops[l] || w'.loops[l] == w.loops[l].(aborted := true)
    ensures Rated(w', ok)
  {
    forall t
      ensures TaskKept(w', t, ok)
    {
      assert TaskKept(w, t, ok);
    }
    forall l | 0 <= l < |w'.loops|
      ensures LoopRates(w', l, ok)
    {
      assert LoopRates(w, l, ok);
      SameTools(w, w', w.owner[l], l + 1);
    }
  }

  /** A stopped loop saves its list after a later loop of its task has made a call that is less than an hour old. */
  predicate Overwrites(w: World, e: Event, clock: int) {
    && e.Continue? && e.loop < |w.loops| == |w.owner| && SavesLate(w.loops[e.loop], e.outcome)
    && CallsSince(w, e.loop) > 0
    && !HourOld(CallsOf(w, w.owner[e.loop]), After(e.outcome, clock))
  }

  /** What the store keeps after a segment of t. */
  lemma CommitKeepsTasks(w: World, l: LoopId, t: TaskId, v: View, ok: Standing)
    requires l < |w.loops| && (forall u :: u != t ==> TaskKept(w, u, ok))
    ensures TaskKept(Commit(w, t, l, v), t, ok) <==> Kept(v.snapshot, v.row.status, v.calls, ok)
    ensures forall u :: u != t ==> TaskKept(Commit(w, t, l, v), u, ok)
  {
    hide Kept;
    forall u | u != t
      ensures TaskKept(Commit(w, t, l, v), u, ok)
    {
      assert TaskKept(w, u, ok);
    }
  }

  /** What the loops know after a live loop, the last of its task, has gone on and made the calls it counts. */
  lemma LiveLoopCounted(w: World, w': World, l: LoopId, ok: Standing)
    requires Rated(w, ok) && l < |w.loops| && IsLive(w.loops[l])
    requires w'.owner == w.owner && |w'.loops| == |w.loops| && w'.loops == w.loops[l := w'.loops[l]]
    requires forall u :: u != w.owner[l] ==> CallsOf(w', u) == CallsOf(w, u)
    requires var before, after := CallsOf(w, w.owner[l]), CallsOf(w', w.owner[l]);
      && before <= after && |after| - |before| == w'.loops[l].tools - w.loops[l].tools
      && (!w'.loops[l].pc.Returned? ==> ok(w'.loops[l].engine.toolCalls, after))
    ensures forall k :: 0 <= k < |w'.loops| ==> LoopRates(w', k, ok)
  {
    hide CallsOf, TaskKept;
    var t := w.owner[l];
    var before, after := CallsOf(w, t), CallsOf(w', t);
    assert forall k :: l < k < |w.loops| ==> w.owner[k] != t;
    forall k | 0 <= k < |w'.loops|
      ensures LoopRates(w', k, ok)
    {
      assert LoopRates(w, k, ok);
      if k < l {
        OneLoopCounts(w, w', w.owner[k], k + 1, l);
        var n := |before| - CallsSince(w, k);
        assert w.owner[k] == t && !w.loops[k].pc.Returned? ==> after[..n] == before[..n];
      } else if k == l {
        NoLaterLoops(w', t, l + 1);
        assert after[..|after|] == after;
      } else {
        SameTools(w, w', w.owner[k], k + 1);
      }
    }
  }

  /** Committing a segment of a live loop. */
  lemma CommitRates(w: World, l: LoopId, v: View, ok: Standing)
    requires Rated(w, ok) && l < |w.loops| && IsLive(w.loops[l]) && ViewOk(v, ok)
    requires var calls := CallsOf(w, w.owner[l]);
      calls <= v.calls && |v.calls| - |calls| == v.loop.tools - w.loops[l].tools
    ensures Rated(Commit(w, w.owner[l], l, v), ok)
  {
    CommitKeepsTasks(w, l, w.owner[l], v, ok);
    hide TaskKept, Kept, LoopRates;
    LiveLoopCounted(w, Commit(w, w.owner[l], l, v), l, ok);
  }

  /** Committing a segment of a stopped loop changes no list in memory: all depends on what the store keeps. */
  lemma StoppedCommitRates(w: World, l: LoopId, v: View, ok: Standing)
    requires Rated(w, ok) && l < |w.loops| && w.loops[l].aborted && !w.loops[l].pc.Returned?
    requires v.calls == CallsOf(w, w.owner[l]) && v.loop.tools == w.loops[l].tools && v.loop.aborted
    requires v.loop.engine.toolCalls == w.loops[l].engine.toolCalls
    ensures Rated(Commit(w, w.owner[l], l, v), ok) <==> Kept(v.snapshot, v.row.status, v.calls, ok)
  {
    var t := w.owner[l];
    var w' := Commit(w, t, l, v);
    CommitKeepsTasks(w, l, t, v, ok);
    hide TaskKept, Kept;
    forall k | 0 <= k < |w'.loops|
      ensures LoopRates(w', k, ok)
    {
      assert LoopRates(w, k, ok);
      SameTools(w, w', w.owner[k], k + 1);
    }
  }

  /** A live loop knows all calls of its task. */
  lemma LiveKnowsAll(w: World, l: LoopId, ok: Standing)
    requires l < |w.loops| == |w.owner| && IsLive(w.loops[l]) && Rated(w, ok)
    ensures ok(w.loops[l].engine.toolCalls, CallsOf(w, w.owner[l])) && TaskKept(w, w.owner[l], ok)
  {
    hide CallsOf, TaskKept;
    assert LoopRates(w, l, ok);
    NoLaterLoops(w, w.owner[l], l + 1);
    var calls := CallsOf(w, w.owner[l]);
    assert calls[..|calls|] == calls;
  }

  lemma LiveLoopRates(cfg: ManagerConfig, w: World, l: LoopId, o: Outcome, clock: int)
    requires |w.loops| == |w.owner| && Enabled(w, Continue(l, o)) && Timely(o, clock) && !w.loops[l].aborted
    requires Rated(w, GoodAt(cfg.policy, clock))
    ensures Rated(Step(cfg, w, Continue(l, o)), GoodAt(cfg.policy, After(o, clock)))
  {
    hide Segment, Good, Rated, Kept;
    var v := ViewOf(w, w.owner[l], Counted(w.loops[l]));
    LiveKnowsAll(w, l, GoodAt(cfg.policy, clock));
    SegmentKeepsRates(cfg.policy, v, o, clock);
    SegmentCounts(cfg.policy, v, o);
    RatedLater(cfg.policy, w, clock, After(o, clock));
    CommitRates(w, l, Segment(cfg.policy, v, o), GoodAt(cfg.policy, After(o, clock)));
  }

  lemma KnownCalls(cfg: PolicyConfig, w: World, l: LoopId, clock: int)
    requires l < |w.loops| == |w.owner| && !w.loops[l].pc.Returned?
    requires Rated(w, GoodAt(cfg, clock))
    ensures var calls, missed := CallsOf(w, w.owner[l]), CallsSince(w, l);
            && missed <= |calls| && Good(cfg, calls, calls, clock)
            && Good(cfg, w.loops[l].engine.toolCalls, calls[..|calls| - missed], clock)
            && TaskKept(w, w.owner[l], GoodAt(cfg, clock))
  {
    hide Good, CallsSince, CallsOf;
    assert LoopRates(w, l, GoodAt(cfg, clock));
    assert TaskKept(w, w.owner[l], GoodAt(cfg, clock));
  }

  /** The list of a stopped loop stands for all calls of its task exactly if later loops made none or the last is an hour
      old. */
  lemma StoppedListStands(cfg: PolicyConfig, w: World, l: LoopId, clock: int)
    requires l < |w.loops| == |w.owner| && !w.loops[l].pc.Returned?
    requires Rated(w, GoodAt(cfg, clock))
    ensures var calls := CallsOf(w, w.owner[l]);
            Good(cfg, w.loops[l].engine.toolCalls, calls, clock) <==> CallsSince(w, l) == 0 || HourOld(calls, clock)
  {
    hide *;
    KnownCalls(cfg, w, l, clock);
    PrefixStandsExactly(cfg, w.loops[l].engine.toolCalls, CallsOf(w, w.owner[l]), CallsSince(w, l), clock);
  }

  lemma StoppedLoopRates(cfg: ManagerConfig, w: World, l: LoopId, o: Outcome, clock: int)
    requires |w.loops| == |w.owner| && Enabled(w, Continue(l, o)) && Timely(o, clock) && w.loops[l].aborted
    requires Rated(w, GoodAt(cfg.policy, clock))
    ensures Rated(Step(cfg, w, Continue(l, o)), GoodAt(cfg.policy, After(o, clock)))
            <==> !Overwrites(w, Continue(l, o), clock)
  {
    hide Segment, Good, Rated, Kept, CallsSince, HourOld;
    var later := After(o, clock);
    var ok := GoodAt(cfg.policy, later);
    var v := ViewOf(w, w.owner[l], Counted(w.loops[l]));
    RatedLater(cfg.policy, w, clock, later);
    KnownCalls(cfg.policy, w, l, later);
    StoppedListStands(cfg.policy, w, l, later);
    StoppedSegmentKeeps(cfg.policy, v, o, ok);
    StoppedCommitRates(w, l, Segment(cfg.policy, v, o), ok);
  }

  lemma LaunchRates(cfg: ManagerConfig, w: World, t: TaskId, at: int, ok: Standing)
    requires Rated(w, ok) && t in w.tasks && NoLiveLoop(w, t) && !IsFinished(w.tasks[t].status)
    ensures Rated(RunLoop(cfg, w, t, at), ok)
  {
    var n := |w.loops|;
    var start := w.(loops := w.loops + [FreshLoop(w.tasks[t].step)], owner := w.owner + [t],
                    running := w.running[t := n], completions := w.completions + {n}, launched := w.launched + [t]);
    assert TaskKept(w, t, ok);
    var v := Begin(cfg.policy, ViewOf(start, t, start.loops[n]), at);
    BeginKeeps(cfg.policy, ViewOf(start, t, start.loops[n]), at, ok);
    LaunchedRates(w, start, t, v, ok);
  }

  /** A new loop of a task without live loop, all of whose calls it knows. */
  lemma NewLoopRates(w: World, w': World, t: TaskId, ok: Standing)
    requires Rated(w, ok) && NoLiveLoop(w, t)
    requires |w'.loops| == |w.loops| + 1 && w'.loops[..|w.loops|] == w.loops && w'.owner == w.owner + [t]
    requires forall u :: CallsOf(w', u) == CallsOf(w, u)
    requires w'.loops[|w.loops|].tools == 0
    requires !w'.loops[|w.loops|].pc.Returned? ==> ok(w'.loops[|w.loops|].engine.toolCalls, CallsOf(w, t))
    ensures forall l, k :: 0 <= l < k < |w'.loops| && w'.owner[l] == w'.owner[k] ==> !IsLive(w'.loops[l])
    ensures forall k :: 0 <= k < |w'.loops| ==> LoopRates(w', k, ok)
  {
    hide CallsOf, TaskKept;
    var n := |w.loops|;
    assert forall k :: 0 <= k < n ==> w'.loops[k] == w'.loops[..n][k] == w.loops[k];
    forall k | 0 <= k < |w'.loops|
      ensures LoopRates(w', k, ok)
    {
      if k < n {
        assert LoopRates(w, k, ok);
        NewLoopCounts(w, w', w.owner[k], k + 1);
      } else {
        NoLaterLoops(w', t, n + 1);
        assert CallsOf(w, t)[..|CallsOf(w, t)|] == CallsOf(w, t);
      }
    }
  }

  /** Adding a loop that has already run its first segment. */
  lemma LaunchedRates(w: World, start: World, t: TaskId, v: View, ok: Standing)
    requires Rated(w, ok) && NoLiveLoop(w, t) && ViewOk(v, ok) && v.loop.tools == 0 && v.calls == CallsOf(w, t)
    requires |start.loops| == |w.loops| + 1 && start.loops[..|w.loops|] == w.loops && start.owner == w.owner + [t]
    requires start.calls == w.calls && start.snapshots == w.snapshots && start.tasks == w.tasks
    ensures Rated(Commit(start, t, |w.loops|, v), ok)
  {
    var n := |w.loops|;
    var w' := Commit(start, t, n, v);
    assert w'.loops[..n] == start.loops[..n];
    assert forall u :: CallsOf(w', u) == CallsOf(w, u);
    forall u
      ensures TaskKept(start, u, ok)
    {
      assert TaskKept(w, u, ok);
    }
    CommitKeepsTasks(start, n, t, v, ok);
    hide TaskKept, Kept, LoopRates, NoLiveLoop;
    NewLoopRates(w, w', t, ok);
  }

  lemma StartRates(cfg: ManagerConfig, w: World, t: TaskId, c: Constraints, at: int, ok: Standing)
    requires Scheduled(w) && Rated(w, ok) && t !in w.tasks
    ensures Rated(StartTask(cfg, w, t, c, at), ok)
  {
    var created := w.(tasks := w.tasks[t := Task(Pending, 0, c, None)], admitted := w.admitted + [t]);
    QuietRates(w, created, ok);
    if |w.running| < cfg.maxParallelTasks {
      forall l | 0 <= l < |w.loops|
        ensures w.owner[l] != t
      {
        assert LoopOk(w, l);
      }
      LaunchRates(cfg, created, t, at, ok);
    } else {
      QuietRates(created, SetStatus(created, t, Queued).(queue := w.queue + [t]), ok);
    }
  }

  lemma SettleRates(cfg: ManagerConfig, w: World, l: LoopId, at: int, ok: Standing)
    requires Scheduled(w) && Rated(w, ok) && Enabled(w, Settle(l, at))
    ensures Rated(SettleLoop(cfg, w, l, at), ok)
  {
    QuietRates(w, Deregister(w, l), ok);
    if w.queue != [] {
      var d := Deregister(w, l).(queue := w.queue[1..]);
      QuietRates(w, d, ok);
      DequeueKeeps(w);
      assert WaitingOk(w, w.queue[0]);
      LaunchRates(cfg, d, w.queue[0], at, ok);
    }
  }

  lemma HaltedQuietly(w: World, t: TaskId, ok: Standing)
    requires Rated(w, ok)
    ensures Rated(Halt(w, t), ok) && Halt(w, t).tasks == w.tasks && Halt(w, t).snapshots == w.snapshots
    ensures Halt(w, t).calls == w.calls
  {
    hide RemoveFirst, Rated;
    QuietRates(w, Halt(w, t), ok);
  }

  lemma HaltRates(w: World, t: TaskId, s: Status, ok: Standing)
    requires Rated(w, ok) && (IsFinished(StatusOf(w, t)) ==> IsFinished(s))
    ensures Rated(SetStatus(Halt(w, t), t, s), ok)
  {
    hide Halt, Rated;
    HaltedQuietly(w, t, ok);
    QuietRates(Halt(w, t), SetStatus(Halt(w, t), t, s), ok);
  }

  // ---------------------------------------------------------------- the step that forgets

  /** Pausing a finished task without snapshot makes it resumable with an empty list: its calls are forgotten if the last
      one is less than an hour old. */
  predicate Forgets(w: World, e: Event, clock: int) {
    && e.Pause? && IsFinished(StatusOf(w, e.task)) && e.task !in w.snapshots
    && !HourOld(CallsOf(w, e.task), clock)
  }

  /** When an engine that starts afresh decides like the calls made. */
  lemma FreshStandsExactly(cfg: PolicyConfig, calls: seq<int>, clock: int)
    requires Good(cfg, calls, calls, clock)
    ensures Good(cfg, [], calls, clock) <==> HourOld(calls, clock)
  {
    hide Good;
    assert [] + calls == calls;
    GoodFresh(cfg, clock);
    StaleStandsExactly(cfg, [], [], calls, clock);
  }

  lemma PauseRates(cfg: ManagerConfig, w: World, t: TaskId, clock: int)
    requires Rated(w, GoodAt(cfg.policy, clock))
    ensures Rated(PauseTask(w, t), GoodAt(cfg.policy, clock)) <==> !Forgets(w, Pause(t), clock)
  {
    var ok := GoodAt(cfg.policy, clock);
    assert TaskKept(w, t, ok);
    FreshStandsExactly(cfg.policy, CallsOf(w, t), clock);
    if t in w.tasks && IsFinished(w.tasks[t].status) {
      FinishedPauseRates(w, t, ok);
    } else if t in w.tasks {
      HaltRates(w, t, Paused, ok);
    }
  }

  lemma FinishedPauseRates(w: World, t: TaskId, ok: Standing)
    requires Rated(w, ok) && t in w.tasks && IsFinished(w.tasks[t].status)
    ensures Rated(PauseTask(w, t), ok) <==> t in w.snapshots || ok([], CallsOf(w, t))
  {
    var halted, w' := Halt(w, t), PauseTask(w, t);
    HaltedQuietly(w, t, ok);
    hide RemoveFirst, Halt;
    assert TaskKept(w, t, ok);
    assert TaskKept(w', t, ok) <==> t in w.snapshots || ok([], CallsOf(w, t));
    forall u | u != t
      ensures TaskKept(w', u, ok)
    {
      assert TaskKept(halted, u, ok);
    }
    forall l | 0 <= l < |w'.loops|
      ensures LoopRates(w', l, ok)
    {
      assert LoopRates(halted, l, ok);
      SameTools(halted, w', w'.owner[l], l + 1);
    }
  }

  /** In clock order, a step keeps everything stored and loaded standing for the calls made exactly if it is neither of
      the two. */
  lemma StepRates(cfg: ManagerConfig, w: World, e: Event, clock: int)
    requires Scheduled(w) && Rated(w, GoodAt(cfg.policy, clock)) && Enabled(w, e) && InOrder(e, clock)
    ensures Rated(Step(cfg, w, e), GoodAt(cfg.policy, ClockAfter(e, clock)))
            <==> !Forgets(w, e, clock) && !Overwrites(w, e, clock)
  {
    if e.Continue? {
      if w.loops[e.loop].aborted {
        StoppedLoopRates(cfg, w, e.loop, e.outcome, clock);
      } else {
        LiveLoopRates(cfg, w, e.loop, e.outcome, clock);
      }
    } else if e.Pause? {
      PauseRates(cfg, w, e.task, clock);
    } else {
      RatedLater(cfg.policy, w, clock, ClockAfter(e, clock));
      ManagerRates(cfg, w, e, GoodAt(cfg.policy, ClockAfter(e, clock)));
    }
  }

  lemma ManagerRates(cfg: ManagerConfig, w: World, e: Event, ok: Standing)
    requires Scheduled(w) && Rated(w, ok)
    requires Enabled(w, e) && !e.Continue? && !e.Pause?
    ensures Rated(Step(cfg, w, e), ok)
  {
    match e
    case Start(t, c, at) => StartRates(cfg, w, t, c, at, ok);
    case ResumeTask(t, at) =>
      if t in w.tasks && w.tasks[t].status == Paused {
        PausedTaskIsIdle(w, t);
        LaunchRates(cfg, w, t, at, ok);
      }
    case Stop(t) => HaltRates(w, t, Cancelled, ok);
    case StopAll => QuietRates(w, StopAllTasks(w), ok);
    case Settle(l, at) => SettleRates(cfg, w, l, at, ok);
    case NewDay => QuietRates(w, w.(spent := 0.0), ok);
    case CancelStale(t) => QuietRates(w, SetStatus(w, t, Cancelled), ok);
    case _ =>
  }

  /** The clock readings of a run are in order. */
  predicate AllInOrder(events: seq<Event>, clock: int)
    decreases |events|
  {
    events == [] || (InOrder(events[0], clock) && AllInOrder(events[1..], ClockAfter(events[0], clock)))
  }

  ghost predicate NoneOverwrites(cfg: ManagerConfig, w: World, events: seq<Event>, clock: int)
    decreases |events|
  {
    events == [] ||
    (Enabled(w, events[0]) && !Overwrites(w, events[0], clock) &&
     NoneOverwrites(cfg, Step(cfg, w, events[0]), events[1..], ClockAfter(events[0], clock)))
  }

  ghost predicate NoneForgets(cfg: ManagerConfig, w: World, events: seq<Event>, clock: int)
    decreases |events|
  {
    events == [] ||
    (Enabled(w, events[0]) && !Forgets(w, events[0], clock) &&
     NoneForgets(cfg, Step(cfg, w, events[0]), events[1..], ClockAfter(events[0], clock)))
  }

  function ClockAtEnd(events: seq<Event>, clock: int): int
    decreases |events|
  {
    if events == [] then clock else ClockAtEnd(events[1..], ClockAfter(events[0], clock))
  }

  lemma {:induction false} RunRates(cfg: ManagerConfig, w: World, events: seq<Event>, w': World, clock: int)
    requires Scheduled(w) && Rated(w, GoodAt(cfg.policy, clock))
    requires Reaches(cfg, w, events, w') && AllInOrder(events, clock)
    requires NoneForgets(cfg, w, events, clock) && NoneOverwrites(cfg, w, events, clock)
    ensures Rated(w', GoodAt(cfg.policy, ClockAtEnd(events, clock)))
    decreases |events|
  {
    if events != [] {
      StepRates(cfg, w, events[0], clock);
      StepKeepsSchedule(cfg, w, events[0]);
      RunRates(cfg, Step(cfg, w, events[0]), events[1..], w', ClockAfter(events[0], clock));
    }
  }

  lemma {:induction false} RestoreRates(cfg: ManagerConfig, w: World, active: seq<TaskId>, at: int, ok: Standing)
    requires Rated(w, ok) && Distinct(active)
    requires forall t :: t in active ==> t in w.tasks && t !in w.owner && t !in w.queue
    ensures Rated(Restore(cfg, w, active, at), ok)
    decreases |active|
  {
    if active != [] {
      var t := active[0];
      var w1 := RestoreOne(cfg, w, t, at);
      var a := w.(admitted := w.admitted + [t]);
      QuietRates(w, a, ok);
      if w.tasks[t].status in {Running, Pending, Queued} {
        if |w.running| >= cfg.maxParallelTasks {
          QuietRates(w, w1, ok);
        } else {
          LaunchRates(cfg, a, t, at, ok);
        }
      }
      forall u | u in active[1..]
        ensures u in w1.tasks && u !in w1.owner && u !in w1.queue
      {
        RestoreOneIsLocal(cfg, w, t, at, u);
      }
      RestoreRates(cfg, w1, active[1..], at, ok);
    }
  }

  /** Main theorem: start a process over a store that stands for the calls made so far, restore, and let anything happen,
      in clock order, but the two kinds of step above. Then any window of one hour, wherever it ends, holds at most the
      configured number of all tool calls a task ever made, through any number of pauses and resumes. */
  lemma HourlyLimitSurvivesPauses(
    cfg: ManagerConfig, w: World, active: seq<TaskId>, at: int, events: seq<Event>, w': World, t: TaskId, end: int)
    requires IsInitial(w) && Distinct(active) && forall u :: u in active ==> u in w.tasks
    requires forall u :: TaskKept(w, u, GoodAt(cfg.policy, at))
    requires Reaches(cfg, Restore(cfg, w, active, at), events, w') && AllInOrder(events, at)
    requires var r := Restore(cfg, w, active, at); NoneForgets(cfg, r, events, at) && NoneOverwrites(cfg, r, events, at)
    ensures CallsIn(CallsOf(w', t), end, HOUR) <= cfg.policy.toolCallsPerHour
  {
    RestoreKeeps(cfg, w, active, at);
    RestoreRates(cfg, w, active, at, GoodAt(cfg.policy, at));
    RunRates(cfg, Restore(cfg, w, active, at), events, w', at);
    assert TaskKept(w', t, GoodAt(cfg.policy, ClockAtEnd(events, at)));
    SpacedBoundsEveryWindow(CallsOf(w', t), cfg.policy.toolCallsPerHour, HOUR, end);
  }
}
