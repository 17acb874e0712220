/**
 The pruned, truncated and persisted lists of the policy engine decide exactly as the full history would, through
 any interleaving of checks, recordings and pause/resume cycles that rehydrate the persisted snapshot.
 */
module PolicyWindows {
  import opened Common
  import opened PolicyEngine

  // ---------------------------------------------------------------- sorted histories

  ghost predicate Sorted(h: seq<int>) {
    forall i, j :: 0 <= i < j < |h| ==> h[i] <= h[j]
  }

  /** h is sorted and ends no later than the clock. */
  ghost predicate Recorded(h: seq<int>, clock: int) {
    Sorted(h) && forall i :: 0 <= i < |h| ==> h[i] <= clock
  }

  /** How many recorded calls lie in the window that ends at `now`. */
  function CallsInWindow(h: seq<int>, now: int, window: int): nat { |Within(h, now, window)| }

  /** In a sorted list the expired entries form a prefix; this is its length. */
  function Expired(h: seq<int>, now: int, window: int): (k: nat)
    ensures k <= |h|
    ensures forall i :: 0 <= i < k ==> now - h[i] >= window
    ensures k < |h| ==> now - h[k] < window
  {
    if h == [] || now - h[0] < window then 0 else 1 + Expired(h[1..], now, window)
  }

  lemma ExpiredIs(h: seq<int>, k: nat, now: int, window: int)
    requires k <= |h|
    requires forall i :: 0 <= i < k ==> now - h[i] >= window
    requires k < |h| ==> now - h[k] < window
    ensures Expired(h, now, window) == k
  {
  }

  lemma {:induction false} WithinKeepsFresh(h: seq<int>, now: int, window: int)
    requires forall i :: 0 <= i < |h| ==> now - h[i] < window
    ensures Within(h, now, window) == h
  {
    if h != [] {
      WithinKeepsFresh(h[1..], now, window);
    }
  }

  /** Filtering a sorted list drops exactly that prefix. */
  lemma {:induction false} WithinDropsExpired(h: seq<int>, now: int, window: int)
    requires Sorted(h)
    ensures Within(h, now, window) == h[Expired(h, now, window)..]
  {
    if h != [] {
      if now - h[0] < window {
        WithinKeepsFresh(h, now, window);
      } else {
        WithinDropsExpired(h[1..], now, window);
      }
    }
  }

  // ---------------------------------------------------------------- one window

  /** The list is a suffix of the history; what it dropped has expired or is covered by `limit` newer entries. */
  ghost predicate Refines(list: seq<int>, history: seq<int>, limit: nat, window: int, clock: int) {
    && Recorded(history, clock)
    && |list| <= |history|
    && list == history[|history| - |list|..]
    && (|list| < |history| ==>
          || clock - history[|history| - |list| - 1] >= window
          || |list| >= limit)
  }

  /** Main fact about one window: at any later time the list reaches the limit exactly when full history does. */
  lemma SameDecision(list: seq<int>, history: seq<int>, limit: nat, window: int, clock: int, now: int)
    requires Refines(list, history, limit, window, clock) && clock <= now
    ensures CallsInWindow(list, now, window) >= limit <==> CallsInWindow(history, now, window) >= limit
  {
    WithinDropsExpired(list, now, window);
    WithinDropsExpired(history, now, window);
    var k, eh := |history| - |list|, Expired(history, now, window);
    if eh >= k {
      ExpiredIs(list, eh - k, now, window);
    } else {
      // the newest dropped entry is still fresh, so the list is full and entirely fresh
      assert history[k - 1] >= history[eh];
      ExpiredIs(list, 0, now, window);
    }
  }

  lemma DropKeepsRefinement(list: seq<int>, e: nat, history: seq<int>, limit: nat, window: int, clock: int, now: int)
    requires Refines(list, history, limit, window, clock) && clock <= now
    requires e <= |list| && (e > 0 ==> now - list[e - 1] >= window)
    ensures Refines(list[e..], history, limit, window, now)
  {
    var k := |history| - |list|;
    assert list[e..] == history[k + e..];
    if e > 0 {
      assert list[e - 1] == history[k + e - 1];
    } else {
      assert list[e..] == list;
    }
  }

  lemma CheckKeepsRefinement(list: seq<int>, history: seq<int>, limit: nat, window: int, clock: int, now: int)
    requires Refines(list, history, limit, window, clock) && clock <= now
    ensures Refines(Within(list, now, window), history, limit, window, now)
  {
    assert Sorted(list);
    WithinDropsExpired(list, now, window);
    hide Within, Refines, Expired, Sorted;
    DropKeepsRefinement(list, Expired(list, now, window), history, limit, window, clock, now);
  }

  lemma PushKeepsRefinement(list: seq<int>, history: seq<int>, limit: nat, window: int, clock: int, now: int)
    requires Refines(list, history, limit, window, clock) && clock <= now
    ensures Refines(list + [now], history + [now], limit, window, now)
  {
    var k := |history| - |list|;
    assert list + [now] == (history + [now])[k..];
    if k > 0 {
      assert (history + [now])[k - 1] == history[k - 1];
    }
  }

  lemma TruncationKeepsRefinement(list: seq<int>, history: seq<int>, limit: nat, window: int, clock: int)
    requires Refines(list, history, limit, window, clock)
    ensures Refines(SliceLast(list, limit), history, limit, window, clock)
  {
    var k := |history| - |list|;
    if limit != 0 && |list| > limit {
      assert SliceLast(list, limit) == history[|history| - limit..];
    }
  }

  lemma RecordKeepsRefinement(list: seq<int>, history: seq<int>, limit: nat, window: int, clock: int, now: int)
    requires Refines(list, history, limit, window, clock) && clock <= now
    ensures Refines(PushPruned(list, now, window, limit), history + [now], limit, window, now)
  {
    PushKeepsRefinement(list, history, limit, window, clock, now);
    CheckKeepsRefinement(list + [now], history + [now], limit, window, now, now);
    TruncationKeepsRefinement(Within(list + [now], now, window), history + [now], limit, window, now);
  }

  // ---------------------------------------------------------------- the hour bound

  /** Any limit + 1 consecutive calls span at least one window. */
  ghost predicate Spaced(h: seq<int>, limit: nat, window: int) {
    forall i :: 0 <= i && i + limit < |h| ==> h[i + limit] - h[i] >= window
  }

  /** The calls with end - window < time <= end. */
  function CallsIn(h: seq<int>, end: int, window: int): nat {
    if h == [] then 0
    else CallsIn(h[..|h| - 1], end, window) + if end - window < h[|h| - 1] <= end then 1 else 0
  }

  lemma {:induction false} CallsInSpan(h: seq<int>, end: int, window: int, lo: nat)
    requires Sorted(h) && window > 0
    requires lo <= |h| && forall i :: 0 <= i < lo ==> h[i] <= end - window
    ensures CallsIn(h, end, window) <= |h| - lo
  {
    if |h| > lo {
      CallsInSpan(h[..|h| - 1], end, window, lo);
    } else if h != [] {
      CallsInSpan(h[..|h| - 1], end, window, |h| - 1);
    }
  }

  /** Spacing means what it should: no window of that length, wherever it ends, holds more than `limit` calls. */
  lemma {:induction false} SpacedBoundsEveryWindow(h: seq<int>, limit: nat, window: int, end: int)
    requires Sorted(h) && window > 0 && Spaced(h, limit, window)
    ensures CallsIn(h, end, window) <= limit
  {
    if h != [] {
      var last := h[|h| - 1];
      var init := h[..|h| - 1];
      if last > end {
        assert Spaced(init, limit, window) by {
          forall i | 0 <= i && i + limit < |init| ensures init[i + limit] - init[i] >= window {
            assert h[i + limit] - h[i] >= window;
          }
        }
        SpacedBoundsEveryWindow(init, limit, window, end);
      } else if |h| > limit {
        var lo := |h| - limit;
        assert h[lo - 1 + limit] - h[lo - 1] >= window;
        CallsInSpan(h, end, window, lo);
      } else {
        CallsInSpan(h, end, window, 0);
      }
    }
  }

  /** A call recorded right after a check that found room keeps the spacing. */
  lemma AdmittedCallKeepsSpacing(h: seq<int>, limit: nat, window: int, checkedAt: int, now: int)
    requires Recorded(h, checkedAt) && checkedAt <= now
    requires Spaced(h, limit, window)
    requires CallsInWindow(h, checkedAt, window) < limit
    ensures Spaced(h + [now], limit, window)
  {
    WithinDropsExpired(h, checkedAt, window);
    var h' := h + [now];
    forall i | 0 <= i && i + limit < |h'|
      ensures h'[i + limit] - h'[i] >= window
    {
      if i + limit < |h| {
        assert h[i + limit] - h[i] >= window;
      } else {
        assert i < Expired(h, checkedAt, window);
      }
    }
  }

  // ---------------------------------------------------------------- recent actions

  function Recent(actions: seq<string>): seq<string> { SliceLast(actions, 20) }

  lemma RecordActionKeepsRecent(e: EngineState, actions: seq<string>, tool: string)
    requires e.recentActions == Recent(actions)
    ensures AfterAction(e, tool).recentActions == Recent(actions + [tool])
  {
  }

  ghost predicate BufferSuffices(cfg: PolicyConfig) {
    forall actions: seq<string> :: DetectsLoop(cfg, Recent(actions)) <==> DetectsLoop(cfg, actions)
  }

  lemma BufferDecides(cfg: PolicyConfig, actions: seq<string>)
    requires 1 <= cfg.maxIdenticalActions <= 20
    ensures DetectsLoop(cfg, Recent(actions)) <==> DetectsLoop(cfg, actions)
  {
    var m := cfg.maxIdenticalActions;
    if |actions| >= m {
      assert SliceLast(Recent(actions), m) == SliceLast(actions, m);
    }
  }

  /** The 20-entry buffer detects the same loops as full history exactly for thresholds 1..20 (or with detection
      switched off): above 20 it is too short, and a threshold of 0 compares whole lists. */
  lemma BufferSufficesExactly(cfg: PolicyConfig)
    ensures BufferSuffices(cfg) <==> !cfg.loopDetectionEnabled || 1 <= cfg.maxIdenticalActions <= 20
  {
    var m := cfg.maxIdenticalActions;
    if cfg.loopDetectionEnabled && m > 20 {
      var actions := seq(m, _ => "a");
      assert DetectsLoop(cfg, actions) && !DetectsLoop(cfg, Recent(actions));
    } else if cfg.loopDetectionEnabled && m == 0 {
      var actions := ["b"] + seq(20, _ => "a");
      assert Recent(actions) == seq(20, _ => "a");
      assert SliceLast(actions, 0)[1] != SliceLast(actions, 0)[0];
      assert DetectsLoop(cfg, Recent(actions)) && !DetectsLoop(cfg, actions);
    } else if cfg.loopDetectionEnabled {
      forall actions: seq<string>
        ensures DetectsLoop(cfg, Recent(actions)) <==> DetectsLoop(cfg, actions)
      {
        BufferDecides(cfg, actions);
      }
    }
  }

  // ---------------------------------------------------------------- sessions

  datatype Op =
    | Check(now: int)
    | ToolCall(now: int)
    | ApiCall(now: int)
    | Action(tool: string)
    | Uncertain
    | ResetUncertain
    | PauseResume

  /** The engine of the current loop and the persisted snapshot of its task. */
  datatype Session = Session(engine: EngineState, stored: Option<EngineState>)

  /** What was ever recorded. */
  datatype History = History(tool: seq<int>, api: seq<int>, actions: seq<string>, clock: int)

  function Save(e: EngineState): Session { Session(e, Some(e)) }

  function Apply(cfg: PolicyConfig, s: Session, op: Op): Session {
    match op
    case Check(now) => s.(engine := AfterCheck(s.engine, now))
    case ToolCall(now) => Save(AfterToolCall(cfg, s.engine, now))
    case ApiCall(now) => Save(AfterApiCall(cfg, s.engine, now))
    case Action(tool) => Save(AfterAction(s.engine, tool))
    case Uncertain => Save(AfterUncertain(s.engine))
    case ResetUncertain => if s.engine.uncertain == 0 then s else Save(AfterResetUncertain(s.engine))
    case PauseResume => s.(engine := s.stored.GetOr(FreshEngine))
  }

  function Note(h: History, op: Op): History {
    match op
    case Check(now) => h.(clock := now)
    case ToolCall(now) => h.(tool := h.tool + [now], clock := now)
    case ApiCall(now) => h.(api := h.api + [now], clock := now)
    case Action(tool) => h.(actions := h.actions + [tool])
    case _ => h
  }

  /** The clock never runs backwards. */
  predicate OnTime(h: History, op: Op) {
    match op
    case Check(now) => h.clock <= now
    case ToolCall(now) => h.clock <= now
    case ApiCall(now) => h.clock <= now
    case _ => true
  }

  ghost predicate EngineTracks(cfg: PolicyConfig, e: EngineState, h: History) {
    && Refines(e.toolCalls, h.tool, cfg.toolCallsPerHour, HOUR, h.clock)
    && Refines(e.apiCalls, h.api, cfg.apiCallsPerMinute, MINUTE, h.clock)
    && e.recentActions == Recent(h.actions)
  }

  ghost predicate SessionTracks(cfg: PolicyConfig, s: Session, h: History) {
    && EngineTracks(cfg, s.engine, h)
    && EngineTracks(cfg, s.stored.GetOr(FreshEngine), h)
  }

  lemma TrackingSurvivesTime(cfg: PolicyConfig, e: EngineState, h: History, now: int)
    requires EngineTracks(cfg, e, h) && h.clock <= now
    ensures EngineTracks(cfg, e, h.(clock := now))
  {
  }

  lemma CheckTracked(cfg: PolicyConfig, e: EngineState, h: History, now: int)
    requires EngineTracks(cfg, e, h) && h.clock <= now
    ensures EngineTracks(cfg, AfterCheck(e, now), h.(clock := now))
  {
    CheckKeepsRefinement(e.toolCalls, h.tool, cfg.toolCallsPerHour, HOUR, h.clock, now);
    CheckKeepsRefinement(e.apiCalls, h.api, cfg.apiCallsPerMinute, MINUTE, h.clock, now);
  }

  lemma ToolCallTracked(cfg: PolicyConfig, e: EngineState, h: History, now: int)
    requires EngineTracks(cfg, e, h) && h.clock <= now
    ensures EngineTracks(cfg, AfterToolCall(cfg, e, now), h.(tool := h.tool + [now], clock := now))
  {
    RecordKeepsRefinement(e.toolCalls, h.tool, cfg.toolCallsPerHour, HOUR, h.clock, now);
  }

  lemma ApiCallTracked(cfg: PolicyConfig, e: EngineState, h: History, now: int)
    requires EngineTracks(cfg, e, h) && h.clock <= now
    ensures EngineTracks(cfg, AfterApiCall(cfg, e, now), h.(api := h.api + [now], clock := now))
  {
    RecordKeepsRefinement(e.apiCalls, h.api, cfg.apiCallsPerMinute, MINUTE, h.clock, now);
  }

  lemma ActionTracked(cfg: PolicyConfig, e: EngineState, h: History, tool: string)
    requires EngineTracks(cfg, e, h)
    ensures EngineTracks(cfg, AfterAction(e, tool), h.(actions := h.actions + [tool]))
  {
    RecordActionKeepsRecent(e, h.actions, tool);
  }

  lemma SessionTracksOp(cfg: PolicyConfig, s: Session, h: History, op: Op)
    requires SessionTracks(cfg, s, h) && OnTime(h, op)
    ensures SessionTracks(cfg, Apply(cfg, s, op), Note(h, op))
  {
    match op
    case Check(now) =>
      CheckTracked(cfg, s.engine, h, now);
      TrackingSurvivesTime(cfg, s.stored.GetOr(FreshEngine), h, now);
    case ToolCall(now) => ToolCallTracked(cfg, s.engine, h, now);
    case ApiCall(now) => ApiCallTracked(cfg, s.engine, h, now);
    case Action(tool) => ActionTracked(cfg, s.engine, h, tool);
    case Uncertain =>
    case ResetUncertain =>
    case PauseResume =>
  }

  function ApplyAll(cfg: PolicyConfig, s: Session, ops: seq<Op>): Session
    decreases |ops|
  {
    if ops == [] then s else ApplyAll(cfg, Apply(cfg, s, ops[0]), ops[1..])
  }

  function NoteAll(h: History, ops: seq<Op>): History
    decreases |ops|
  {
    if ops == [] then h else NoteAll(Note(h, ops[0]), ops[1..])
  }

  predicate AllOnTime(h: History, ops: seq<Op>)
    decreases |ops|
  {
    ops == [] || (OnTime(h, ops[0]) && AllOnTime(Note(h, ops[0]), ops[1..]))
  }

  lemma {:induction false} SessionTracksAll(cfg: PolicyConfig, s: Session, h: History, ops: seq<Op>)
    requires SessionTracks(cfg, s, h) && AllOnTime(h, ops)
    ensures SessionTracks(cfg, ApplyAll(cfg, s, ops), NoteAll(h, ops))
    decreases |ops|
  {
    if ops != [] {
      SessionTracksOp(cfg, s, h, ops[0]);
      SessionTracksAll(cfg, Apply(cfg, s, ops[0]), Note(h, ops[0]), ops[1..]);
    }
  }

  /** Main theorem: after any timed sequence of operations of a new task, every verdict that depends on the recorded
      calls is the verdict full history would give. */
  lemma PrunedListsDecideAsFullHistory(cfg: PolicyConfig, start: int, ops: seq<Op>, now: int)
    requires AllOnTime(History([], [], [], start), ops)
    requires NoteAll(History([], [], [], start), ops).clock <= now
    ensures var e := ApplyAll(cfg, Session(FreshEngine, None), ops).engine;
            var h := NoteAll(History([], [], [], start), ops);
            && (|Within(e.toolCalls, now, HOUR)| >= cfg.toolCallsPerHour <==>
                CallsInWindow(h.tool, now, HOUR) >= cfg.toolCallsPerHour)
            && (|Within(e.apiCalls, now, MINUTE)| >= cfg.apiCallsPerMinute <==>
                CallsInWindow(h.api, now, MINUTE) >= cfg.apiCallsPerMinute)
            && (1 <= cfg.maxIdenticalActions <= 20 ==>
                  (DetectsLoop(cfg, e.recentActions) <==> DetectsLoop(cfg, h.actions)))
  {
    var s0, h0 := Session(FreshEngine, None), History([], [], [], start);
    SessionTracksAll(cfg, s0, h0, ops);
    var e, h := ApplyAll(cfg, s0, ops).engine, NoteAll(h0, ops);
    SameDecision(e.toolCalls, h.tool, cfg.toolCallsPerHour, HOUR, h.clock, now);
    SameDecision(e.apiCalls, h.api, cfg.apiCallsPerMinute, MINUTE, h.clock, now);
    if 1 <= cfg.maxIdenticalActions <= 20 {
      BufferDecides(cfg, h.actions);
    }
  }
}
