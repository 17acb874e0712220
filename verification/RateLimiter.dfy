/**
 The plugin rate limiter: one bucket of timestamps per key, pruned by every check, deleted when another key's check finds
 it empty. The calls of a key are decided as the full history of accepted calls would decide them exactly for the lists
 of windows in which no window is larger than an earlier one.
 */
module RateLimiter {
  import opened Common
  import opened PolicyWindows

  datatype Bucket = Bucket(timestamps: seq<int>, windowMs: int)

  type Windows = map<string, Bucket>

  datatype Call = Call(key: string, limit: int, windowMs: int, now: int)

  // ---------------------------------------------------------------- the limiter

  /** The timestamps from the first one after the cutoff on. */
  function Fresh(timestamps: seq<int>, now: int, windowMs: int): seq<int> {
    timestamps[Expired(timestamps, now, windowMs)..]
  }

  function Prune(b: Bucket, now: int): Bucket { b.(timestamps := Fresh(b.timestamps, now, b.windowMs)) }

  /** Every bucket but one is pruned, and deleted if nothing is left. */
  function PruneOthers(ws: Windows, now: int, skip: string): Windows {
    map k | k in ws && (k == skip || Prune(ws[k], now).timestamps != []) :: if k == skip then ws[k] else Prune(ws[k], now)
  }

  lemma PrunedAt(ws: Windows, now: int, skip: string)
    ensures forall k :: k in PruneOthers(ws, now, skip) <==>
              k in ws && (k == skip || Prune(ws[k], now).timestamps != [])
    ensures forall k :: k in PruneOthers(ws, now, skip) ==>
              PruneOthers(ws, now, skip)[k] == if k == skip then ws[k] else Prune(ws[k], now)
  {
  }

  /** The bucket of the key as the limit is tested on it. */
  function Tested(ws: Windows, c: Call): Bucket {
    if c.key in ws then Prune(ws[c.key].(windowMs := c.windowMs), c.now) else Bucket([], c.windowMs)
  }

  predicate Allows(ws: Windows, c: Call) { |Tested(ws, c).timestamps| < c.limit }

  function AfterCheck(ws: Windows, c: Call): Windows {
    var b := Tested(ws, c);
    PruneOthers(ws, c.now, c.key)[c.key := if |b.timestamps| < c.limit then b.(timestamps := b.timestamps + [c.now]) else b]
  }

  class PluginRateLimiter {
    var windows: Windows

    constructor ()
      ensures windows == map[]
    {
      windows := map[];
    }

    method PruneWindow(bucket: Bucket, now: int) returns (pruned: Bucket)
      ensures pruned == Prune(bucket, now)
    {
      var firstValid := 0;
      while firstValid < |bucket.timestamps| && now - bucket.timestamps[firstValid] >= bucket.windowMs
        invariant 0 <= firstValid <= |bucket.timestamps|
        invariant forall i :: 0 <= i < firstValid ==> now - bucket.timestamps[i] >= bucket.windowMs
      {
        firstValid := firstValid + 1;
      }
      ExpiredIs(bucket.timestamps, firstValid, now, bucket.windowMs);
      pruned := bucket.(timestamps := bucket.timestamps[firstValid..]);
    }

    method PruneExpiredWindows(now: int, skipKey: string)
      modifies this
      ensures windows == PruneOthers(old(windows), now, skipKey)
    {
      hide PruneOthers, Prune;
      ghost var goal := PruneOthers(windows, now, skipKey);
      PrunedAt(windows, now, skipKey);
      var todo := windows.Keys;
      while todo != {}
        invariant todo <= windows.Keys && forall k :: k in todo ==> k in old(windows) && windows[k] == old(windows)[k]
        invariant forall k :: k !in todo ==> (k in windows <==> k in goal) && (k in goal ==> windows[k] == goal[k])
        decreases |todo|
      {
        var key :| key in todo;
        todo := todo - {key};
        if key != skipKey {
          var bucket := PruneWindow(windows[key], now);
          windows := windows[key := bucket];
          if |bucket.timestamps| == 0 {
            windows := windows - {key};
          }
        }
      }
    }

    /** Returns whether the call is allowed; the original throws when it is not. */
    method Check(c: Call) returns (allowed: bool)
      modifies this
      ensures windows == AfterCheck(old(windows), c) && allowed == Allows(old(windows), c)
    {
      hide PruneOthers, Prune;
      PrunedAt(windows, c.now, c.key);
      PruneExpiredWindows(c.now, c.key);
      var bucket := Bucket([], c.windowMs);
      if c.key in windows {
        bucket := PruneWindow(windows[c.key].(windowMs := c.windowMs), c.now);
      }
      windows := windows[c.key := bucket];
      if |bucket.timestamps| >= c.limit { return false; }
      windows := windows[c.key := bucket.(timestamps := bucket.timestamps + [c.now])];
      allowed := true;
    }
  }

  // ---------------------------------------------------------------- the full-history limiter

  /** Fewer than `limit` of these times lie in the window that ends with the call. */
  predicate Admits(times: seq<int>, c: Call) { CallsInWindow(times, c.now, c.windowMs) < c.limit }

  /** The times of the calls of a key that a limiter remembering every accepted call accepts. */
  function Accepted(calls: seq<Call>, key: string): seq<int> {
    if calls == [] then [] else
      var c := calls[|calls| - 1];
      var before := Accepted(calls[..|calls| - 1], key);
      if c.key == key && Admits(before, c) then before + [c.now] else before
  }

  function WindowsAfter(calls: seq<Call>): Windows {
    if calls == [] then map[] else AfterCheck(WindowsAfter(calls[..|calls| - 1]), calls[|calls| - 1])
  }

  ghost predicate Monotone(calls: seq<Call>) {
    forall i, j :: 0 <= i < j < |calls| ==> calls[i].now <= calls[j].now
  }

  /** The windows a key is checked with, in order. */
  function WindowsOf(calls: seq<Call>, key: string): seq<int> {
    if calls == [] then [] else
      var c := calls[|calls| - 1];
      WindowsOf(calls[..|calls| - 1], key) + if c.key == key then [c.windowMs] else []
  }

  /** No window is larger than an earlier one, unless it admits nothing anyway. */
  ghost predicate NeverGrowing(windows: seq<int>) {
    forall i, j :: 0 <= i < j < |windows| ==> windows[j] <= windows[i] || windows[j] <= 0
  }

  /** Every decision about the key is the one full history gives. */
  ghost predicate DecidedAsFullHistory(calls: seq<Call>, key: string) {
    forall k :: 0 <= k < |calls| && calls[k].key == key ==>
      (Allows(WindowsAfter(calls[..k]), calls[k]) <==> Admits(Accepted(calls[..k], key), calls[k]))
  }

  // ---------------------------------------------------------------- refinement

  function Times(ws: Windows, key: string): seq<int> { if key in ws then ws[key].timestamps else [] }

  /** The kept times are the newest of the history, and those dropped had expired. */
  ghost predicate Keeps(list: seq<int>, history: seq<int>, window: int, clock: int) {
    && Recorded(history, clock) && |list| <= |history| && list == history[|history| - |list|..]
    && (|list| < |history| ==> clock - history[|history| - |list| - 1] >= window)
  }

  /** A bucket keeps its key's history for its own window; a key without bucket has nothing left in the window `last`. */
  ghost predicate Tracks(ws: Windows, history: seq<int>, key: string, last: int, clock: int) {
    Keeps(Times(ws, key), history, last, clock) && (key in ws ==> ws[key].windowMs == last)
  }

  lemma KeepsLonger(list: seq<int>, history: seq<int>, window: int, clock: int, window': int, clock': int)
    requires Keeps(list, history, window, clock) && (window' <= window || window' <= 0) && clock <= clock'
    ensures Keeps(list, history, window', clock')
  {
  }

  lemma PruneKeeps(list: seq<int>, history: seq<int>, window: int, clock: int)
    requires Keeps(list, history, window, clock)
    ensures Keeps(Fresh(list, clock, window), history, window, clock)
  {
    var e := Expired(list, clock, window);
    assert list[e..] == history[|history| - |list| + e..];
    if e > 0 {
      assert list[e - 1] == history[|history| - |list| + e - 1];
    }
  }

  lemma ExpiredTogether(list: seq<int>, history: seq<int>, window: int, clock: int)
    requires Keeps(list, history, window, clock)
    ensures Expired(history, clock, window) == |history| - |list| + Expired(list, clock, window)
  {
    var k, e := |history| - |list|, Expired(list, clock, window);
    forall i | 0 <= i < k + e
      ensures clock - history[i] >= window
    {
      if i >= k {
        assert history[i] == list[i - k];
      } else {
        assert history[i] <= history[k - 1];
      }
    }
    assert k + e < |history| ==> history[k + e] == list[e];
    ExpiredIs(history, k + e, clock, window);
  }

  /** On a list that keeps the history, pruning counts what full history counts. */
  lemma PrunedCounts(list: seq<int>, history: seq<int>, window: int, clock: int)
    requires Keeps(list, history, window, clock)
    ensures |Fresh(list, clock, window)| == CallsInWindow(history, clock, window)
  {
    WithinDropsExpired(history, clock, window);
    ExpiredTogether(list, history, window, clock);
  }

  lemma PushKeeps(list: seq<int>, history: seq<int>, window: int, clock: int)
    requires Keeps(list, history, window, clock)
    ensures Keeps(list + [clock], history + [clock], window, clock)
  {
    assert list + [clock] == (history + [clock])[|history| - |list|..];
    if |list| < |history| {
      assert (history + [clock])[|history| - |list| - 1] == history[|history| - |list| - 1];
    }
  }

  lemma CheckedKeyAfter(ws: Windows, c: Call)
    ensures Tested(ws, c).timestamps == Fresh(Times(ws, c.key), c.now, c.windowMs)
    ensures c.key in AfterCheck(ws, c) && AfterCheck(ws, c)[c.key].windowMs == c.windowMs
    ensures Times(AfterCheck(ws, c), c.key) == Tested(ws, c).timestamps + if Allows(ws, c) then [c.now] else []
  {
    hide PruneOthers, Fresh;
    NothingIsFresh(c.now, c.windowMs);
  }

  lemma NothingIsFresh(now: int, windowMs: int)
    ensures Fresh([], now, windowMs) == []
  {
  }

  lemma OtherKeyAfter(ws: Windows, c: Call, key: string)
    requires key != c.key
    ensures key in AfterCheck(ws, c) ==> key in ws && AfterCheck(ws, c)[key].windowMs == ws[key].windowMs
    ensures Times(AfterCheck(ws, c), key) ==
            if key in ws then Fresh(ws[key].timestamps, c.now, ws[key].windowMs) else []
  {
    hide PruneOthers, Tested, Fresh;
    PrunedAt(ws, c.now, c.key);
  }

  /** The key that is checked: same decision, and its bucket keeps the history. */
  lemma CheckedKeyTracks(ws: Windows, c: Call, history: seq<int>, last: int, clock: int)
    requires Tracks(ws, history, c.key, last, clock) && clock <= c.now
    requires c.windowMs <= last || c.windowMs <= 0
    ensures Allows(ws, c) <==> Admits(history, c)
    ensures Tracks(AfterCheck(ws, c), if Admits(history, c) then history + [c.now] else history, c.key, c.windowMs, c.now)
  {
    hide AfterCheck, Tested, Keeps, CallsInWindow, Times, Fresh;
    var list := Times(ws, c.key);
    KeepsLonger(list, history, last, clock, c.windowMs, c.now);
    PruneKeeps(list, history, c.windowMs, c.now);
    PrunedCounts(list, history, c.windowMs, c.now);
    CheckedKeyAfter(ws, c);
    PushKeeps(Tested(ws, c).timestamps, history, c.windowMs, c.now);
    assert Tested(ws, c).timestamps + [] == Tested(ws, c).timestamps;
  }

  /** Every other key: its bucket may be pruned or deleted, but still keeps the history. */
  lemma OtherKeyTracks(ws: Windows, c: Call, history: seq<int>, key: string, last: int, clock: int)
    requires Tracks(ws, history, key, last, clock) && key != c.key && clock <= c.now
    ensures Tracks(AfterCheck(ws, c), history, key, last, c.now)
  {
    hide AfterCheck, Keeps, Fresh;
    var list := Times(ws, key);
    KeepsLonger(list, history, last, clock, last, c.now);
    PruneKeeps(list, history, last, c.now);
    OtherKeyAfter(ws, c, key);
  }

  function LastTime(calls: seq<Call>): int
    requires calls != []
  {
    calls[|calls| - 1].now
  }

  /** The last of these windows, or a default if there is none. */
  function LastWindow(windows: seq<int>, default: int): int {
    if windows == [] then default else windows[|windows| - 1]
  }

  lemma LastIsSmallest(windows: seq<int>, w: int)
    requires NeverGrowing(windows + [w])
    ensures NeverGrowing(windows)
    ensures w <= LastWindow(windows, w) || w <= 0
  {
    var all := windows + [w];
    assert forall i :: 0 <= i < |windows| ==> all[i] == windows[i];
    assert all[|windows|] == w;
  }

  /** After any sequence of calls, the bucket keeps the full history of its key. */
  lemma {:induction false} LimiterTracks(calls: seq<Call>, key: string, default: int)
    requires calls != [] && Monotone(calls) && NeverGrowing(WindowsOf(calls, key))
    ensures Tracks(WindowsAfter(calls), Accepted(calls, key), key, LastWindow(WindowsOf(calls, key), default), LastTime(calls))
    decreases |calls|
  {
    hide AfterCheck, Admits, Keeps;
    var n := |calls| - 1;
    var init, c := calls[..n], calls[n];
    var windows := WindowsOf(init, key);
    var before := if c.key == key then c.windowMs else default;
    var clock := if init == [] then c.now else LastTime(init);
    if c.key == key {
      assert WindowsOf(calls, key) == windows + [c.windowMs];
      LastIsSmallest(windows, c.windowMs);
    } else {
      assert WindowsOf(calls, key) == windows;
    }
    if init == [] {
      NothingTracked(key, LastWindow(windows, before), clock);
    } else {
      LimiterTracks(init, key, before);
    }
    if c.key == key {
      CheckedKeyTracks(WindowsAfter(init), c, Accepted(init, key), LastWindow(windows, before), clock);
    } else {
      OtherKeyTracks(WindowsAfter(init), c, Accepted(init, key), key, LastWindow(windows, before), clock);
    }
  }

  lemma NothingTracked(key: string, last: int, clock: int)
    ensures Tracks(WindowsAfter([]), Accepted([], key), key, last, clock)
  {
  }

  /** The limiter allows a call exactly when fewer than `limit` accepted calls of its key lie in the last window,
      whatever the checks of other keys have pruned or deleted meanwhile. */
  lemma LimiterDecidesAsFullHistory(calls: seq<Call>, c: Call)
    requires Monotone(calls + [c]) && NeverGrowing(WindowsOf(calls + [c], c.key))
    ensures Allows(WindowsAfter(calls), c) <==> Admits(Accepted(calls, c.key), c)
  {
    hide Allows, Admits, Tracks;
    var all := calls + [c];
    assert all[..|calls|] == calls;
    assert forall i :: 0 <= i < |calls| ==> all[i] == calls[i];
    assert all[|calls|] == c;
    var windows := WindowsOf(calls, c.key);
    assert WindowsOf(all, c.key) == windows + [c.windowMs];
    LastIsSmallest(windows, c.windowMs);
    var clock := if calls == [] then c.now else LastTime(calls);
    if calls == [] {
      NothingTracked(c.key, c.windowMs, clock);
    } else {
      LimiterTracks(calls, c.key, c.windowMs);
    }
    CheckedKeyTracks(WindowsAfter(calls), c, Accepted(calls, c.key), LastWindow(windows, c.windowMs), clock);
  }

  // ---------------------------------------------------------------- exactly these windows

  lemma Unrolled(calls: seq<Call>, c: Call, key: string)
    ensures WindowsAfter(calls + [c]) == AfterCheck(WindowsAfter(calls), c)
    ensures WindowsOf(calls + [c], key) == WindowsOf(calls, key) + if c.key == key then [c.windowMs] else []
    ensures Accepted(calls + [c], key) ==
            Accepted(calls, key) + if c.key == key && Admits(Accepted(calls, key), c) then [c.now] else []
  {
    assert (calls + [c])[..|calls|] == calls;
    assert Accepted(calls, key) + [] == Accepted(calls, key);
  }

  /** Calls of a key that no limiter accepts. */
  function Refused(key: string, windows: seq<int>, now: int): (calls: seq<Call>)
    ensures |calls| == |windows| && forall i :: 0 <= i < |calls| ==> calls[i] == Call(key, 0, windows[i], now)
  {
    seq(|windows|, i requires 0 <= i < |windows| => Call(key, 0, windows[i], now))
  }

  lemma {:induction false} RefusedChangeNothing(calls: seq<Call>, key: string, windows: seq<int>, now: int)
    requires Times(WindowsAfter(calls), key) == []
    ensures var all := calls + Refused(key, windows, now);
            && Times(WindowsAfter(all), key) == [] && Accepted(all, key) == Accepted(calls, key)
            && WindowsOf(all, key) == WindowsOf(calls, key) + windows
    decreases |windows|
  {
    hide AfterCheck, WindowsOf, Accepted, Times, WindowsAfter;
    if windows == [] {
      assert calls + Refused(key, windows, now) == calls;
      assert WindowsOf(calls, key) + [] == WindowsOf(calls, key);
    } else {
      var n := |windows| - 1;
      var c := Call(key, 0, windows[n], now);
      var before := calls + Refused(key, windows[..n], now);
      RefusedChangeNothing(calls, key, windows[..n], now);
      assert calls + Refused(key, windows, now) == before + [c];
      Unrolled(before, c, key);
      CheckedKeyAfter(WindowsAfter(before), c);
      NothingIsFresh(now, windows[n]);
      assert WindowsOf(calls, key) + windows[..n] + [windows[n]] == WindowsOf(calls, key) + windows;
      assert Accepted(before, key) + [] == Accepted(before, key);
    }
  }

  /** One accepted call at time 0, then another key's check that prunes it. */
  lemma ForgottenCall(calls: seq<Call>, key: string, window: int, other: Call)
    requires Times(WindowsAfter(calls), key) == [] && Accepted(calls, key) == []
    requires other.key != key && other.now >= window
    ensures var all := calls + [Call(key, 1, window, 0)] + [other];
            && Times(WindowsAfter(all), key) == [] && Accepted(all, key) == [0]
            && WindowsOf(all, key) == WindowsOf(calls, key) + [window]
  {
    hide AfterCheck, WindowsOf, Accepted, WindowsAfter, Fresh;
    var c := Call(key, 1, window, 0);
    var first := calls + [c];
    Unrolled(calls, c, key);
    CheckedKeyAfter(WindowsAfter(calls), c);
    NothingIsFresh(0, window);
    Unrolled(first, other, key);
    OtherKeyAfter(WindowsAfter(first), other, key);
    ZeroExpires(other.now, window);
    assert WindowsOf(first, key) + [] == WindowsOf(first, key) && [0] + [] == [0] && [] + [0] == [0];
  }

  lemma ZeroExpires(now: int, window: int)
    ensures now >= window ==> Fresh([0], now, window) == []
    ensures now < window ==> CallsInWindow([0], now, window) == 1
  {
    if now >= window {
      ExpiredIs([0], 1, now, window);
      assert [0][1..] == [];
    } else {
      ExpiredIs([0], 0, now, window);
      WithinDropsExpired([0], now, window);
    }
  }

  /** With a window that grows, some calls are let through that full history refuses. */
  lemma GrowingWindowForgets(windows: seq<int>, key: string, i: nat, j: nat) returns (calls: seq<Call>)
    requires i < j < |windows| && windows[j] > windows[i] && windows[j] > 0
    ensures Monotone(calls) && WindowsOf(calls, key) == windows && !DecidedAsFullHistory(calls, key)
  {
    hide AfterCheck, WindowsOf, Accepted, Times, WindowsAfter, Fresh;
    var d := Max(windows[i], 0);
    var other, last := Call(key + "'", 0, 0, d), Call(key, 1, windows[j], d);
    assert |other.key| != |key|;
    var refused := [] + Refused(key, windows[..i], 0);
    NothingYet(key);
    RefusedChangeNothing([], key, windows[..i], 0);
    ForgottenCall(refused, key, windows[i], other);
    var forgotten := refused + [Call(key, 1, windows[i], 0)] + [other];
    RefusedChangeNothing(forgotten, key, windows[i + 1..j], d);
    var before := forgotten + Refused(key, windows[i + 1..j], d);
    CheckedKeyAfter(WindowsAfter(before), last);
    NothingIsFresh(d, windows[j]);
    ZeroExpires(d, windows[j]);
    calls := RefusedAfter(before, last, windows[j + 1..]);
    assert calls[..|before|] == before && calls[|before|] == last;
    assert [] + windows[..i] + [windows[i]] + windows[i + 1..j] + [windows[j]] + windows[j + 1..] == windows;
    forall m | 0 <= m < |calls|
      ensures calls[m].now == if m <= i then 0 else d
    {
    }
  }

  lemma NothingYet(key: string)
    ensures Times(WindowsAfter([]), key) == [] && Accepted([], key) == [] && WindowsOf([], key) == []
  {
  }

  /** The rest of the windows, in calls whose limit admits nothing. */
  lemma RefusedAfter(before: seq<Call>, last: Call, windows: seq<int>) returns (calls: seq<Call>)
    ensures calls == before + [last] + Refused(last.key, windows, last.now)
    ensures WindowsOf(calls, last.key) == WindowsOf(before, last.key) + [last.windowMs] + windows
  {
    Unrolled(before, last, last.key);
    calls := before + [last] + Refused(last.key, windows, last.now);
    RefusedWindows(before + [last], last.key, windows, last.now);
  }

  lemma {:induction false} RefusedWindows(calls: seq<Call>, key: string, windows: seq<int>, now: int)
    ensures WindowsOf(calls + Refused(key, windows, now), key) == WindowsOf(calls, key) + windows
    decreases |windows|
  {
    hide AfterCheck, Accepted, WindowsAfter, WindowsOf;
    if windows == [] {
      assert calls + Refused(key, windows, now) == calls;
      assert WindowsOf(calls, key) + [] == WindowsOf(calls, key);
    } else {
      var n := |windows| - 1;
      RefusedWindows(calls, key, windows[..n], now);
      var before := calls + Refused(key, windows[..n], now);
      assert calls + Refused(key, windows, now) == before + [Call(key, 0, windows[n], now)];
      Unrolled(before, Call(key, 0, windows[n], now), key);
      assert WindowsOf(calls, key) + windows[..n] + [windows[n]] == WindowsOf(calls, key) + windows;
    }
  }

  /** The calls of one key are decided as full history would, whatever their times and limits and whatever happens to
      other keys, exactly for the window lists that never grow. */
  lemma WindowsDecideExactly(windows: seq<int>, key: string)
    ensures (forall calls :: Monotone(calls) && WindowsOf(calls, key) == windows ==> DecidedAsFullHistory(calls, key))
            <==> NeverGrowing(windows)
  {
    if NeverGrowing(windows) {
      forall calls | Monotone(calls) && WindowsOf(calls, key) == windows
        ensures DecidedAsFullHistory(calls, key)
      {
        ShrinkingDecides(calls, key);
      }
    } else {
      var i, j :| 0 <= i < j < |windows| && !(windows[j] <= windows[i] || windows[j] <= 0);
      var calls := GrowingWindowForgets(windows, key, i, j);
    }
  }

  lemma {:induction false} PrefixWindows(calls: seq<Call>, key: string, k: nat)
    requires k <= |calls|
    ensures WindowsOf(calls[..k], key) <= WindowsOf(calls, key)
    decreases |calls|
  {
    if k < |calls| {
      PrefixWindows(calls[..|calls| - 1], key, k);
      assert calls[..|calls| - 1][..k] == calls[..k];
    } else {
      assert calls[..k] == calls;
    }
  }

  lemma ShrinkingDecides(calls: seq<Call>, key: string)
    requires Monotone(calls) && NeverGrowing(WindowsOf(calls, key))
    ensures DecidedAsFullHistory(calls, key)
  {
    hide Allows, Admits, WindowsOf, Accepted, WindowsAfter;
    forall k | 0 <= k < |calls| && calls[k].key == key
      ensures Allows(WindowsAfter(calls[..k]), calls[k]) <==> Admits(Accepted(calls[..k], key), calls[k])
    {
      assert calls[..k] + [calls[k]] == calls[..k + 1];
      PrefixWindows(calls, key, k + 1);
      LimiterDecidesAsFullHistory(calls[..k], calls[k]);
    }
  }

  // ---------------------------------------------------------------- the bound

  lemma {:induction false} AcceptedSpaced(calls: seq<Call>, key: string, limit: nat, window: int)
    requires Monotone(calls)
    requires forall i :: 0 <= i < |calls| && calls[i].key == key ==> calls[i].limit == limit && calls[i].windowMs == window
    ensures Spaced(Accepted(calls, key), limit, window)
    ensures Sorted(Accepted(calls, key))
    ensures forall i :: 0 <= i < |Accepted(calls, key)| ==> calls != [] && Accepted(calls, key)[i] <= LastTime(calls)
  {
    hide CallsInWindow, Spaced;
    if calls == [] {
      NothingSpaced(limit, window);
    } else {
      var init, c := calls[..|calls| - 1], calls[|calls| - 1];
      AcceptedSpaced(init, key, limit, window);
      assert init != [] ==> LastTime(init) <= c.now;
      if c.key == key && Admits(Accepted(init, key), c) {
        AdmittedCallKeepsSpacing(Accepted(init, key), limit, window, c.now, c.now);
      }
    }
  }

  lemma NothingSpaced(limit: nat, window: int)
    ensures Spaced([], limit, window)
  {
  }

  /** With one limit and one window for a key, no window, wherever it ends, holds more accepted calls than the limit. */
  lemma NoWindowExceedsLimit(calls: seq<Call>, key: string, limit: nat, window: int, end: int)
    requires Monotone(calls) && window > 0
    requires forall i :: 0 <= i < |calls| && calls[i].key == key ==> calls[i].limit == limit && calls[i].windowMs == window
    ensures CallsIn(Accepted(calls, key), end, window) <= limit
  {
    hide Accepted;
    AcceptedSpaced(calls, key, limit, window);
    SpacedBoundsEveryWindow(Accepted(calls, key), limit, window, end);
  }

  // ---------------------------------------------------------------- keys

  function KeyFor(plugin: string, action: string, user: string): string { plugin + ":" + action + ":" + user }

  lemma {:induction false} FirstColon(a: string, b: string, x: string, y: string)
    requires ':' !in a && ':' !in b && a + ":" + x == b + ":" + y
    ensures a == b && x == y
  {
    if a == "" || b == "" {
      assert (a + ":" + x)[0] == (b + ":" + y)[0];
      assert a == b == "";
      assert ("" + ":" + x)[1..] == x && ("" + ":" + y)[1..] == y;
    } else {
      assert (a + ":" + x)[0] == a[0] && (b + ":" + y)[0] == b[0];
      assert (a + ":" + x)[1..] == a[1..] + ":" + x && (b + ":" + y)[1..] == b[1..] + ":" + y;
      FirstColon(a[1..], b[1..], x, y);
      assert a == [a[0]] + a[1..] && b == [b[0]] + b[1..];
    }
  }

  /** Plugins and actions without colons never share a bucket, whatever the user id is written as. */
  lemma KeysAreDistinct(p: string, a: string, u: string, p': string, a': string, u': string)
    requires ':' !in p && ':' !in p' && ':' !in a && ':' !in a'
    ensures KeyFor(p, a, u) == KeyFor(p', a', u') <==> p == p' && a == a' && u == u'
  {
    assert KeyFor(p, a, u) == p + ":" + (a + ":" + u) && KeyFor(p', a', u') == p' + ":" + (a' + ":" + u');
    if KeyFor(p, a, u) == KeyFor(p', a', u') {
      FirstColon(p, p', a + ":" + u, a' + ":" + u');
      FirstColon(a, a', u, u');
    }
  }
}
