/**
 The worker pool that executes the tool calls of one reply: up to three workers share a cursor over the plans. Any
 worker in flight may finish next and the run may be aborted at any moment; whatever happens, the slots filled and the
 calls that reached the registry depend on one number only, the count of plans claimed before the abort.
 */
module ToolPool {
  import opened Common

  const TOOL_CONCURRENCY_LIMIT := 3

  datatype ToolCall = ToolCall(id: string, name: string)

  /** A call after the tool:before hooks. */
  datatype Plan = Plan(call: ToolCall, blocked: bool, blockReason: string)

  datatype ToolOutcome = ToolOutcome(success: bool, text: string)

  /** What the registry answers (or throws) for each plan, should it be asked. */
  type Registry = nat -> ToolOutcome

  const RUN_ABORTED := ToolOutcome(false, "Run aborted")

  function Blocked(plan: Plan): ToolOutcome { ToolOutcome(false, plan.blockReason) }

  /** The slot of plan i when `cut` plans were claimed before the abort. */
  function Slot(plans: seq<Plan>, registry: Registry, cut: nat, i: nat): ToolOutcome
    requires i < |plans|
  {
    if i >= cut then RUN_ABORTED else if plans[i].blocked then Blocked(plans[i]) else registry(i)
  }

  function Filled(plans: seq<Plan>, registry: Registry, cut: nat): (slots: seq<ToolOutcome>)
    ensures |slots| == |plans|
  {
    seq(|plans|, i requires 0 <= i < |plans| => Slot(plans, registry, cut, i))
  }

  /** The plans among the first n that reach the registry, in order. */
  function Unblocked(plans: seq<Plan>, n: nat): (indices: seq<nat>)
    requires n <= |plans|
    ensures forall a :: 0 <= a < |indices| ==> indices[a] < n && !plans[indices[a]].blocked
    ensures forall a, b :: 0 <= a < b < |indices| ==> indices[a] < indices[b]
    ensures forall i :: 0 <= i < n && !plans[i].blocked ==> i in indices
  {
    if n == 0 then []
    else if plans[n - 1].blocked then Unblocked(plans, n - 1)
    else Unblocked(plans, n - 1) + [n - 1]
  }

  /** The slots once `cursor` plans are claimed and these workers are busy: a claimed plan is either in the hands of a
      worker or filled in. */
  ghost predicate SlotsKept(plans: seq<Plan>, registry: Registry, cut: nat, cursor: nat, working: seq<Option<nat>>,
                            results: seq<Option<ToolOutcome>>)
  {
    && |results| == |plans| && cursor <= |plans|
    && forall i :: 0 <= i < |plans| ==>
         results[i] == if i >= cursor || Some(i) in working then None else Some(Slot(plans, registry, cut, i))
  }

  /** No two workers hold the same plan, and those they hold are claimed in time and not blocked. */
  ghost predicate HandsKept(plans: seq<Plan>, limit: nat, working: seq<Option<nat>>)
  {
    && (forall v, w :: 0 <= v < w < |working| && working[v].Some? ==> working[v] != working[w])
    && (forall w :: 0 <= w < |working| && working[w].Some? ==>
         working[w].value < limit && working[w].value < |plans| && !plans[working[w].value].blocked)
  }

  lemma HandsChanged(working: seq<Option<nat>>, w: nat, hand: Option<nat>)
    requires w < |working|
    ensures forall h :: h in working[w := hand] ==> h == hand || h in working
    ensures forall h :: h in working && h != working[w] ==> h in working[w := hand]
    ensures hand in working[w := hand]
  {
    forall h | h in working && h != working[w]
      ensures h in working[w := hand]
    {
      var v :| 0 <= v < |working| && working[v] == h;
      assert working[w := hand][v] == h;
    }
    assert working[w := hand][w] == hand;
  }

  lemma FillKeeps(plans: seq<Plan>, registry: Registry, cut: nat, cursor: nat, working: seq<Option<nat>>,
                  results: seq<Option<ToolOutcome>>)
    requires SlotsKept(plans, registry, cut, cursor, working, results) && HandsKept(plans, Min(cut, cursor), working)
    requires cursor < |plans| && (cursor >= cut || plans[cursor].blocked)
    ensures SlotsKept(plans, registry, cut, cursor + 1, working,
                      results[cursor := Some(Slot(plans, registry, cut, cursor))])
    ensures HandsKept(plans, Min(cut, cursor + 1), working)
  {
  }

  lemma LaunchKeeps(plans: seq<Plan>, registry: Registry, cut: nat, cursor: nat, working: seq<Option<nat>>,
                    results: seq<Option<ToolOutcome>>, w: nat)
    requires SlotsKept(plans, registry, cut, cursor, working, results) && HandsKept(plans, Min(cut, cursor), working)
    requires cursor < |plans| && cursor < cut && !plans[cursor].blocked && w < |working| && working[w].None?
    ensures SlotsKept(plans, registry, cut, cursor + 1, working[w := Some(cursor)], results)
    ensures HandsKept(plans, Min(cut, cursor + 1), working[w := Some(cursor)])
  {
    HandsChanged(working, w, Some(cursor));
  }

  class Pool {
    const plans: seq<Plan>
    const registry: Registry
    /** The next plan to claim; shared by all workers. */
    var cursor: nat
    var aborted: bool
    /** Plans claimed before the abort. */
    var cut: nat
    var results: seq<Option<ToolOutcome>>
    /** The plan each started worker is executing, None once it has returned. */
    var working: seq<Option<nat>>
    /** The calls that reached the registry, in order. */
    var launched: seq<nat>

    ghost predicate Sound()
      reads this
    {
      && SlotsKept(plans, registry, cut, cursor, working, results)
      && HandsKept(plans, Min(cut, cursor), working)
      && (if aborted then cut <= cursor else cut == |plans|)
      && launched == Unblocked(plans, Min(cut, cursor))
      && |working| <= TOOL_CONCURRENCY_LIMIT
    }

    /** A worker returns only when no plan is left. */
    ghost predicate Valid()
      reads this
    {
      Sound() && forall w :: 0 <= w < |working| && working[w].None? ==> cursor == |plans|
    }

    constructor (plans: seq<Plan>, registry: Registry)
      ensures Valid() && working == [] && this.plans == plans && this.registry == registry
    {
      this.plans, this.registry := plans, registry;
      cursor, aborted, cut := 0, false, |plans|;
      results := seq(|plans|, _ => None);
      working, launched := [], [];
    }

    method Abort()
      requires Valid()
      modifies this`aborted, this`cut
      ensures Valid() && cursor <= |plans|
    {
      if !aborted {
        aborted, cut := true, cursor;
      }
    }

    /** A worker claims a plan: it takes it to the registry, or fills its slot at once. */
    method Claim(w: nat)
      requires Sound() && w < |working| && working[w].None? && cursor < |plans|
      modifies this`cursor, this`results, this`working, this`launched
      ensures Sound() && cursor == old(cursor) + 1
      ensures |working| == |old(working)| && forall v :: 0 <= v < |working| && v != w ==> working[v] == old(working)[v]
    {
      hide HandsKept;
      var idx := cursor;
      var plan := plans[idx];
      cursor := cursor + 1;
      if aborted {
        FillKeeps(plans, registry, cut, idx, working, results);
        results := results[idx := Some(RUN_ABORTED)];
      } else if plan.blocked {
        FillKeeps(plans, registry, cut, idx, working, results);
        results := results[idx := Some(Blocked(plan))];
      } else {
        LaunchKeeps(plans, registry, cut, idx, working, results, w);
        launched := launched + [idx];
        working := working[w := Some(idx)];
      }
    }

    /** A worker's loop, from the moment it holds no plan until it awaits the registry or returns. */
    method Work(w: nat)
      requires Sound() && w < |working| && working[w].None?
      requires forall v :: 0 <= v < |working| && v != w && working[v].None? ==> cursor == |plans|
      modifies this`cursor, this`results, this`working, this`launched
      ensures Valid() && cursor >= old(cursor) && |working| == |old(working)|
      ensures forall v :: 0 <= v < |working| && v != w ==> working[v] == old(working)[v]
      ensures working[w].Some? ==> cursor > old(cursor)
    {
      while working[w].None? && cursor < |plans|
        invariant Sound() && cursor >= old(cursor) && |working| == |old(working)|
        invariant forall v :: 0 <= v < |working| && v != w ==> working[v] == old(working)[v]
        invariant working[w].Some? ==> cursor > old(cursor)
        decreases |plans| - cursor
      {
        Claim(w);
      }
    }

    method StartWorker()
      requires Valid() && |working| < TOOL_CONCURRENCY_LIMIT
      modifies this`cursor, this`results, this`working, this`launched
      ensures Valid() && |working| == |old(working)| + 1 && cursor <= |plans|
    {
      working := working + [None];
      assert forall h :: h in working <==> h in old(working) || h == None;
      Work(|working| - 1);
    }

    /** The registry answers worker w, which fills its slot and goes on. */
    method Finish(w: nat)
      requires Valid() && w < |working| && working[w].Some?
      modifies this`cursor, this`results, this`working, this`launched
      ensures Valid() && old(cursor) <= cursor <= |plans| && |working| == |old(working)|
      ensures forall v :: 0 <= v < |working| && v != w ==> working[v] == old(working)[v]
      ensures working[w].Some? ==> cursor > old(cursor)
    {
      var idx := working[w].value;
      results := results[idx := Some(registry(idx))];
      HandsChanged(working, w, None);
      working := working[w := None];
      Work(w);
    }
  }

  ghost function Busy(working: seq<Option<nat>>): (busy: set<nat>)
    ensures forall w :: w in busy <==> 0 <= w < |working| && working[w].Some?
  {
    set w: nat | 0 <= w < |working| && working[w].Some?
  }

  lemma BusyShrinks(before: seq<Option<nat>>, after: seq<Option<nat>>, w: nat)
    requires |before| == |after| && w < |before| && before[w].Some? && after[w].None?
    requires forall v :: 0 <= v < |before| && v != w ==> after[v] == before[v]
    ensures Busy(after) < Busy(before)
  {
    assert w in Busy(before) && w !in Busy(after);
  }

  function Values<T>(slots: seq<Option<T>>): (values: seq<T>)
    requires forall i :: 0 <= i < |slots| ==> slots[i].Some?
    ensures |values| == |slots| && forall i :: 0 <= i < |slots| ==> values[i] == slots[i].value
  {
    seq(|slots|, i requires 0 <= i < |slots| => slots[i].value)
  }

  /** Nobody is busy: every plan was claimed and every slot is filled. */
  lemma AllFilled(pool: Pool)
    requires pool.Valid() && (forall w :: 0 <= w < |pool.working| ==> pool.working[w].None?) && (pool.plans == [] || pool.working != [])
    ensures pool.cursor == |pool.plans| && |pool.results| == |pool.plans|
    ensures forall i :: 0 <= i < |pool.plans| ==>
              pool.results[i] == Some(Slot(pool.plans, pool.registry, pool.cut, i))
  {
    assert pool.plans != [] ==> pool.working[0].None?;
  }

  /** How many workers await the registry. */
  function InFlight(working: seq<Option<nat>>): (n: nat)
    ensures n <= |working|
  {
    if working == [] then 0 else InFlight(working[1..]) + if working[0].Some? then 1 else 0
  }

  /** The workers are started one after the other. */
  method StartWorkers(pool: Pool, workers: nat) returns (peak: nat)
    requires pool.Valid() && pool.working == [] && workers <= TOOL_CONCURRENCY_LIMIT && pool.cursor <= |pool.plans|
    modifies pool
    ensures pool.Valid() && |pool.working| == workers && peak <= workers && pool.cursor <= |pool.plans|
  {
    hide Pool.Valid, InFlight;
    peak := 0;
    while |pool.working| < workers
      invariant pool.Valid() && |pool.working| <= workers && peak <= workers && pool.cursor <= |pool.plans|
    {
      if * { pool.Abort(); }
      pool.StartWorker();
      peak := Max(peak, InFlight(pool.working));
    }
  }

  /** Any busy worker may finish next. */
  method AwaitWorkers(pool: Pool, workers: nat, before: nat) returns (peak: nat)
    requires pool.Valid() && |pool.working| == workers && before <= workers && pool.cursor <= |pool.plans|
    modifies pool
    ensures pool.Valid() && |pool.working| == workers && peak <= workers
    ensures forall w :: 0 <= w < |pool.working| ==> pool.working[w].None?
  {
    hide Pool.Valid, InFlight;
    peak := before;
    while exists w :: 0 <= w < |pool.working| && pool.working[w].Some?
      invariant pool.Valid() && |pool.working| == workers && peak <= workers && pool.cursor <= |pool.plans|
      decreases |pool.plans| - pool.cursor, Busy(pool.working)
    {
      if * { pool.Abort(); }
      var w :| 0 <= w < |pool.working| && pool.working[w].Some?;
      ghost var busy := pool.working;
      pool.Finish(w);
      peak := Max(peak, InFlight(pool.working));
      if pool.working[w].None? { BusyShrinks(busy, pool.working, w); }
    }
  }

  /** Executes a list of plans under an arbitrary schedule. Afterwards every slot is filled and no worker is left: the
      plans claimed before the abort have the answer of the registry or the reason they were blocked, the others are
      marked as aborted, and exactly the unblocked plans claimed before the abort were executed, once and in order;
      never more than three at a time. */
  method RunPool(plans: seq<Plan>, registry: Registry)
    returns (results: seq<ToolOutcome>, launched: seq<nat>, cut: nat, peak: nat)
    ensures cut <= |plans| && results == Filled(plans, registry, cut) && launched == Unblocked(plans, cut)
    ensures forall i :: 0 <= i < |plans| ==>
              results[i] == if i >= cut then ToolOutcome(false, "Run aborted")
                            else if plans[i].blocked then ToolOutcome(false, plans[i].blockReason) else registry(i)
    ensures peak <= 3 && peak <= |plans|
  {
    var pool := new Pool(plans, registry);
    var workers := Min(TOOL_CONCURRENCY_LIMIT, |plans|);
    peak := StartWorkers(pool, workers);
    assert pool.cursor <= |pool.plans|;
    peak := AwaitWorkers(pool, workers, peak);
    AllFilled(pool);
    results := Values(pool.results);
    launched, cut := pool.launched, pool.cut;
  }
}
