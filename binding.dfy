/**
 * Binding of relayout handlers to chart nodes in
 * plotly_relayout_listener/listener.js: the defaults applied to the render
 * message's arguments (lines 137-138, 157-158), `bindOne`'s replacement of a
 * node's handler (lines 86-92, 128-131), the index assignment of
 * `syncBindings` (lines 134-143) and the tick counter of `kickRebindLoop`
 * (lines 145-152).
 */
module Binding {
  import opened Wrappers

  /**
   * The arguments of a render message. `None` is an absent property; coercion
   * of other JavaScript values by `Number(...)`/`String(...)` is not modelled.
   */
  datatype RenderArgs = RenderArgs(plotCount: Option<int>, dataId: Option<string>, debounceMs: Option<int>)

  const DefaultPlotCount := 3
  const DefaultDebounceMs := 120
  /** How many times one rebind loop runs its tick. */
  const MaxTries := 30

  /** `x || d` for a number `x`: absent and `0` are both falsy. */
  function OrDefault(o: Option<int>, d: int): (r: int)
    ensures o.Some? && o.value != 0 ==> r == o.value
    ensures o.None? || o.value == 0 ==> r == d
  {
    if o.Some? && o.value != 0 then o.value else d
  }

  /** `event.data.args || {}`: a render message without arguments acts as one with none set. */
  function ArgsOrEmpty(raw: Option<RenderArgs>): (a: RenderArgs)
    ensures raw.Some? ==> a == raw.value
    ensures raw.None? ==> a.plotCount.None? && a.dataId.None? && a.debounceMs.None?
  {
    raw.GetOr(RenderArgs(None, None, None))
  }

  /** `Number(latestArgs.plot_count || 3)` */
  function PlotCount(a: RenderArgs): (n: int)
    ensures n != 0
    ensures a.plotCount.None? || a.plotCount == Some(0) ==> n == DefaultPlotCount
    ensures a.plotCount.Some? && a.plotCount.value != 0 ==> n == a.plotCount.value
  {
    OrDefault(a.plotCount, DefaultPlotCount)
  }

  /** `Number(latestArgs.debounce_ms || 120)` */
  function DebounceMs(a: RenderArgs): (ms: int)
    ensures ms != 0
    ensures a.debounceMs.None? || a.debounceMs == Some(0) ==> ms == DefaultDebounceMs
    ensures a.debounceMs.Some? && a.debounceMs.value != 0 ==> ms == a.debounceMs.value
  {
    OrDefault(a.debounceMs, DefaultDebounceMs)
  }

  /** `String(latestArgs.data_id || "")`: for a string, `|| ""` only replaces an absent id. */
  function DataId(a: RenderArgs): (id: string)
    ensures a.dataId.Some? ==> id == a.dataId.value
    ensures a.dataId.None? ==> id == ""
  {
    if a.dataId.Some? && a.dataId.value != "" then a.dataId.value else ""
  }

  /** A render message without arguments binds three charts, debounces by 120 ms and uses data id "". */
  lemma EmptyRenderDefaults()
    ensures var a := ArgsOrEmpty(None);
      PlotCount(a) == 3 && DebounceMs(a) == 120 && DataId(a) == ""
  {
  }

  /** `debounce_ms: 0` cannot switch debouncing off: it falls back to 120 ms, as `plot_count: 0` falls back to 3. */
  lemma ZeroFallsBackToDefault(a: RenderArgs)
    ensures a.debounceMs == Some(0) ==> DebounceMs(a) == 120
    ensures a.plotCount == Some(0) ==> PlotCount(a) == 3
  {
  }

  function Min(a: int, b: int): int { if a < b then a else b }

  /**
   * How many located charts `syncBindings` binds: the loop bound
   * `Math.min(plotCount, plots.length)`, which runs no iteration when negative.
   */
  function BoundCount(plotCount: int, available: nat): (n: nat)
    ensures n <= available
    ensures n == 0 || n <= plotCount
    ensures n == available || n == plotCount || (n == 0 && plotCount < 0)
  {
    if plotCount <= 0 then 0 else Min(plotCount, available)
  }

  /**
   * The handler that `syncBindings` gives to the chart at position `i` of a
   * list of `available` located charts, or `None` when it leaves it alone.
   */
  function SyncTarget(latest: Option<RenderArgs>, available: nat, i: nat): (h: Option<Handler>)
    ensures h.Some? <==> latest.Some? && i < available && i < PlotCount(latest.value)
    ensures h.Some? ==> h.value == Handler(i, DataId(latest.value))
  {
    if latest.Some? && i < BoundCount(PlotCount(latest.value), available)
    then Some(Handler(i, DataId(latest.value)))
    else None
  }

  /* ---------------------------------------------------------------------------
   * Handlers on a chart node.
   * ------------------------------------------------------------------------- */

  /**
   * A relayout handler, identified by the chart index and data id its closure
   * captures; its behaviour is `Relayout.Handle(_, dataId, index)`.
   */
  datatype Handler = Handler(index: int, dataId: string)

  /**
   * What a chart node holds: the handler remembered in `__fsRelayoutHandler`
   * and the handlers registered with the chart for `plotly_relayout`.
   */
  datatype NodeState = NodeState(current: Option<Handler>, listeners: multiset<Handler>)

  /** The node is registered with exactly the handler it remembers, or with none. */
  ghost predicate OnlyCurrent(s: NodeState) {
    s.listeners == if s.current.Some? then multiset{s.current.value} else multiset{}
  }

  /**
   * `bindOne` on a node that has `on`: the remembered handler is detached when
   * the node also has `removeListener`, then `h` is remembered and registered.
   */
  function Rebind(s: NodeState, canRemove: bool, h: Handler): (r: NodeState)
    ensures r.current == Some(h)
    ensures canRemove && OnlyCurrent(s) ==> r.listeners == multiset{h} && OnlyCurrent(r)
    ensures canRemove && s.listeners <= (if s.current.Some? then multiset{s.current.value} else multiset{}) ==>
      r.listeners == multiset{h}
    ensures canRemove && s.current.Some? ==>
      r.listeners == s.listeners - multiset{s.current.value} + multiset{h}
    ensures !canRemove || s.current.None? ==> r.listeners == s.listeners + multiset{h}
    ensures |r.listeners| <= |s.listeners| + 1
  {
    var kept := if s.current.Some? && canRemove then s.listeners - multiset{s.current.value} else s.listeners;
    NodeState(Some(h), kept + multiset{h})
  }

  /** `bindOne` for each handler of `hs`, in order. */
  function RebindAll(s: NodeState, canRemove: bool, hs: seq<Handler>): NodeState
    decreases |hs|
  {
    if hs == [] then s else RebindAll(Rebind(s, canRemove, hs[0]), canRemove, hs[1..])
  }

  /**
   * However often a node that supports `removeListener` is rebound, it ends up
   * registered with the newest handler only.
   */
  lemma {:induction false} RebindKeepsOnlyNewest(s: NodeState, hs: seq<Handler>)
    requires OnlyCurrent(s) && hs != []
    ensures RebindAll(s, true, hs).current == Some(hs[|hs| - 1])
    ensures RebindAll(s, true, hs).listeners == multiset{hs[|hs| - 1]}
    decreases |hs|
  {
    var s1 := Rebind(s, true, hs[0]);
    if |hs| > 1 {
      RebindKeepsOnlyNewest(s1, hs[1..]);
    }
  }

  /** Without `removeListener`, every rebind leaves the older handlers registered. */
  lemma {:induction false} RebindWithoutRemoveAccumulates(s: NodeState, hs: seq<Handler>)
    ensures RebindAll(s, false, hs).listeners == s.listeners + multiset(hs)
    decreases |hs|
  {
    if hs != [] {
      RebindWithoutRemoveAccumulates(Rebind(s, false, hs[0]), hs[1..]);
      assert hs == [hs[0]] + hs[1..];
    }
  }

  /** A chart node (a Plotly graph div) with the fields `bindOne` reads and writes. */
  class PlotNode {
    /** `gd.on` exists. */
    const hasOn: bool
    /** `gd.removeListener` exists. */
    const hasRemoveListener: bool
    /** `gd.__fsRelayoutHandler` */
    var current: Option<Handler>
    /** The handlers registered for `plotly_relayout`. */
    var listeners: multiset<Handler>

    constructor (hasOn: bool, hasRemoveListener: bool)
      ensures this.hasOn == hasOn && this.hasRemoveListener == hasRemoveListener
      ensures State() == NodeState(None, multiset{})
    {
      this.hasOn := hasOn;
      this.hasRemoveListener := hasRemoveListener;
      current := None;
      listeners := multiset{};
    }

    function State(): NodeState
      reads this
    {
      NodeState(current, listeners)
    }
  }

  /** `bindOne(gd, idx, dataId)`: a node without `on` is left as it is. */
  method BindOne(gd: PlotNode, idx: int, dataId: string)
    modifies gd
    ensures gd.State() ==
      if gd.hasOn then Rebind(old(gd.State()), gd.hasRemoveListener, Handler(idx, dataId))
      else old(gd.State())
  {
    if !gd.hasOn {
      return;
    }
    if gd.current.Some? && gd.hasRemoveListener {
      gd.listeners := gd.listeners - multiset{gd.current.value};
    }
    var handler := Handler(idx, dataId);
    gd.current := Some(handler);
    gd.listeners := gd.listeners + multiset{handler};
  }

  /** No chart node appears twice in a located list. */
  ghost predicate Distinct(plots: seq<PlotNode>) {
    forall i, j :: 0 <= i < j < |plots| ==> plots[i] != plots[j]
  }

  /** The state `syncBindings` leaves on the chart at position `i`. */
  ghost function SyncedState(latest: Option<RenderArgs>, available: nat, i: nat, node: PlotNode, before: NodeState): NodeState
  {
    var h := SyncTarget(latest, available, i);
    if h.Some? && node.hasOn then Rebind(before, node.hasRemoveListener, h.value) else before
  }

  /**
   * `syncBindings()` over the charts located now: the first
   * `min(plotCount, plots.length)` of them get handlers for indices 0, 1, ...,
   * tagged with the data id; the others are untouched. Nothing is bound before
   * the first render message.
   */
  method SyncBindings(latest: Option<RenderArgs>, plots: seq<PlotNode>)
    requires Distinct(plots)
    modifies set p | p in plots
    ensures forall i :: 0 <= i < |plots| ==>
      plots[i].State() == SyncedState(latest, |plots|, i, plots[i], old(plots[i].State()))
  {
    if latest.None? {
      return;
    }
    var a := latest.value;
    var n := BoundCount(PlotCount(a), |plots|);
    var dataId := DataId(a);
    for i := 0 to n
      invariant forall j :: 0 <= j < |plots| ==>
        plots[j].State() == if j < i then SyncedState(latest, |plots|, j, plots[j], old(plots[j].State()))
                            else old(plots[j].State())
    {
      BindOne(plots[i], i, dataId);
    }
  }

  /**
   * How many times `tick` calls `syncBindings` when it starts with the counter
   * at `tries`, counting the ticks it schedules in turn.
   */
  function TickCalls(tries: nat): (calls: nat)
    ensures tries < MaxTries ==> calls == MaxTries - tries
    ensures tries >= MaxTries ==> calls == 1
    decreases MaxTries - tries
  {
    1 + if tries + 1 < MaxTries then TickCalls(tries + 1) else 0
  }

  /** `kickRebindLoop` makes `syncBindings` run exactly 30 times. */
  lemma KickRunsThirtyTicks()
    ensures TickCalls(0) == 30
  {
  }
}
