/**
 * The module-level state of plotly_relayout_listener/listener.js and the
 * operations that change it: `scheduleSend` and its timer callback
 * (lines 22-47), a relayout event reaching a bound handler (lines 94-126),
 * the `streamlit:render` message (lines 156-162) and the ticks of the rebind
 * loops it starts (lines 145-152).
 */
module Component {
  import opened Wrappers
  import opened Relayout
  import opened Debounce
  import opened Binding

  class Listener {
    /** `latestArgs`: `None` until the first render message. */
    var latestArgs: Option<RenderArgs>
    var debounceMs: int
    var pending: Option<Payload>
    var lastSentAt: int
    /** Due times of the outstanding `setTimeout` callbacks of `scheduleSend`. */
    var timers: multiset<int>
    /** The values posted with `streamlit:setComponentValue`, oldest first. */
    ghost var sent: seq<Payload>
    /**
     * The `tries` counter of every rebind loop started so far, oldest first.
     * A loop whose counter is below 30 still has a tick scheduled; loops are
     * never cancelled.
     */
    var loops: seq<nat>

    ghost predicate Valid()
      reads this
    {
      && Flushable(Emitter())
      && forall k :: 0 <= k < |loops| ==> 1 <= loops[k] <= MaxTries
    }

    /** The emitter part of the state. */
    ghost function Emitter(): Emitter<Payload>
      reads this
    {
      Debounce.Emitter(debounceMs, pending, lastSentAt, timers, sent)
    }

    /** The script has just loaded. */
    constructor ()
      ensures Valid()
      ensures Emitter() == Initial() && latestArgs == None && loops == []
    {
      latestArgs := None;
      debounceMs := 120;
      pending := None;
      lastSentAt := 0;
      timers := multiset{};
      sent := [];
      loops := [];
    }

    /** `scheduleSend(value)` at time `t`. */
    method ScheduleSend(value: Payload, t: int)
      requires Valid()
      modifies this
      ensures Valid()
      ensures Emitter() == Schedule(old(Emitter()), value, t)
      ensures latestArgs == old(latestArgs) && loops == old(loops)
    {
      pending := Some(value);
      var dueIn := DueIn(debounceMs, t, lastSentAt);
      if dueIn == 0 {
        lastSentAt := t;
        sent := sent + [pending.value];
        pending := None;
        return;
      }
      timers := timers + multiset{t + dueIn};
    }

    /** The timer callback of `scheduleSend` scheduled for `due` runs at time `now`. */
    method FireTimer(due: int, now: int)
      requires Valid() && due in timers
      modifies this
      ensures Valid()
      ensures Emitter() == Fire(old(Emitter()), due, now)
      ensures latestArgs == old(latestArgs) && loops == old(loops)
    {
      timers := timers - multiset{due};
      if pending.None? {
        return;
      }
      lastSentAt := now;
      sent := sent + [pending.value];
      pending := None;
    }

    /** A relayout event `evt` reaches handler `h` at time `t`. */
    method Relayout(h: Handler, evt: Event, t: int)
      requires Valid()
      modifies this
      ensures Valid()
      ensures Emitter() ==
        match Handle(evt, h.dataId, h.index)
        case None => old(Emitter())
        case Some(p) => Schedule(old(Emitter()), p, t)
      ensures latestArgs == old(latestArgs) && loops == old(loops)
    {
      var payload := Handle(evt, h.dataId, h.index);
      if payload.Some? {
        ScheduleSend(payload.value, t);
      }
    }

    /**
     * A `streamlit:render` message with arguments `raw`, while `plots` are the
     * charts that can be located: adopt the arguments, set the debounce window,
     * and start a new rebind loop, whose first tick runs at once.
     */
    method Render(raw: Option<RenderArgs>, plots: seq<PlotNode>)
      requires Valid() && Distinct(plots)
      modifies this, set p | p in plots
      ensures Valid()
      ensures latestArgs == Some(ArgsOrEmpty(raw))
      ensures Emitter() == old(Emitter()).(debounceMs := DebounceMs(ArgsOrEmpty(raw)))
      ensures loops == old(loops) + [1]
      ensures forall i :: 0 <= i < |plots| ==>
        plots[i].State() == SyncedState(latestArgs, |plots|, i, plots[i], old(plots[i].State()))
    {
      var args := ArgsOrEmpty(raw);
      latestArgs := Some(args);
      debounceMs := DebounceMs(args);
      SyncBindings(latestArgs, plots);
      loops := loops + [1];
    }

    /** Rebind loop `k` still has a tick scheduled: `tries < 30` held after its last tick. */
    ghost predicate TickScheduled(k: nat)
      reads this
    {
      k < |loops| && loops[k] < MaxTries
    }

    /** A loop with a tick scheduled at counter `c` runs `syncBindings` `30 - c` more times. */
    lemma TicksLeft(k: nat)
      requires Valid() && TickScheduled(k)
      ensures TickCalls(loops[k]) == MaxTries - loops[k]
    {
    }

    /**
     * Under the invariant, a pending payload is never stranded: firing the
     * outstanding timers, in any order and at any times, posts it.
     */
    lemma PendingPayloadIsDelivered(dues: seq<int>, nows: seq<int>)
      requires Valid() && pending.Some?
      requires |dues| == |nows| && multiset(dues) == timers
      ensures FireAll(Emitter(), dues, nows).sent == sent + [pending.value]
    {
      PendingIsDelivered(Emitter(), dues, nows);
    }

    /**
     * The scheduled tick of rebind loop `k` runs while `plots` are the charts
     * that can be located; it binds with the latest arguments, not with those
     * of the render message that started the loop.
     */
    method RebindTick(k: nat, plots: seq<PlotNode>)
      requires Valid() && Distinct(plots)
      requires TickScheduled(k)
      modifies set p | p in plots, this`loops
      ensures Valid()
      ensures loops == old(loops)[k := old(loops)[k] + 1]
      ensures latestArgs == old(latestArgs) && Emitter() == old(Emitter())
      ensures forall i :: 0 <= i < |plots| ==>
        plots[i].State() == SyncedState(latestArgs, |plots|, i, plots[i], old(plots[i].State()))
    {
      SyncBindings(latestArgs, plots);
      loops := loops[k := loops[k] + 1];
    }
  }
}
