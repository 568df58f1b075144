/**
 * The debounced emitter of plotly_relayout_listener/listener.js (lines 22-47):
 * the module state `pending`, `lastSentAt` and `debounceMs`, the function
 * `scheduleSend` and the timer callback it schedules.
 *
 * The clock is an explicit parameter, each outstanding `setTimeout` is kept as
 * its absolute due time in a multiset, and the values handed to
 * `setComponentValue` are appended to the log `sent`. Nothing here assumes that
 * a timer fires punctually: the fire step accepts any fire time.
 */
module Debounce {
  import opened Wrappers

  datatype Emitter<V> = Emitter(
    debounceMs: int,
    pending: Option<V>,
    lastSentAt: int,
    timers: multiset<int>,
    sent: seq<V>)

  /** The state when the script loads: 120 ms window, nothing pending, last send at time 0. */
  function Initial<V>(): (e: Emitter<V>)
    ensures e.debounceMs == 120 && e.pending == None && e.lastSentAt == 0
    ensures e.timers == multiset{} && e.sent == []
  {
    Emitter(120, None, 0, multiset{}, [])
  }

  function Max(a: int, b: int): int { if a < b then b else a }

  /**
   * `Math.max(0, debounceMs - (t - lastSentAt))`: how long a value offered at
   * time `t` has to wait.
   */
  function DueIn(debounceMs: int, t: int, lastSentAt: int): (d: int)
    ensures 0 <= d
    ensures d == 0 <==> t - lastSentAt >= debounceMs
    ensures d > 0 ==> t + d == lastSentAt + debounceMs
    ensures t >= lastSentAt && debounceMs >= 0 ==> d <= debounceMs
  {
    Max(0, debounceMs - (t - lastSentAt))
  }

  /** Every pending value has a timer outstanding that will look at it. */
  ghost predicate Flushable<V>(e: Emitter<V>) {
    e.pending.Some? ==> |e.timers| > 0
  }

  /** `scheduleSend(v)` called at time `t`. */
  function Schedule<V>(e: Emitter<V>, v: V, t: int): (r: Emitter<V>)
    ensures r.debounceMs == e.debounceMs && Flushable(r)
    ensures DueIn(e.debounceMs, t, e.lastSentAt) == 0 ==>
      && r.sent == e.sent + [v]
      && r.lastSentAt == t
      && r.pending == None
      && r.timers == e.timers
    ensures DueIn(e.debounceMs, t, e.lastSentAt) > 0 ==>
      && r.sent == e.sent
      && r.lastSentAt == e.lastSentAt
      && r.pending == Some(v)
      && r.timers == e.timers + multiset{e.lastSentAt + e.debounceMs}
  {
    var dueIn := DueIn(e.debounceMs, t, e.lastSentAt);
    if dueIn == 0 then
      e.(lastSentAt := t, pending := None, sent := e.sent + [v])
    else
      e.(pending := Some(v), timers := e.timers + multiset{t + dueIn})
  }

  /** The timer due at `due` runs its callback at time `now`. */
  function Fire<V>(e: Emitter<V>, due: int, now: int): (r: Emitter<V>)
    requires due in e.timers
    ensures r.timers == e.timers - multiset{due}
    ensures r.debounceMs == e.debounceMs && r.pending == None && Flushable(r)
    ensures e.pending == None ==> r == e.(timers := e.timers - multiset{due})
    ensures e.pending.Some? ==> r.sent == e.sent + [e.pending.value] && r.lastSentAt == now
  {
    var rest := e.timers - multiset{due};
    match e.pending
    case None => e.(timers := rest)
    case Some(v) => e.(timers := rest, lastSentAt := now, pending := None, sent := e.sent + [v])
  }

  /* ---------------------------------------------------------------------------
   * Bursts: several values offered inside one window, then every timer firing.
   * ------------------------------------------------------------------------- */

  /** `scheduleSend(vs[i])` at time `ts[i]`, in order. */
  function ScheduleBurst<V>(e: Emitter<V>, vs: seq<V>, ts: seq<int>): Emitter<V>
    requires |vs| == |ts|
    decreases |vs|
  {
    if vs == [] then e else ScheduleBurst(Schedule(e, vs[0], ts[0]), vs[1..], ts[1..])
  }

  /** Every time in `ts` falls before the window opened by the last send closes. */
  ghost predicate WithinWindow<V>(e: Emitter<V>, ts: seq<int>) {
    forall i :: 0 <= i < |ts| ==> ts[i] - e.lastSentAt < e.debounceMs
  }

  /** `n` copies of `x`. */
  function Copies(x: int, n: nat): (m: multiset<int>)
    ensures m[x] == n && |m| == n
    ensures forall y :: y != x ==> m[y] == 0
  {
    multiset{}[x := n]
  }

  lemma CopiesSucc(x: int, n: nat)
    ensures Copies(x, n) + multiset{x} == Copies(x, n + 1)
  {
    var a, b := Copies(x, n) + multiset{x}, Copies(x, n + 1);
    forall y ensures a[y] == b[y] {}
  }

  /** The timer callbacks for `dues[i]` run one after another, the i-th at `nows[i]`. */
  function FireAll<V>(e: Emitter<V>, dues: seq<int>, nows: seq<int>): Emitter<V>
    requires |dues| == |nows|
    requires multiset(dues) <= e.timers
    decreases |dues|
  {
    if dues == [] then e
    else
      assert dues == [dues[0]] + dues[1..];
      FireAll(Fire(e, dues[0], nows[0]), dues[1..], nows[1..])
  }

  /**
   * Inside one window the emitter keeps only the newest value, sends nothing,
   * and leaves one timer per call, all due when the window closes.
   */
  lemma {:induction false} BurstKeepsNewest<V>(e: Emitter<V>, vs: seq<V>, ts: seq<int>)
    requires |vs| == |ts| > 0
    requires WithinWindow(e, ts)
    ensures var r := ScheduleBurst(e, vs, ts);
      && r.pending == Some(vs[|vs| - 1])
      && r.sent == e.sent
      && r.lastSentAt == e.lastSentAt
      && r.debounceMs == e.debounceMs
      && r.timers == e.timers + Copies(e.lastSentAt + e.debounceMs, |vs|)
    decreases |vs|
  {
    var d := e.lastSentAt + e.debounceMs;
    var e1 := Schedule(e, vs[0], ts[0]);
    assert DueIn(e.debounceMs, ts[0], e.lastSentAt) > 0;
    assert e1 == e.(pending := Some(vs[0]), timers := e.timers + multiset{d});
    assert ScheduleBurst(e, vs, ts) == ScheduleBurst(e1, vs[1..], ts[1..]);
    CopiesSucc(d, |vs| - 1);
    if |vs| > 1 {
      assert WithinWindow(e1, ts[1..]) by {
        forall i | 0 <= i < |ts[1..]| ensures ts[1..][i] - e1.lastSentAt < e1.debounceMs {
          assert ts[1..][i] == ts[i + 1];
        }
      }
      BurstKeepsNewest(e1, vs[1..], ts[1..]);
      assert e1.timers + Copies(d, |vs| - 1) == e.timers + Copies(d, |vs|);
    }
  }

  /** Timers that find nothing pending change nothing but the set of timers. */
  lemma {:induction false} FireAllIdle<V>(e: Emitter<V>, dues: seq<int>, nows: seq<int>)
    requires |dues| == |nows|
    requires multiset(dues) <= e.timers
    requires e.pending == None
    ensures FireAll(e, dues, nows) == e.(timers := e.timers - multiset(dues))
    decreases |dues|
  {
    if dues != [] {
      assert dues == [dues[0]] + dues[1..];
      var e1 := Fire(e, dues[0], nows[0]);
      FireAllIdle(e1, dues[1..], nows[1..]);
    }
  }

  /**
   * A pending value is sent exactly once, by the first timer to fire, whose
   * fire time becomes `lastSentAt`; the timers after it send nothing.
   */
  lemma FlushSendsOnce<V>(e: Emitter<V>, dues: seq<int>, nows: seq<int>)
    requires |dues| == |nows| > 0
    requires multiset(dues) <= e.timers
    requires e.pending.Some?
    ensures var r := FireAll(e, dues, nows);
      && r.sent == e.sent + [e.pending.value]
      && r.pending == None
      && r.lastSentAt == nows[0]
      && r.timers == e.timers - multiset(dues)
  {
    assert dues == [dues[0]] + dues[1..];
    var e1 := Fire(e, dues[0], nows[0]);
    FireAllIdle(e1, dues[1..], nows[1..]);
  }

  /**
   * Last event wins: after a burst of calls inside one window, letting every
   * outstanding timer fire (in any order, at any times) sends the newest value
   * of the burst, once, and nothing else.
   */
  lemma LastEventWins<V>(e: Emitter<V>, vs: seq<V>, ts: seq<int>, dues: seq<int>, nows: seq<int>)
    requires |vs| == |ts| > 0
    requires WithinWindow(e, ts)
    requires |dues| == |nows|
    requires multiset(dues) == ScheduleBurst(e, vs, ts).timers
    ensures var r := FireAll(ScheduleBurst(e, vs, ts), dues, nows);
      && r.sent == e.sent + [vs[|vs| - 1]]
      && r.pending == None
      && r.timers == multiset{}
  {
    var b := ScheduleBurst(e, vs, ts);
    BurstKeepsNewest(e, vs, ts);
    assert |b.timers| >= |vs| > 0;
    assert |dues| > 0 by { assert |multiset(dues)| == |dues|; }
    FlushSendsOnce(b, dues, nows);
  }

  /** A pending value is never stranded: firing the outstanding timers delivers it. */
  lemma PendingIsDelivered<V>(e: Emitter<V>, dues: seq<int>, nows: seq<int>)
    requires Flushable(e) && e.pending.Some?
    requires |dues| == |nows|
    requires multiset(dues) == e.timers
    ensures FireAll(e, dues, nows).sent == e.sent + [e.pending.value]
  {
    assert |multiset(dues)| == |dues|;
    FlushSendsOnce(e, dues, nows);
  }

  /* ---------------------------------------------------------------------------
   * Arbitrary interleavings of calls, timer callbacks and reconfiguration.
   * ------------------------------------------------------------------------- */

  datatype Step<V> =
    | Call(v: V, t: int)          // scheduleSend(v) at time t
    | Timer(due: int, now: int)   // the timer due at `due` fires at `now`
    | Configure(ms: int)          // a render message sets debounceMs

  /** Runs the steps in order; a `Timer` step naming no outstanding timer cannot happen and changes nothing. */
  function Run<V>(e: Emitter<V>, steps: seq<Step<V>>): Emitter<V>
    decreases |steps|
  {
    if steps == [] then e
    else
      var e1 := match steps[0]
        case Call(v, t) => Schedule(e, v, t)
        case Timer(due, now) => if due in e.timers then Fire(e, due, now) else e
        case Configure(ms) => e.(debounceMs := ms);
      Run(e1, steps[1..])
  }

  /** The values offered by the `Call` steps, in order. */
  function Calls<V>(steps: seq<Step<V>>): seq<V>
  {
    if steps == [] then []
    else (if steps[0].Call? then [steps[0].v] else []) + Calls(steps[1..])
  }

  function PendingCount<V>(e: Emitter<V>): nat { if e.pending.Some? then 1 else 0 }

  /**
   * Whatever happens, the log only grows; nothing is sent that was not offered
   * (or already pending); and the values sent plus the one left pending never
   * outnumber the calls plus what was sent or pending at the start.
   */
  lemma {:induction false} RunSendsOnlyOffered<V>(e: Emitter<V>, steps: seq<Step<V>>)
    ensures var r := Run(e, steps);
      && e.sent <= r.sent
      && |r.sent| + PendingCount(r) <= |e.sent| + PendingCount(e) + |Calls(steps)|
      && (forall x :: x in r.sent[|e.sent|..] ==> x in Calls(steps) || e.pending == Some(x))
      && (r.pending.Some? ==> r.pending.value in Calls(steps) || r.pending == e.pending)
    decreases |steps|
  {
    if steps != [] {
      var e1 := match steps[0]
        case Call(v, t) => Schedule(e, v, t)
        case Timer(due, now) => if due in e.timers then Fire(e, due, now) else e
        case Configure(ms) => e.(debounceMs := ms);
      assert Run(e, steps) == Run(e1, steps[1..]);
      RunSendsOnlyOffered(e1, steps[1..]);
      var r := Run(e, steps);
      var head := if steps[0].Call? then [steps[0].v] else [];
      assert Calls(steps) == head + Calls(steps[1..]);
      assert e1.sent == e.sent || e1.sent == e.sent + [if steps[0].Call? then steps[0].v else e.pending.value];
      forall x | x in r.sent[|e.sent|..] ensures x in Calls(steps) || e.pending == Some(x) {
        var k :| |e.sent| <= k < |r.sent| && r.sent[k] == x;
        if k >= |e1.sent| {
          assert x in r.sent[|e1.sent|..] by { assert r.sent[|e1.sent|..][k - |e1.sent|] == x; }
        } else {
          assert e1.sent[k] == x;
        }
      }
    }
  }
}
