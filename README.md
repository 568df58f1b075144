# Plotly relayout listener — a verified model

A small Streamlit component captures the pan/zoom (`plotly_relayout`) events of the Plotly
charts on the host page and posts the visible ranges back to Python. Its script,
`plotly_relayout_listener/listener.js`, does four things that this project models and proves
properties of:

- **Handler** (`Relayout`): each bound chart gets a handler that turns a raw relayout event into a
  viewport payload (`data_id`, `plot_index`, optional `xautorange`/`yautorange`, optional
  `x0`/`x1` and `y0`/`y1`) or drops it when it carries no axis information.
- **Debounced emitter** (`Debounce`): `scheduleSend` sends at once when the last send is at least
  `debounceMs` old, and otherwise keeps the newest value pending and sets a timer. The pure state
  machine takes the clock as a parameter. Outstanding timers are a multiset of due times. The log
  `sent` records what was posted.
- **Binding** (`Binding`): render-message defaults (3 charts, 120 ms, data id `""`). `bindOne`
  replaces the handler remembered on a chart node. `syncBindings` gives chart `i` index `i` for
  the first `min(plot_count, charts found)` charts. One `kickRebindLoop` runs 30 ticks.
- **Listener state** (`Component.Listener`): the script's module-level variables as a class.
  Each method's contract ties its new state to the pure functions above.

Behaviours of the code worth knowing, each stated by the model:

- The code does not make autorange and an explicit range exclusive per axis: an event with
  `xaxis.autorange: true` and both `xaxis.range[...]` ends yields a payload holding both
  (`Relayout.AutorangeAndRangeMayCoexist`).
- The emitter is a throttle with a trailing send, not a quiet-period debounce: every deferred send
  is due when the window opened by the last send closes (`lastSentAt + debounceMs`), however late in
  the window the newest event came (`Debounce.Schedule`, `Debounce.BurstKeepsNewest`).
- Each render message starts a new 30-tick rebind loop and never cancels earlier ones; there is no
  mutation observer, deadline or warning (`Component.Listener.Render`, `Component.Listener.RebindTick`).
- A node records only the handler it remembers; the index and data id are those the handler captured.
- `debounce_ms: 0` and `plot_count: 0` fall back to 120 and 3, because the code uses `||`
  (`Binding.ZeroFallsBackToDefault`).

## Model

| member | source | states |
|---|---|---|
| `Relayout.Handle` | plotly_relayout_listener/listener.js:94-126 | a payload is produced iff the event is an object that has `xaxis.autorange === true`, `yaxis.autorange === true`, or both non-null ends of an axis range; it always carries the bound data id and index; each autorange flag is present (as true) iff the event's value is exactly `true`; `x0`/`x1` (and `y0`/`y1`) are present together, iff both ends are non-null, and equal the event's values |
| `Relayout.RangeEnd` | plotly_relayout_listener/listener.js:105-112 | a range end is copied iff both ends of that axis are non-null, and it is then the event's (non-null) value |
| `Relayout.AutorangeFlag` | plotly_relayout_listener/listener.js:102-103 | the flag is `true` iff the event value is exactly boolean `true`, and absent for every other value |
| `Relayout.OnlyViewportKeysMatter` | plotly_relayout_listener/listener.js:102-122 | events that agree on the six viewport keys give the same outcome; all other keys are ignored |
| `Relayout.AutorangeAndRangeMayCoexist` | plotly_relayout_listener/listener.js:102-108 | every event with `xaxis.autorange === true` and both non-null x range ends yields a payload holding the flag and both ends |
| `Debounce.Initial` | plotly_relayout_listener/listener.js:23-25 | the emitter starts with a 120 ms window, nothing pending, `lastSentAt` 0, no timers, nothing sent |
| `Debounce.DueIn` | plotly_relayout_listener/listener.js:33-34 | the delay is never negative; it is 0 exactly when `t - lastSentAt >= debounceMs`; a positive delay ends at `lastSentAt + debounceMs`; it is at most `debounceMs` when `t >= lastSentAt` and `debounceMs >= 0` |
| `Debounce.Schedule` | plotly_relayout_listener/listener.js:31-47 | with no delay the value is sent now, `lastSentAt` becomes `t`, nothing stays pending and no timer is added; otherwise the value replaces what was pending, nothing is sent, `lastSentAt` is kept and one timer due at `lastSentAt + debounceMs` is added; either way a pending value has a timer |
| `Debounce.Fire` | plotly_relayout_listener/listener.js:41-46 | the fired timer is removed; with nothing pending nothing else changes; with a value pending exactly that value is sent, `lastSentAt` becomes the fire time and nothing stays pending |
| `Debounce.BurstKeepsNewest` | plotly_relayout_listener/listener.js:32-46 | calls inside one window send nothing, keep `lastSentAt`, leave only the newest value pending and add one timer per call, all due when the window closes |
| `Debounce.FireAllIdle` | plotly_relayout_listener/listener.js:42 | timers that find nothing pending change only the set of outstanding timers |
| `Debounce.FlushSendsOnce` | plotly_relayout_listener/listener.js:41-46 | a pending value is sent by the first timer that fires, once, at that timer's fire time; later timers send nothing |
| `Debounce.LastEventWins` | plotly_relayout_listener/listener.js:31-47 | after a burst inside one window, firing every outstanding timer in any order sends exactly the burst's newest value, once, and leaves no timer |
| `Debounce.PendingIsDelivered` | plotly_relayout_listener/listener.js:35-46 | in a state where a pending value has a timer (which `Schedule` and `Fire` always leave), firing the outstanding timers sends it |
| `Debounce.RunSendsOnlyOffered` | plotly_relayout_listener/listener.js:31-47 | over any interleaving of calls, timer callbacks and window changes the log only grows, only offered (or already pending) values are sent, and sends never outnumber calls plus the value pending at the start |
| `Binding.OrDefault` | plotly_relayout_listener/listener.js:137 | `x \|\| d` on a number gives `x` when present and non-zero, `d` otherwise |
| `Binding.ArgsOrEmpty` | plotly_relayout_listener/listener.js:157 | missing render arguments act as arguments with nothing set |
| `Binding.PlotCount` | plotly_relayout_listener/listener.js:137 | the chart count is the given non-zero count, or 3 when absent or 0 |
| `Binding.DebounceMs` | plotly_relayout_listener/listener.js:158 | the debounce window is the given non-zero value, or 120 when absent or 0 |
| `Binding.DataId` | plotly_relayout_listener/listener.js:138 | the data id is the given string, or `""` when absent |
| `Binding.EmptyRenderDefaults` | plotly_relayout_listener/listener.js:157-158 | a render message without arguments means 3 charts, 120 ms and data id `""` |
| `Binding.ZeroFallsBackToDefault` | plotly_relayout_listener/listener.js:137-158 | `debounce_ms: 0` alone gives 120 ms, and `plot_count: 0` alone gives 3 |
| `Binding.BoundCount` | plotly_relayout_listener/listener.js:141-142 | the number of charts bound is at most the number found, at most the chart count (or 0), and equals one of them (0 for a negative count) |
| `Binding.SyncTarget` | plotly_relayout_listener/listener.js:134-142 | chart `i` gets a handler iff arguments have arrived, `i` is below the number found and below the chart count; that handler has index `i` and the current data id |
| `Binding.Rebind` | plotly_relayout_listener/listener.js:86-92 | the node remembers the new handler; with `removeListener` one copy of the remembered handler is removed before the new one is registered, so a node registered with at most its remembered handler ends registered with the new one alone; without it (or on a first bind) the new handler is added to those registered |
| `Binding.RebindKeepsOnlyNewest` | plotly_relayout_listener/listener.js:89-91 | any number of rebinds of a node with `removeListener` leave it registered with the newest handler only |
| `Binding.RebindWithoutRemoveAccumulates` | plotly_relayout_listener/listener.js:89-91 | without `removeListener` every handler ever bound stays registered |
| `Binding.BindOne` | plotly_relayout_listener/listener.js:86-132 | a node without `on` is unchanged; otherwise its new state is `Rebind` of its old state with handler (index, data id) |
| `Binding.SyncBindings` | plotly_relayout_listener/listener.js:134-143 | every located chart ends in the state `SyncTarget` gives it: rebound with index `i` for the first `min(plot_count, found)` charts, untouched otherwise and before any render message |
| `Binding.TickCalls` | plotly_relayout_listener/listener.js:145-152 | a tick that starts with counter `tries < 30` leads to exactly `30 - tries` calls of `syncBindings` |
| `Binding.KickRunsThirtyTicks` | plotly_relayout_listener/listener.js:145-151 | one rebind loop calls `syncBindings` exactly 30 times |
| `Component.Listener.constructor` | plotly_relayout_listener/listener.js:22-25 | initial emitter state, no arguments yet, no rebind loops |
| `Component.Listener.ScheduleSend` | plotly_relayout_listener/listener.js:31-47 | the new emitter state is `Schedule` of the old one; the invariant (pending value has a timer, loop counters in 1..30) is kept |
| `Component.Listener.FireTimer` | plotly_relayout_listener/listener.js:41-46 | the new emitter state is `Fire` of the old one |
| `Component.Listener.Relayout` | plotly_relayout_listener/listener.js:94-126 | an event the handler drops changes nothing; otherwise its payload is scheduled |
| `Component.Listener.Render` | plotly_relayout_listener/listener.js:156-162 | arguments are adopted (`{}` when absent), the window becomes `DebounceMs` of them, nothing else of the emitter changes, a new rebind loop starts with its first tick done and the charts are bound as `SyncTarget` says |
| `Component.Listener.TicksLeft` | plotly_relayout_listener/listener.js:146-150 | a loop whose counter `c` is below 30 calls `syncBindings` exactly `30 - c` more times |
| `Component.Listener.PendingPayloadIsDelivered` | plotly_relayout_listener/listener.js:35-46 | under the listener's invariant, firing all outstanding timers posts the pending payload |
| `Component.Listener.RebindTick` | plotly_relayout_listener/listener.js:147-150 | only a loop whose counter is below 30 has a tick to run; that tick binds with the latest arguments and advances only its own loop's counter |

## Left out

- `sendToStreamlit`, `window.parent.postMessage`, the `componentReady` and `setFrameHeight` messages and
  the `message` listener's envelope checks (`isStreamlitMessage`, the message type): host I/O. Posting a
  value is modelled as appending it to the ghost log `sent`; `Component.Listener.Render` models the
  `streamlit:render` branch.
- `getPlotsFromDoc` / `getAllPlots`: DOM and iframe queries over foreign objects. The located charts are
  a parameter (`plots`), assumed distinct, in container order. The model does not state that there is
  no fallback to other Plotly divs.
- `Date.now` and real `setTimeout` scheduling: time is a parameter, and firing a timer is an explicit
  step that may happen at any time. The 100 ms spacing of rebind ticks is not modelled; a tick is a step.
- The event loop's dispatch of one event to several registered handlers: `Component.Listener.Relayout`
  delivers an event to one handler.
- The `try`/`catch` guards: every guarded operation is treated as succeeding.
- `Number(...)` / `String(...)` coercion: arguments are optional integers and strings, and only the
  `|| default` rule is modelled. Numbers are unbounded integers (time) or reals (range ends).
- Relayout.Handle: event values are null, booleans, numbers (as reals), strings or `Other`; every
  array, object, function or other non-primitive value collapses into the single value `Other`, for
  every key including the six viewport keys, so a range end of that kind is copied into the payload
  only up to this collapse. Number and string range ends keep their content.
- Binding.SyncBindings, Component.Listener.Render, Component.Listener.RebindTick: assume the located
  charts are distinct nodes, that is, that the host page never nests one chart container inside
  another. The code does not remove duplicates; a node located twice would be bound twice, the later
  index winning, and the model does not describe that case.
