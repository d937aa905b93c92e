# fastatsd recording core in Dafny

This project models the sequential core of `fastatsd`, a statsd client. Its
`FastatsClient` facade turns each recording call (`timing`, `incr`, `decr`,
`gauge`, `set`) into pushes of metric events into a pending collector (a
`cystatsd.MetricCollector`). It prefixes each key with the configured prefix
and drops the call when the sampling draw exceeds the rate. Its `Timer`
measures an interval and reports it as one `timing` call.

The model, module by module:

- `Wrappers` holds `Option` and `Outcome`. They stand for Python's `None`
  and for the `RuntimeError` a timer raises on misuse.
- `Collector` holds the pending events of the collector. Each `Event` is
  (kind, key, value, rate, delta flag). It also states two invariants of a
  pending batch: every key carries the prefix, and every negative absolute
  gauge directly follows a reset of the same key to zero.
- `TimerSpec` is the timer's state machine (`ms`, `_sent`, `_start_time`)
  as pure functions. It proves that a timer makes at most one timing call
  per `start`.
- `Client` holds the classes `FastatsClient` and `Timer`. Their fields are
  updated in place. Each method is proved against `Pushes`, the events one
  call appends, or against the `TimerSpec` step functions. Each method also
  keeps the collector's invariants.
- `Traces` covers sequences of calls on one client: they compose, they are
  well formed, all-dropped calls push nothing, and the number of pushed
  events is known.
- `Scenarios` replays the repository's recording tests on a new client.

The collector is the client's `queue: seq<Event>`. Each method that draws
from `random.random()` takes the draw as a `real` parameter. Time is an
integer millisecond clock passed to `Start`/`Stop`, so a measured duration
is `now - start`.

Three behaviours of the code that a reader might not expect:

- The sampling gate is `draw > rate`, so a rate of 0 still records a draw
  of exactly 0.0 (`Client.RateExtremes`).
- The zero reset of a negative absolute gauge is pushed only when the call
  itself passes sampling. A sampled-out gauge drops the reset too.
- `stop(send=True)` on a timer that was already sent first re-measures
  `ms` and only then fails in `send`. So that failure changes the state
  (`TimerSpec.RestopAfterSendFails`).

## Model

| member | source | states |
|---|---|---|
| `Client.Prefix` | fastatsd/client.py:167 | the composed prefix is empty without a configured prefix, and otherwise is the prefix followed by one `.` |
| `Client.KeyShape` | fastatsd/client.py:167 | a pushed key is `prefix.stat` with a configured prefix and `stat` unchanged without one |
| `Client.KeyInjective` | fastatsd/client.py:195 | under one prefix, two stats get the same key exactly when they are the same stat |
| `Client.Pushes` | fastatsd/client.py:187-251 | a dropped call pushes nothing; a sampled one pushes one or two events, all under the call's key, with every negative absolute gauge after its reset |
| `Client.Passes` | fastatsd/client.py:191 | a call passes sampling exactly when its draw is at most its rate (the same gate guards `incr`, `gauge` and `set` at lines 205, 226 and 244) |
| `Client.Key` | fastatsd/client.py:195 | the key `_prefix + stat` starts with the composed prefix and the rest of it is the stat (the same key is built at lines 209, 234 and 248) |
| `Collector.ZeroReset` | fastatsd/client.py:233 | the reset is an absolute gauge of the key to 0 at rate 1, and is itself not a negative absolute gauge |
| `Client.TimerPushes` | fastatsd/client.py:67 | a timer that made no timing call pushes nothing; otherwise it pushes what `timing(stat, ms, rate)` pushes |
| `Client.FastatsClient.Push` | fastatsd/client.py:193-198 | a push under the lock appends exactly the given events to the pending ones and keeps the collector's invariants |
| `Client.SampledSinglePush` | fastatsd/client.py:187-212 | a sampled `timing`, `incr` or `set` pushes exactly one event of its kind with the given key, value and rate |
| `Client.DecrIsNegatedIncr` | fastatsd/client.py:215-219 | `decr(stat, count, rate)` pushes exactly what `incr(stat, -count, rate)` pushes |
| `Client.GaugePushes` | fastatsd/client.py:222-237 | a sampled negative absolute gauge pushes a reset to 0 at rate 1 and then the gauge; every other sampled gauge pushes only the gauge |
| `Client.RateExtremes` | fastatsd/client.py:191 | with a draw in [0, 1), rate 1 always records, and rate 0 records only a draw of exactly 0 |
| `Client.FastatsClient.constructor` | fastatsd/client.py:158-173 | the prefix is composed once and the collector starts empty |
| `Client.FastatsClient.Timing` | fastatsd/client.py:187-198 | appends exactly the `timing` pushes to the pending events and keeps the collector's invariants |
| `Client.FastatsClient.Incr` | fastatsd/client.py:201-212 | appends exactly the `incr` pushes and keeps the invariants |
| `Client.FastatsClient.Decr` | fastatsd/client.py:215-219 | delegates to `Incr` with the count negated; appends the `decr` pushes |
| `Client.FastatsClient.Gauge` | fastatsd/client.py:222-237 | appends exactly the `gauge` pushes, reset first when needed, and keeps the invariants |
| `Client.FastatsClient.Set` | fastatsd/client.py:240-251 | appends exactly the `set` pushes and keeps the invariants |
| `Client.FastatsClient.NewTimer` | fastatsd/client.py:180-184 | returns a new unstarted timer bound to this client, stat and rate |
| `Client.Timer.constructor` | fastatsd/client.py:19-25 | a new timer has no measurement, is unsent and unstarted |
| `Client.Timer.Start` | fastatsd/client.py:44-48 | the new state is the state machine's start step |
| `Client.Timer.Send` | fastatsd/client.py:61-67 | the new state and outcome are the send step; the collector gains the one timing call's pushes on success and nothing on failure |
| `Client.Timer.Stop` | fastatsd/client.py:51-58 | the new state and outcome are the stop step; the collector gains the pushes of the timing call it made, if any |
| `Client.Timer.Enter` | fastatsd/client.py:36-37 | entering the scope is a start |
| `Client.Timer.Exit` | fastatsd/client.py:40-41 | leaving the scope is a stop that sends |
| `Client.Timer.Scoped` | fastatsd/client.py:28-41 | a `with` block or decorated call whose body does not start, stop or send the same timer always succeeds and pushes exactly the timing of the elapsed time |
| `TimerSpec.StartState` | fastatsd/client.py:44-48 | start clears the measurement and the sent flag and records the start time |
| `TimerSpec.SendStep` | fastatsd/client.py:61-67 | send succeeds exactly when there is a measurement not yet sent; it fails with "no data" without a measurement and with "already sent" otherwise; failure changes nothing; success marks the timer sent and makes one timing call with `ms` |
| `TimerSpec.StopStep` | fastatsd/client.py:51-58 | stop on an unstarted timer fails with nothing changed; otherwise `ms` becomes now minus start; without `send` nothing is sent; with `send` it succeeds exactly when the timer was unsent, then marks it sent and makes one timing call of the elapsed time, and otherwise fails with "already sent" and makes no call |
| `TimerSpec.NestedScopeFailsOuter` | fastatsd/client.py:28-67 | a scope of a timer nested in a scope of the same timer: the inner exit times from the inner start, and the outer exit re-measures from the inner start, fails with "already sent" and makes no timing call |
| `TimerSpec.ScopedUseTimesOnce` | fastatsd/client.py:28-41 | start then stop-and-send yields success and exactly one timing call of the elapsed time |
| `TimerSpec.SecondSendFails` | fastatsd/client.py:64-65 | after a successful send, a second send fails with "already sent" and changes nothing |
| `TimerSpec.RestopAfterSendFails` | fastatsd/client.py:51-67 | a second stop-and-send re-measures `ms` but fails and makes no timing call |
| `TimerSpec.ApplyConsistent` | fastatsd/client.py:44-67 | every operation keeps "a measurement implies a start time" |
| `TimerSpec.TimingsBoundedByStarts` | fastatsd/client.py:44-67 | over any operation sequence, the timing calls made plus the one still available never exceed the starts plus the one available at first |
| `TimerSpec.AtMostOneTimingPerStart` | fastatsd/client.py:44-67 | a new timer makes at most one timing call per `start`, whatever the operation sequence |
| `TimerSpec.UnstartedNeverTimes` | fastatsd/client.py:51-63 | without a start, a new timer never makes a timing call and never changes |
| `Traces.RunAppend` | fastatsd/client.py:187-251 | calls made one after another append their events one after another |
| `Traces.RunWellFormed` | fastatsd/client.py:167-251 | after any sequence of calls, every pushed key carries the prefix and every negative absolute gauge follows its reset |
| `Traces.RunAllDropped` | fastatsd/client.py:187-251 | calls whose draws all exceed their rates push nothing |
| `Traces.RunLength` | fastatsd/client.py:187-251 | the number of pushed events is the number of sampled calls plus the number of sampled negative absolute gauges |
| `Traces.FullRateRecordsAll` | fastatsd/client.py:187-251 | at rate 1 with draws in [0, 1), every call passes sampling |
| `Scenarios.IncrWithPrefix` | tests/test_fastatsd.py:46-50 | `incr('test', 123)` under prefix `testing` leaves one counter `testing.test` of 123 |
| `Scenarios.IncrWithoutPrefix` | tests/test_fastatsd.py:53-57 | without a prefix the key is `test` |
| `Scenarios.DecrWithPrefix` | tests/test_fastatsd.py:98-102 | `decr('test', 123)` leaves one counter of -123 |
| `Scenarios.GaugeWithPrefix` | tests/test_fastatsd.py:105-130 | a negative absolute gauge leaves a reset and then the gauge; a positive or delta gauge leaves only the gauge |
| `Scenarios.SetWithPrefix` | tests/test_fastatsd.py:133-137 | `set('test', 123)` leaves one set event |
| `Scenarios.TimerBlock` | tests/test_fastatsd.py:35-43 | a timer `with` block leaves one timing under `testing.test` of the elapsed ms, and a second send fails |

## Left out

- The sender thread `CystatsSender` (fastatsd/client.py:71-147) is not modelled: its wait loop, `ask_stop`, and the thread's start and join. They exist only for concurrency between producers and the background thread.
- The client lifecycle is not modelled: `_start_sender_thread`, `stop`, `__enter__`/`__exit__` of the client and the `atexit` registration (fastatsd/client.py:254-278). They depend on thread liveness and process exit.
- The condition variable's acquire/notify/release around each push is not modelled. The model is sequential, so each push is atomic.
- UDP sends with `socket.error` swallowed, and resolving the host name with `gethostbyname`, are network I/O and are not modelled. The constructor takes only the prefix.
- The internals and wire format of `cystatsd.MetricCollector` belong to a foreign library and are not modelled. Only the ordered pushes are kept.
- `random.random()` is not modelled; every sampling draw is a parameter.
- `time.monotonic()` and `int(round(1000 * dt))` are not modelled. They become an integer millisecond clock, so float rounding is not captured.
- Client.FastatsClient.Timing: the `delta` argument is a float in the source. Here it is an integer count of milliseconds, the only kind a `Timer` passes.
- The `maxudpsize` warning and `pipeline` (which raises `NotImplementedError`) are not modelled. Neither affects the pushed events.
- Client.Timer.Start: Python's `start` and `stop` return the timer itself for chaining. The methods here return nothing beyond the outcome.
- Client.Timer.Scoped: the wrapped function or block is abstracted away. So are its arguments, its return value and any exception it raises. `__exit__` runs the same stop in every case. `Scoped` assumes the body does not start, stop or send the same timer. When it does, for example a decorated function that calls itself, the outer exit fails with "already sent" (`TimerSpec.NestedScopeFailsOuter`).
