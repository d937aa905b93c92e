/** The recording facade of fastatsd/client.py: `FastatsClient` and the
    `Timer` it hands out. The collector is the client's `queue` of pending
    events; the sampling draw (`random.random()`) and the clock
    (`time.monotonic()`, in whole milliseconds) are parameters. */
module Client {
  import opened Wrappers
  import opened Collector
  import opened TimerSpec

  /** The prefix as composed once at construction: `prefix + '.'` when a
      prefix is configured, nothing otherwise. */
  function Prefix(prefix: string): (p: string)
    ensures prefix == [] ==> p == []
    ensures prefix != [] ==> p == prefix + "." && |p| == |prefix| + 1 && p[|prefix|] == '.'
  {
    if prefix != [] then prefix + "." else ""
  }

  /** The key a stat is pushed under, given the composed prefix. */
  function Key(p: string, stat: string): (k: string)
    ensures |k| == |p| + |stat| && p <= k && k[|p|..] == stat
  {
    p + stat
  }

  /** Keys are `prefix.stat` with a configured prefix and `stat` unchanged
      without one. */
  lemma KeyShape(prefix: string, stat: string)
    ensures prefix != [] ==> Key(Prefix(prefix), stat) == prefix + "." + stat
    ensures prefix == [] ==> Key(Prefix(prefix), stat) == stat
  {
  }

  /** Two stats share a key exactly when they are the same stat. */
  lemma KeyInjective(prefix: string, s1: string, s2: string)
    ensures Key(Prefix(prefix), s1) == Key(Prefix(prefix), s2) <==> s1 == s2
  {
    var p := Prefix(prefix);
    if Key(p, s1) == Key(p, s2) {
      assert s1 == Key(p, s1)[|p|..];
      assert s2 == Key(p, s2)[|p|..];
    }
  }

  /** The sampling gate: a call is dropped when the draw exceeds the rate. */
  predicate Passes(draw: real, rate: real): (b: bool)
    ensures b <==> draw <= rate
  {
    !(draw > rate)
  }

  /** One recording call on the facade, with its arguments. */
  datatype Call =
    | TimingCall(stat: string, ms: int, rate: real)
    | IncrCall(stat: string, count: int, rate: real)
    | DecrCall(stat: string, count: int, rate: real)
    | GaugeCall(stat: string, value: int, rate: real, isDelta: bool)
    | SetCall(stat: string, value: int, rate: real)

  /** The events one call appends to the collector under composed prefix `p`
      when the sampling draw is `draw`. */
  function Pushes(p: string, call: Call, draw: real): (r: seq<Event>)
    ensures !Passes(draw, call.rate) ==> r == []
    ensures Passes(draw, call.rate) ==> 1 <= |r| <= 2
    ensures forall i :: 0 <= i < |r| ==> r[i].key == Key(p, call.stat)
    ensures ResetsPrecedeNegatives(r)
  {
    if !Passes(draw, call.rate) then []
    else
      var key := Key(p, call.stat);
      match call
      case TimingCall(_, ms, rate) => [Event(Timing, key, ms, rate, false)]
      case IncrCall(_, count, rate) => [Event(Counter, key, count, rate, false)]
      case DecrCall(_, count, rate) => [Event(Counter, key, -count, rate, false)]
      case GaugeCall(_, value, rate, isDelta) =>
        (if value < 0 && !isDelta then [ZeroReset(key)] else [])
        + [Event(Gauge, key, value, rate, isDelta)]
      case SetCall(_, value, rate) => [Event(Set, key, value, rate, false)]
  }

  /** A sampled `timing`, `incr` or `set` pushes exactly one event of its
      kind carrying the given value and rate. */
  lemma SampledSinglePush(p: string, call: Call, draw: real)
    requires Passes(draw, call.rate)
    requires call.TimingCall? || call.IncrCall? || call.SetCall?
    ensures |Pushes(p, call, draw)| == 1
    ensures var e := Pushes(p, call, draw)[0];
      && e.key == Key(p, call.stat) && e.rate == call.rate && !e.delta
      && (call.TimingCall? ==> e.kind == Timing && e.value == call.ms)
      && (call.IncrCall? ==> e.kind == Counter && e.value == call.count)
      && (call.SetCall? ==> e.kind == Set && e.value == call.value)
  {
  }

  /** `decr(stat, count, rate)` is `incr(stat, -count, rate)`. */
  lemma DecrIsNegatedIncr(p: string, stat: string, count: int, rate: real, draw: real)
    ensures Pushes(p, DecrCall(stat, count, rate), draw) == Pushes(p, IncrCall(stat, -count, rate), draw)
  {
  }

  /** A sampled absolute gauge below zero pushes a reset to zero at rate 1,
      then the gauge itself; any other sampled gauge pushes only itself. */
  lemma GaugePushes(p: string, stat: string, value: int, rate: real, isDelta: bool, draw: real)
    requires Passes(draw, rate)
    ensures value < 0 && !isDelta ==>
      Pushes(p, GaugeCall(stat, value, rate, isDelta), draw)
        == [Event(Gauge, Key(p, stat), 0, 1.0, false), Event(Gauge, Key(p, stat), value, rate, false)]
    ensures !(value < 0 && !isDelta) ==>
      Pushes(p, GaugeCall(stat, value, rate, isDelta), draw)
        == [Event(Gauge, Key(p, stat), value, rate, isDelta)]
  {
  }

  /** A rate of at least 1 always records (the draw lies in [0, 1)); a rate
      of 0 drops every positive draw but records a draw of exactly 0. */
  lemma RateExtremes(p: string, call: Call, draw: real)
    requires 0.0 <= draw < 1.0
    ensures call.rate >= 1.0 ==> Pushes(p, call, draw) != []
    ensures call.rate == 0.0 ==> (Pushes(p, call, draw) == [] <==> draw > 0.0)
  {
  }

  /** The events the timing call of a Timer (if it made one) appends. */
  function TimerPushes(p: string, stat: string, rate: real, timing: Option<int>, draw: real): (r: seq<Event>)
    ensures timing.None? ==> r == []
  {
    if timing.Some? then Pushes(p, TimingCall(stat, timing.value, rate), draw) else []
  }

  class FastatsClient {
    /** `_prefix`, composed once at construction. */
    const prefix: string
    /** The pending events of `_queue`, oldest first. */
    var queue: seq<Event>

    /** Every pending key carries the prefix, and every negative absolute
        gauge follows its reset. */
    ghost predicate Valid()
      reads this
    {
      KeysUnder(prefix, queue) && ResetsPrecedeNegatives(queue)
    }

    /** `__init__`, without resolving the host or starting the sender. */
    constructor(prefix: string)
      ensures this.prefix == Prefix(prefix) && queue == [] && Valid()
    {
      this.prefix := Prefix(prefix);
      queue := [];
    }

    /** Appends `events` to the queue, keeping it valid. */
    method Push(events: seq<Event>)
      requires Valid() && KeysUnder(prefix, events) && ResetsPrecedeNegatives(events)
      modifies this
      ensures Valid() && queue == old(queue) + events
    {
      KeysUnderConcat(prefix, queue, events);
      ResetsConcat(queue, events);
      queue := queue + events;
    }

    /** `timing(stat, delta, rate)`. */
    method Timing(stat: string, ms: int, rate: real, draw: real)
      requires Valid()
      modifies this
      ensures Valid() && queue == old(queue) + Pushes(prefix, TimingCall(stat, ms, rate), draw)
    {
      if draw > rate {
        return;
      }
      Push([Event(Collector.Timing, prefix + stat, ms, rate, false)]);
    }

    /** `incr(stat, count, rate)`. */
    method Incr(stat: string, count: int, rate: real, draw: real)
      requires Valid()
      modifies this
      ensures Valid() && queue == old(queue) + Pushes(prefix, IncrCall(stat, count, rate), draw)
    {
      if draw > rate {
        return;
      }
      Push([Event(Counter, prefix + stat, count, rate, false)]);
    }

    /** `decr(stat, count, rate)`: delegates to `incr` with the count negated. */
    method Decr(stat: string, count: int, rate: real, draw: real)
      requires Valid()
      modifies this
      ensures Valid() && queue == old(queue) + Pushes(prefix, DecrCall(stat, count, rate), draw)
    {
      Incr(stat, -count, rate, draw);
    }

    /** `gauge(stat, value, rate, delta)`. The reset to zero is pushed only
        once the call itself has passed sampling. */
    method Gauge(stat: string, value: int, rate: real, isDelta: bool, draw: real)
      requires Valid()
      modifies this
      ensures Valid() && queue == old(queue) + Pushes(prefix, GaugeCall(stat, value, rate, isDelta), draw)
    {
      if draw > rate {
        return;
      }
      var key := prefix + stat;
      var pushed: seq<Event> := [];
      if value < 0 && !isDelta {
        pushed := [Event(Collector.Gauge, key, 0, 1.0, false)];
      }
      pushed := pushed + [Event(Collector.Gauge, key, value, rate, isDelta)];
      Push(pushed);
    }

    /** `set(stat, value, rate)`. */
    method Set(stat: string, value: int, rate: real, draw: real)
      requires Valid()
      modifies this
      ensures Valid() && queue == old(queue) + Pushes(prefix, SetCall(stat, value, rate), draw)
    {
      if draw > rate {
        return;
      }
      Push([Event(Collector.Set, prefix + stat, value, rate, false)]);
    }

    /** `timer(stat, rate)`: a new timer bound to this client; the collector
        is not touched. */
    method NewTimer(stat: string, rate: real) returns (t: Timer)
      ensures fresh(t) && t.client == this && t.stat == stat && t.rate == rate
      ensures t.State() == Unstarted
    {
      t := new Timer(this, stat, rate);
    }
  }

  class Timer {
    const client: FastatsClient
    const stat: string
    const rate: real
    var ms: Option<int>
    var sent: bool
    var startTime: Option<int>

    /** The timer's fields as a value of the state machine. */
    ghost function State(): TimerState
      reads this
    {
      TimerState(ms, sent, startTime)
    }

    constructor(client: FastatsClient, stat: string, rate: real)
      ensures this.client == client && this.stat == stat && this.rate == rate
      ensures State() == Unstarted
    {
      this.client := client;
      this.stat := stat;
      this.rate := rate;
      ms := None;
      sent := false;
      startTime := None;
    }

    /** `start()`, at clock reading `now`. */
    method Start(now: int)
      modifies this
      ensures State() == StartState(old(State()), now)
    {
      ms := None;
      sent := false;
      startTime := Some(now);
    }

    /** `send()`, with `draw` the sampling draw of the timing call it makes. */
    method Send(draw: real) returns (outcome: Outcome<TimerError>)
      requires client.Valid()
      modifies this, client
      ensures client.Valid()
      ensures var step := SendStep(old(State()));
        && State() == step.state && outcome == step.outcome
        && client.queue == old(client.queue) + TimerPushes(client.prefix, stat, rate, step.timing, draw)
    {
      if ms.None? {
        return Fail(NoData);
      }
      if sent {
        return Fail(AlreadySent);
      }
      sent := true;
      client.Timing(stat, ms.value, rate, draw);
      outcome := Pass;
    }

    /** `stop(send)`, at clock reading `now`. */
    method Stop(now: int, send: bool, draw: real) returns (outcome: Outcome<TimerError>)
      requires client.Valid()
      modifies this, client
      ensures client.Valid()
      ensures var step := StopStep(old(State()), now, send);
        && State() == step.state && outcome == step.outcome
        && client.queue == old(client.queue) + TimerPushes(client.prefix, stat, rate, step.timing, draw)
    {
      if startTime.None? {
        return Fail(NotStarted);
      }
      ms := Some(now - startTime.value);
      if send {
        outcome := Send(draw);
      } else {
        outcome := Pass;
      }
    }

    /** `__enter__`. */
    method Enter(now: int)
      modifies this
      ensures State() == StartState(old(State()), now)
    {
      Start(now);
    }

    /** `__exit__`: a stop that sends. */
    method Exit(now: int, draw: real) returns (outcome: Outcome<TimerError>)
      requires client.Valid()
      modifies this, client
      ensures client.Valid()
      ensures var step := StopStep(old(State()), now, true);
        && State() == step.state && outcome == step.outcome
        && client.queue == old(client.queue) + TimerPushes(client.prefix, stat, rate, step.timing, draw)
    {
      outcome := Stop(now, true, draw);
    }

    /** A `with` block, or a call of a decorated function, entered at `t0`
        and left at `t1`: it always succeeds and makes exactly one timing
        call with the elapsed time. */
    method Scoped(t0: int, t1: int, draw: real) returns (outcome: Outcome<TimerError>)
      requires client.Valid()
      modifies this, client
      ensures client.Valid() && outcome == Pass
      ensures State() == TimerState(Some(t1 - t0), true, Some(t0))
      ensures client.queue == old(client.queue) + Pushes(client.prefix, TimingCall(stat, t1 - t0, rate), draw)
    {
      Enter(t0);
      outcome := Exit(t1, draw);
    }
  }
}
