/** The recording scenarios exercised by the repository's tests, each run on
    a new client with one sampling draw `draw` from [0, 1): what each leaves
    pending in the collector. */
module Scenarios {
  import opened Wrappers
  import opened Collector
  import opened Client

  /** The key `test` is pushed under by a client with prefix `testing`. */
  lemma TestingKey()
    ensures Key(Prefix("testing"), "test") == "testing.test"
  {
  }

  /** `incr('test', 123)` on a client with prefix `testing`. */
  method IncrWithPrefix(draw: real) returns (pending: seq<Event>)
    requires 0.0 <= draw < 1.0
    ensures pending == [Event(Counter, "testing.test", 123, 1.0, false)]
  {
    var client := new FastatsClient("testing");
    TestingKey();
    client.Incr("test", 123, 1.0, draw);
    pending := client.queue;
  }

  /** `incr('test', 123)` on a client without a prefix. */
  method IncrWithoutPrefix(draw: real) returns (pending: seq<Event>)
    requires 0.0 <= draw < 1.0
    ensures pending == [Event(Counter, "test", 123, 1.0, false)]
  {
    var client := new FastatsClient("");
    assert Key(client.prefix, "test") == "test";
    client.Incr("test", 123, 1.0, draw);
    pending := client.queue;
  }

  /** `decr('test', 123)`: a counter of -123. */
  method DecrWithPrefix(draw: real) returns (pending: seq<Event>)
    requires 0.0 <= draw < 1.0
    ensures pending == [Event(Counter, "testing.test", -123, 1.0, false)]
  {
    var client := new FastatsClient("testing");
    TestingKey();
    client.Decr("test", 123, 1.0, draw);
    pending := client.queue;
  }

  /** `gauge('test', value, delta=isDelta)`: a reset to zero comes first only
      for a negative absolute value. */
  method GaugeWithPrefix(value: int, isDelta: bool, draw: real) returns (pending: seq<Event>)
    requires 0.0 <= draw < 1.0
    ensures value < 0 && !isDelta ==>
      pending == [Event(Gauge, "testing.test", 0, 1.0, false), Event(Gauge, "testing.test", value, 1.0, false)]
    ensures !(value < 0 && !isDelta) ==>
      pending == [Event(Gauge, "testing.test", value, 1.0, isDelta)]
  {
    var client := new FastatsClient("testing");
    TestingKey();
    client.Gauge("test", value, 1.0, isDelta, draw);
    pending := client.queue;
  }

  /** `set('test', 123)`. */
  method SetWithPrefix(draw: real) returns (pending: seq<Event>)
    requires 0.0 <= draw < 1.0
    ensures pending == [Event(Set, "testing.test", 123, 1.0, false)]
  {
    var client := new FastatsClient("testing");
    TestingKey();
    client.Set("test", 123, 1.0, draw);
    pending := client.queue;
  }

  /** `with statsd.timer('test'):` entered at `t0` and left at `t1`: one
      timing of `t1 - t0` ms under the prefixed key; a second send fails. */
  method TimerBlock(t0: int, t1: int, draw: real) returns (pending: seq<Event>, again: Outcome<TimerSpec.TimerError>)
    requires 0.0 <= draw < 1.0
    ensures pending == [Event(Timing, "testing.test", t1 - t0, 1.0, false)]
    ensures again == Fail(TimerSpec.AlreadySent)
  {
    var client := new FastatsClient("testing");
    TestingKey();
    var timer := client.NewTimer("test", 1.0);
    var outcome := timer.Scoped(t0, t1, draw);
    pending := client.queue;
    again := timer.Send(draw);
  }
}
