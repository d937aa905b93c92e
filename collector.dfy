/** The pending metrics of a `cystatsd.MetricCollector`, seen only through
    the pushes the client makes into it: an ordered sequence of events. */
module Collector {

  /** Which `push_*` operation recorded an event. */
  datatype Kind = Counter | Timing | Gauge | Set

  /** One pushed metric: its full (prefixed) key, value, sampling rate and,
      for gauges, whether the value is a relative change. */
  datatype Event = Event(kind: Kind, key: string, value: int, rate: real, delta: bool)

  /** The absolute reset to zero pushed before a negative absolute gauge
      (`push_gauge(key, 0, 1)`, whose delta flag defaults to false). */
  function ZeroReset(key: string): (e: Event)
    ensures e.kind == Gauge && e.key == key && e.value == 0 && e.rate == 1.0 && !e.delta
    ensures !NegativeAbsolute(e)
  {
    Event(Gauge, key, 0, 1.0, false)
  }

  /** An absolute gauge with a negative value: on the wire it would read as
      a decrement, so it must follow a reset to zero. */
  predicate NegativeAbsolute(e: Event) {
    e.kind == Gauge && !e.delta && e.value < 0
  }

  /** Every negative absolute gauge in the batch directly follows a reset of
      the same key to zero. */
  predicate ResetsPrecedeNegatives(events: seq<Event>) {
    forall i :: 0 <= i < |events| && NegativeAbsolute(events[i]) ==>
      0 < i && events[i - 1] == ZeroReset(events[i].key)
  }

  /** Every key in the batch starts with the client's composed prefix. */
  predicate KeysUnder(prefix: string, events: seq<Event>) {
    forall i :: 0 <= i < |events| ==> prefix <= events[i].key
  }

  /** Appending a well-formed batch to a well-formed batch keeps the resets in
      front of their negative gauges. */
  lemma ResetsConcat(a: seq<Event>, b: seq<Event>)
    requires ResetsPrecedeNegatives(a) && ResetsPrecedeNegatives(b)
    ensures ResetsPrecedeNegatives(a + b)
  {
  }

  /** Same for the key prefix. */
  lemma KeysUnderConcat(prefix: string, a: seq<Event>, b: seq<Event>)
    requires KeysUnder(prefix, a) && KeysUnder(prefix, b)
    ensures KeysUnder(prefix, a + b)
  {
  }
}
