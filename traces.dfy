/** Sequences of recording calls made one after another on one client, as a
    producer issues them: what they leave pending in the collector. */
module Traces {
  import opened Collector
  import opened Client

  /** The events appended by `calls`, the i-th call drawing `draws[i]`. */
  function Run(p: string, calls: seq<Call>, draws: seq<real>): seq<Event>
    requires |calls| == |draws|
    decreases |calls|
  {
    if calls == [] then [] else Pushes(p, calls[0], draws[0]) + Run(p, calls[1..], draws[1..])
  }

  /** How many of the calls pass sampling. */
  function Sampled(calls: seq<Call>, draws: seq<real>): nat
    requires |calls| == |draws|
    decreases |calls|
  {
    if calls == [] then 0
    else (if Passes(draws[0], calls[0].rate) then 1 else 0) + Sampled(calls[1..], draws[1..])
  }

  /** How many of the calls are sampled absolute gauges below zero. */
  function SampledResets(calls: seq<Call>, draws: seq<real>): nat
    requires |calls| == |draws|
    decreases |calls|
  {
    if calls == [] then 0
    else
      var c := calls[0];
      (if Passes(draws[0], c.rate) && c.GaugeCall? && c.value < 0 && !c.isDelta then 1 else 0)
      + SampledResets(calls[1..], draws[1..])
  }

  /** Calls made one after the other append their events one after the other. */
  lemma {:induction false} RunAppend(p: string, c1: seq<Call>, d1: seq<real>, c2: seq<Call>, d2: seq<real>)
    requires |c1| == |d1| && |c2| == |d2|
    ensures Run(p, c1 + c2, d1 + d2) == Run(p, c1, d1) + Run(p, c2, d2)
    decreases |c1|
  {
    if c1 != [] {
      assert (c1 + c2)[1..] == c1[1..] + c2;
      assert (d1 + d2)[1..] == d1[1..] + d2;
      RunAppend(p, c1[1..], d1[1..], c2, d2);
    } else {
      assert c1 + c2 == c2 && d1 + d2 == d2;
    }
  }

  /** Whatever the calls and draws, every pushed key carries the prefix and
      every negative absolute gauge follows its reset to zero. */
  lemma {:induction false} RunWellFormed(p: string, calls: seq<Call>, draws: seq<real>)
    requires |calls| == |draws|
    ensures KeysUnder(p, Run(p, calls, draws)) && ResetsPrecedeNegatives(Run(p, calls, draws))
    decreases |calls|
  {
    if calls != [] {
      var first := Pushes(p, calls[0], draws[0]);
      RunWellFormed(p, calls[1..], draws[1..]);
      assert KeysUnder(p, first) by {
        forall i | 0 <= i < |first| ensures p <= first[i].key {
          assert first[i].key == p + calls[0].stat;
        }
      }
      KeysUnderConcat(p, first, Run(p, calls[1..], draws[1..]));
      ResetsConcat(first, Run(p, calls[1..], draws[1..]));
    }
  }

  /** Calls whose draws all exceed their rates push nothing. */
  lemma {:induction false} RunAllDropped(p: string, calls: seq<Call>, draws: seq<real>)
    requires |calls| == |draws|
    requires forall i :: 0 <= i < |calls| ==> draws[i] > calls[i].rate
    ensures Run(p, calls, draws) == []
    decreases |calls|
  {
    if calls != [] {
      assert draws[0] > calls[0].rate;
      RunAllDropped(p, calls[1..], draws[1..]);
    }
  }

  /** Each sampled call pushes one event, plus one reset for each sampled
      negative absolute gauge; dropped calls push nothing. */
  lemma {:induction false} RunLength(p: string, calls: seq<Call>, draws: seq<real>)
    requires |calls| == |draws|
    ensures |Run(p, calls, draws)| == Sampled(calls, draws) + SampledResets(calls, draws)
    decreases |calls|
  {
    if calls != [] {
      RunLength(p, calls[1..], draws[1..]);
      var c := calls[0];
      if Passes(draws[0], c.rate) && c.GaugeCall? {
        GaugePushes(p, c.stat, c.value, c.rate, c.isDelta, draws[0]);
      }
    }
  }

  /** At rate 1 (or more) with draws in [0, 1), every call is recorded. */
  lemma {:induction false} FullRateRecordsAll(calls: seq<Call>, draws: seq<real>)
    requires |calls| == |draws|
    requires forall i :: 0 <= i < |calls| ==> 0.0 <= draws[i] < 1.0 <= calls[i].rate
    ensures Sampled(calls, draws) == |calls|
    decreases |calls|
  {
    if calls != [] {
      assert 0.0 <= draws[0] < 1.0 <= calls[0].rate;
      FullRateRecordsAll(calls[1..], draws[1..]);
    }
  }
}
