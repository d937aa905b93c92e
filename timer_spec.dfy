/** The state machine of a `Timer` (fastatsd/client.py, class Timer), as pure
    functions on its three fields. Time is an integer millisecond clock given
    by the caller. */
module TimerSpec {
  import opened Wrappers

  /** `ms`, `_sent` and `_start_time`. */
  datatype TimerState = TimerState(ms: Option<int>, sent: bool, startTime: Option<int>)

  /** The three RuntimeErrors a Timer raises. */
  datatype TimerError = NotStarted | NoData | AlreadySent

  /** The effect of one operation: the new state, whether it completed, and
      the duration handed to `client.timing`, if it made that call. */
  datatype Step = Step(state: TimerState, outcome: Outcome<TimerError>, timing: Option<int>)

  /** A newly constructed timer. */
  const Unstarted := TimerState(None, false, None)

  /** `start`: forgets any measurement and the sent flag, records the time. */
  function StartState(s: TimerState, now: int): (r: TimerState)
    ensures r.ms == None && !r.sent && r.startTime == Some(now)
  {
    TimerState(None, false, Some(now))
  }

  /** `send`: fails without a measurement or when already sent; otherwise
      marks the timer sent and makes one timing call with the measurement. */
  function SendStep(s: TimerState): (r: Step)
    ensures r.outcome == Pass <==> s.ms.Some? && !s.sent
    ensures s.ms.None? ==> r.outcome == Fail(NoData)
    ensures s.ms.Some? && s.sent ==> r.outcome == Fail(AlreadySent)
    ensures r.outcome.Fail? ==> r.state == s && r.timing == None
    ensures r.outcome == Pass ==>
      r.state == s.(sent := true) && r.timing == Some(s.ms.value)
  {
    if s.ms.None? then Step(s, Fail(NoData), None)
    else if s.sent then Step(s, Fail(AlreadySent), None)
    else Step(s.(sent := true), Pass, Some(s.ms.value))
  }

  /** `stop(send)`: fails on a timer never started and changes nothing;
      otherwise records the elapsed time and, if asked, sends it. */
  function StopStep(s: TimerState, now: int, send: bool): (r: Step)
    ensures s.startTime.None? ==> r == Step(s, Fail(NotStarted), None)
    ensures s.startTime.Some? ==>
      r.state.ms == Some(now - s.startTime.value) && r.state.startTime == s.startTime
    ensures s.startTime.Some? && !send ==> r.outcome == Pass && r.timing == None && r.state.sent == s.sent
    ensures s.startTime.Some? && send ==>
      && (r.outcome == Pass <==> !s.sent)
      && (r.outcome == Pass ==> r.state.sent && r.timing == Some(now - s.startTime.value))
      && (r.outcome.Fail? ==> r.outcome == Fail(AlreadySent) && r.timing == None && r.state.sent == s.sent)
  {
    if s.startTime.None? then Step(s, Fail(NotStarted), None)
    else
      var measured := s.(ms := Some(now - s.startTime.value));
      if send then SendStep(measured) else Step(measured, Pass, None)
  }

  /** A measurement exists only once the timer has started. */
  predicate Consistent(s: TimerState) {
    s.ms.Some? ==> s.startTime.Some?
  }

  /** Leaving a `with` block (or the decorated function) right after entering
      it: exactly one timing call, with the elapsed time, and success. */
  lemma ScopedUseTimesOnce(s: TimerState, t0: int, t1: int)
    ensures StopStep(StartState(s, t0), t1, true)
         == Step(TimerState(Some(t1 - t0), true, Some(t0)), Pass, Some(t1 - t0))
  {
  }

  /** A scope nested inside another scope of the same timer (a decorated
      function that calls itself): the inner start overwrites the start
      time, the inner exit sends, and the outer exit re-measures from the
      inner start and fails, so only the inner duration is timed. */
  lemma NestedScopeFailsOuter(s: TimerState, t0: int, t1: int, t2: int, t3: int)
    ensures var inner := StopStep(StartState(StartState(s, t0), t1), t2, true);
      var outer := StopStep(inner.state, t3, true);
      && inner.outcome == Pass && inner.timing == Some(t2 - t1)
      && outer.outcome == Fail(AlreadySent) && outer.timing == None
      && outer.state.ms == Some(t3 - t1)
  {
  }

  /** After a send that succeeded, sending again fails and changes nothing. */
  lemma SecondSendFails(s: TimerState)
    requires SendStep(s).outcome == Pass
    ensures SendStep(SendStep(s).state) == Step(SendStep(s).state, Fail(AlreadySent), None)
  {
  }

  /** Stopping again after a stop that sent: the duration is re-measured but
      the send fails, so no second timing call is made. */
  lemma RestopAfterSendFails(s: TimerState, t1: int, t2: int)
    requires StopStep(s, t1, true).outcome == Pass
    ensures var r := StopStep(StopStep(s, t1, true).state, t2, true);
      r.outcome == Fail(AlreadySent) && r.timing == None
      && r.state.ms == Some(t2 - s.startTime.value)
  {
  }

  /** The operations a caller may apply to a timer. */
  datatype TimerOp = Start(now: int) | Stop(now: int, send: bool) | Send

  function Apply(s: TimerState, op: TimerOp): Step {
    match op
    case Start(now) => Step(StartState(s, now), Pass, None)
    case Stop(now, send) => StopStep(s, now, send)
    case Send => SendStep(s)
  }

  /** Each operation keeps a timer consistent. */
  lemma ApplyConsistent(s: TimerState, op: TimerOp)
    requires Consistent(s)
    ensures Consistent(Apply(s, op).state)
  {
  }

  /** The state after applying `ops` in order (failed operations included). */
  function Final(s: TimerState, ops: seq<TimerOp>): TimerState
    decreases |ops|
  {
    if ops == [] then s else Final(Apply(s, ops[0]).state, ops[1..])
  }

  /** The number of timing calls made while applying `ops` in order. */
  function Timings(s: TimerState, ops: seq<TimerOp>): nat
    decreases |ops|
  {
    if ops == [] then 0
    else (if Apply(s, ops[0]).timing.Some? then 1 else 0) + Timings(Apply(s, ops[0]).state, ops[1..])
  }

  function Starts(ops: seq<TimerOp>): nat {
    if ops == [] then 0 else (if ops[0].Start? then 1 else 0) + Starts(ops[1..])
  }

  /** 1 when the current measurement period can still be sent. */
  function Credit(s: TimerState): nat {
    if s.startTime.Some? && !s.sent then 1 else 0
  }

  /** Sending is single-use: over any sequence of operations, the timing
      calls made plus the one still available at the end never exceed the
      starts plus the one available at the beginning. */
  lemma {:induction false} TimingsBoundedByStarts(s: TimerState, ops: seq<TimerOp>)
    requires Consistent(s)
    ensures Timings(s, ops) + Credit(Final(s, ops)) <= Starts(ops) + Credit(s)
    decreases |ops|
  {
    if ops != [] {
      var step := Apply(s, ops[0]);
      ApplyConsistent(s, ops[0]);
      TimingsBoundedByStarts(step.state, ops[1..]);
      assert (if step.timing.Some? then 1 else 0) + Credit(step.state)
          <= (if ops[0].Start? then 1 else 0) + Credit(s);
    }
  }

  /** A timer that starts unstarted makes at most one timing call per start. */
  lemma AtMostOneTimingPerStart(ops: seq<TimerOp>)
    ensures Timings(Unstarted, ops) <= Starts(ops)
  {
    TimingsBoundedByStarts(Unstarted, ops);
  }

  /** Without a start, a new timer never makes a timing call at all: every
      stop fails with NotStarted and every send with NoData. */
  lemma {:induction false} UnstartedNeverTimes(ops: seq<TimerOp>)
    requires forall i :: 0 <= i < |ops| ==> !ops[i].Start?
    ensures Timings(Unstarted, ops) == 0 && Final(Unstarted, ops) == Unstarted
    decreases |ops|
  {
    if ops != [] {
      assert Apply(Unstarted, ops[0]).state == Unstarted;
      assert Apply(Unstarted, ops[0]).timing == None;
      UnstartedNeverTimes(ops[1..]);
    }
  }
}
