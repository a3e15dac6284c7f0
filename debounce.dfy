/** `_debounce(func, delay)`: a wrapper holding one pending timer. Each call
    cancels the pending timer and starts a new one `delay` after it; the
    host clock runs the wrapped function when a pending deadline is reached.
    Time is in whole milliseconds. */
module Debounce {

  datatype Timer = Idle | Pending(deadline: int)

  datatype TimerEvent = CallAt(time: int) | TickAt(time: int)

  /** One event. A call replaces whatever was pending by a deadline `delay`
      after it and runs nothing; a clock tick runs the function exactly when
      a deadline is pending and reached, and that clears it. */
  function Step(t: Timer, e: TimerEvent, delay: nat): (r: (Timer, bool))
    ensures e.CallAt? ==> r == (Pending(e.time + delay), false)
    ensures e.TickAt? ==> (r.1 <==> t.Pending? && t.deadline <= e.time)
    ensures r.1 ==> r.0 == Idle
    ensures !r.1 && e.TickAt? ==> r.0 == t
  {
    match e
    case CallAt(now) => (Pending(now + delay), false)
    case TickAt(now) =>
      if t.Pending? && t.deadline <= now then (Idle, true) else (t, false)
  }

  /** The timer after a sequence of events, and how many times the wrapped
      function ran. */
  function Run(t: Timer, evs: seq<TimerEvent>, delay: nat): (Timer, nat)
    decreases |evs|
  {
    if evs == [] then (t, 0)
    else
      var (t1, fired) := Step(t, evs[0], delay);
      var (t2, n) := Run(t1, evs[1..], delay);
      (t2, n + if fired then 1 else 0)
  }

  lemma {:induction false} RunAppend(t: Timer, a: seq<TimerEvent>, b: seq<TimerEvent>, delay: nat)
    ensures var (ta, na) := Run(t, a, delay);
      var (tb, nb) := Run(ta, b, delay);
      Run(t, a + b, delay) == (tb, na + nb)
    decreases |a|
  {
    if a == [] {
      assert a + b == b;
    } else {
      assert (a + b)[0] == a[0] && (a + b)[1..] == a[1..] + b;
      RunAppend(Step(t, a[0], delay).0, a[1..], b, delay);
    }
  }

  /** The rest of a burst after a call at time `last`, the previous event
      having come at `prev`: events come in time order, each call comes less
      than `delay` after the call before it, and the burst ends with a call. */
  ghost predicate BurstTail(last: int, prev: int, evs: seq<TimerEvent>, delay: nat)
    decreases |evs|
  {
    evs == [] ||
    (prev <= evs[0].time &&
     match evs[0]
     case CallAt(t) => t - last < delay && BurstTail(t, t, evs[1..], delay)
     case TickAt(t) => |evs| > 1 && BurstTail(last, t, evs[1..], delay))
  }

  /** A burst: a first call, then calls whose gaps are each under `delay`,
      with clock ticks anywhere in between, ending with a call. */
  ghost predicate Burst(evs: seq<TimerEvent>, delay: nat) {
    |evs| > 0 && evs[0].CallAt? && BurstTail(evs[0].time, evs[0].time, evs[1..], delay)
  }

  /** Inside a burst every event, ticks included, comes before the deadline
      set by the latest call. */
  lemma {:induction false} BeforeDeadline(last: int, prev: int, evs: seq<TimerEvent>, delay: nat)
    requires BurstTail(last, prev, evs, delay) && evs != []
    ensures evs[0].time < last + delay
    decreases |evs|
  {
    if evs[0].TickAt? {
      BeforeDeadline(last, evs[0].time, evs[1..], delay);
    }
  }

  /** During a burst nothing runs, and afterwards the deadline pending is
      `delay` after the burst's last call. */
  lemma {:induction false} BurstTailQuiet(last: int, prev: int, evs: seq<TimerEvent>, delay: nat)
    requires BurstTail(last, prev, evs, delay)
    ensures Run(Pending(last + delay), evs, delay)
         == (Pending((if evs == [] then last else evs[|evs| - 1].time) + delay), 0)
    decreases |evs|
  {
    if evs != [] {
      BeforeDeadline(last, prev, evs, delay);
      var rest := evs[1..];
      match evs[0]
      case CallAt(t) =>
        BurstTailQuiet(t, t, rest, delay);
      case TickAt(t) =>
        BurstTailQuiet(last, t, rest, delay);
    }
  }

  /** Clock ticks alone run the function once if some tick reaches the
      pending deadline, and never otherwise. */
  lemma {:induction false} TicksFireOnce(t: Timer, ticks: seq<TimerEvent>, delay: nat)
    requires forall i :: 0 <= i < |ticks| ==> ticks[i].TickAt?
    ensures t.Idle? ==> Run(t, ticks, delay) == (Idle, 0)
    ensures t.Pending? ==>
      Run(t, ticks, delay).1 ==
        (if exists i :: 0 <= i < |ticks| && t.deadline <= ticks[i].time then 1 else 0)
    decreases |ticks|
  {
    if ticks != [] {
      var rest := ticks[1..];
      TicksFireOnce(Step(t, ticks[0], delay).0, rest, delay);
      TicksFireOnce(Idle, rest, delay);
      if t.Pending? && !(t.deadline <= ticks[0].time) {
        if exists i :: 0 <= i < |ticks| && t.deadline <= ticks[i].time {
          var i :| 0 <= i < |ticks| && t.deadline <= ticks[i].time;
          assert rest[i - 1] == ticks[i];
        }
      }
    }
  }

  /** A burst of calls whose gaps are each under `delay` runs nothing by
      itself; followed by clock ticks it runs the wrapped function exactly
      once if some tick comes `delay` or more after the last call, and not
      at all if no tick gets that far. */
  lemma BurstRunsOnce(burst: seq<TimerEvent>, ticks: seq<TimerEvent>, delay: nat)
    requires Burst(burst, delay)
    requires forall i :: 0 <= i < |ticks| ==> ticks[i].TickAt?
    ensures Run(Idle, burst, delay).1 == 0
    ensures Run(Idle, burst + ticks, delay).1 ==
      if exists i :: 0 <= i < |ticks| && burst[|burst| - 1].time + delay <= ticks[i].time then 1 else 0
  {
    var first := burst[0].time;
    var last := burst[|burst| - 1].time;
    var rest := burst[1..];
    BurstTailQuiet(first, first, rest, delay);
    assert Run(Pending(first + delay), rest, delay) == (Pending(last + delay), 0) by {
      if rest != [] {
        assert rest[|rest| - 1] == burst[|burst| - 1];
      }
    }
    assert Step(Idle, burst[0], delay) == (Pending(first + delay), false);
    assert burst == [burst[0]] + rest;
    RunAppend(Idle, [burst[0]], rest, delay);
    assert Run(Idle, burst, delay) == (Pending(last + delay), 0);
    RunAppend(Idle, burst, ticks, delay);
    TicksFireOnce(Pending(last + delay), ticks, delay);
  }

  /** The debounced wrapper's own state: the delay it was made with and the
      one pending timer (`timeoutId`). */
  class Debouncer {
    const delay: nat
    var timer: Timer

    constructor (delay: nat)
      ensures this.delay == delay && timer == Idle
    {
      this.delay := delay;
      timer := Idle;
    }

    /** The returned wrapper being called at time `now`. */
    method Call(now: int)
      modifies this
      ensures (timer, false) == Step(old(timer), CallAt(now), delay)
    {
      timer := Pending(now + delay);
    }

    /** The host clock at time `now`; `fired` says whether the wrapped
        function runs. */
    method Tick(now: int) returns (fired: bool)
      modifies this
      ensures (timer, fired) == Step(old(timer), TickAt(now), delay)
    {
      fired := timer.Pending? && timer.deadline <= now;
      if fired {
        timer := Idle;
      }
    }
  }
}
