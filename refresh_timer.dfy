/**
 * The refresh timer's client side: the interval it counts down (its own
 * setting, or else the shortest refresh interval of the other widgets on the
 * page), and the once-a-second countdown that wraps to the interval with a
 * pulse.
 */
module RefreshTimer {
  import opened Wrappers
  import opened Strings

  /** Interval used when neither the timer nor any other widget gives one. */
  const DEFAULT_INTERVAL: int := 15

  // ---------------------------------------------------------------------------
  // Interval detection

  /** The `data-xbo-refresh` values that parse to a positive number (None is a value parseInt rejects). */
  function Positives(values: seq<Option<int>>): (r: seq<int>)
    ensures forall v :: v in r <==> Some(v) in values && v > 0
  {
    if values == [] then []
    else
      var rest := Positives(values[1..]);
      assert forall v :: Some(v) in values <==> Some(v) == values[0] || Some(v) in values[1..];
      if values[0].Some? && values[0].value > 0 then [values[0].value] + rest else rest
  }

  /** The smallest element of a non-empty list (Math.min). */
  function SmallestOf(s: seq<int>): (m: int)
    requires |s| > 0
    ensures m in s && forall v :: v in s ==> m <= v
  {
    if |s| == 1 then s[0]
    else
      var m := SmallestOf(s[1..]);
      assert forall v :: v in s <==> v == s[0] || v in s[1..];
      if s[0] < m then s[0] else m
  }

  /** The interval initRefreshTimer settles on. */
  function Detected(configured: int, values: seq<Option<int>>): int {
    if configured > 0 then configured
    else
      var found := Positives(values);
      if |found| > 0 then SmallestOf(found) else DEFAULT_INTERVAL
  }

  /**
   * The detection step of initRefreshTimer: `configured` is the timer's own
   * interval and `values` the parsed `data-xbo-refresh` attributes on the page.
   */
  method DetectInterval(configured: int, values: seq<Option<int>>) returns (interval: int)
    ensures interval == Detected(configured, values)
  {
    interval := configured;
    if interval <= 0 {
      var intervals: seq<int> := [];
      var i := 0;
      while i < |values|
        invariant 0 <= i <= |values|
        invariant intervals + Positives(values[i..]) == Positives(values)
      {
        assert values[i..][1..] == values[i + 1..];
        if values[i].Some? && values[i].value > 0 {
          intervals := intervals + [values[i].value];
        }
        i := i + 1;
      }
      assert intervals == Positives(values);
      interval := if |intervals| > 0 then SmallestOf(intervals) else DEFAULT_INTERVAL;
    }
  }

  /**
   * A positive setting is kept; otherwise the interval is the shortest
   * positive refresh interval on the page, or 15 when there is none. Either
   * way it is positive.
   */
  lemma DetectedInterval(configured: int, values: seq<Option<int>>)
    ensures Detected(configured, values) > 0
    ensures configured > 0 ==> Detected(configured, values) == configured
    ensures configured <= 0 && (forall v :: Some(v) in values ==> v <= 0) ==>
      Detected(configured, values) == DEFAULT_INTERVAL
    ensures configured <= 0 && (exists v :: Some(v) in values && v > 0) ==>
      Some(Detected(configured, values)) in values &&
      forall v :: Some(v) in values && v > 0 ==> Detected(configured, values) <= v
  {
    if configured <= 0 && (exists v :: Some(v) in values && v > 0) {
      var v :| Some(v) in values && v > 0;
      assert v in Positives(values);
    }
  }

  // ---------------------------------------------------------------------------
  // The countdown

  /**
   * `remaining` after one tick: one less, or back to the interval when that
   * reaches 0. Within 1..interval it stays there, and it wraps to the full
   * interval exactly when it was down to 1.
   */
  function NextRemaining(remaining: int, interval: int): (r: int)
    ensures r < remaining || r == interval
    ensures 1 <= remaining <= interval ==> 1 <= r <= interval && (r == interval <==> remaining == 1)
  {
    if remaining - 1 <= 0 then interval else remaining - 1
  }

  /** `remaining` after n ticks. */
  function AfterTicks(remaining: int, interval: int, n: nat): int {
    if n == 0 then remaining else NextRemaining(AfterTicks(remaining, interval, n - 1), interval)
  }

  /** The number of pulses (wraps) during n ticks. */
  function PulsesIn(remaining: int, interval: int, n: nat): nat {
    if n == 0 then 0
    else PulsesIn(remaining, interval, n - 1) + (if AfterTicks(remaining, interval, n - 1) - 1 <= 0 then 1 else 0)
  }

  /** Counting down from a full interval: after k < interval ticks, interval - k remain and nothing pulsed. */
  lemma {:induction false} CountdownFromFull(interval: int, k: nat)
    requires interval > 0 && k < interval
    ensures AfterTicks(interval, interval, k) == interval - k
    ensures PulsesIn(interval, interval, k) == 0
  {
    if k > 0 {
      CountdownFromFull(interval, k - 1);
    }
  }

  /** Exactly `interval` ticks after a reset the countdown is full again, having pulsed exactly once. */
  lemma Periodic(interval: int)
    requires interval > 0
    ensures AfterTicks(interval, interval, interval as nat) == interval
    ensures PulsesIn(interval, interval, interval as nat) == 1
  {
    CountdownFromFull(interval, (interval - 1) as nat);
  }

  /** In a tick that does not wrap, the dash progress `1 - remaining / interval` lies strictly between 0 and 1. */
  lemma ProgressInRange(remaining: int, interval: int)
    requires 1 <= remaining < interval
    ensures 0.0 < 1.0 - (remaining as real) / (interval as real) < 1.0
  {
    var q := (remaining as real) / (interval as real);
    assert q * (interval as real) == remaining as real;
  }

  /** The timer's context: the state initRefreshTimer sets up and every tick updates. */
  class TimerContext {
    var interval: int
    var remaining: int
    /** stroke-dashoffset, `progress * circumf` (printed with toFixed(2)); '0' is 0.0. */
    var dashOffset: real
    var displayText: string
    var isPulsing: bool
    /** Circumference of the ring, from the server-rendered context. */
    const circumf: real

    predicate Valid()
      reads this
    {
      interval > 0 && 1 <= remaining <= interval
    }

    /** initRefreshTimer: detect the interval, then start from a full countdown. */
    constructor(configured: int, values: seq<Option<int>>, circumf: real)
      ensures interval == Detected(configured, values)
      ensures remaining == interval && dashOffset == 0.0 && displayText == IntToString(interval) + "s"
      ensures !isPulsing && this.circumf == circumf
      ensures Valid()
    {
      var detected := DetectInterval(configured, values);
      DetectedInterval(configured, values);
      this.circumf := circumf;
      interval := detected;
      remaining := detected;
      displayText := IntToString(detected) + "s";
      dashOffset := 0.0;
      isPulsing := false;
    }

    /** tick: one second passes. */
    method Tick()
      requires Valid()
      modifies this
      ensures remaining == NextRemaining(old(remaining), interval) && interval == old(interval)
      ensures old(remaining) - 1 <= 0 ==>
        isPulsing && dashOffset == 0.0 && displayText == IntToString(interval) + "s"
      ensures old(remaining) - 1 > 0 ==>
        isPulsing == old(isPulsing) &&
        dashOffset == (1.0 - (remaining as real) / (interval as real)) * circumf &&
        displayText == IntToString(remaining) + "s"
      ensures Valid()
    {
      remaining := remaining - 1;
      if remaining <= 0 {
        isPulsing := true;
        remaining := interval;
        dashOffset := 0.0;
        displayText := IntToString(interval) + "s";
      } else {
        var progress := 1.0 - (remaining as real) / (interval as real);
        dashOffset := progress * circumf;
        displayText := IntToString(remaining) + "s";
      }
    }

    /** The timeout 600 ms after a pulse. */
    method EndPulse()
      modifies this
      ensures !isPulsing
      ensures interval == old(interval) && remaining == old(remaining)
      ensures dashOffset == old(dashOffset) && displayText == old(displayText)
    {
      isPulsing := false;
    }
  }
}
