/**
 * The stopwatch (`Stopwatch`): elapsed milliseconds measured against the
 * wall clock, and a list of laps with the newest first.
 */
module Stopwatch {
  import opened Decimal

  /** A lap: its number, its own duration and the total elapsed time when it was taken. */
  datatype Lap = Lap(id: int, time: int, total: int)

  /** JavaScript's `%`, whose result takes the sign of the dividend. */
  function JsRem(a: int, b: int): (r: int)
    requires b > 0
    ensures a >= 0 ==> r == a % b
    ensures a < 0 ==> -b < r <= 0
  {
    if a >= 0 then a % b else -((-a) % b)
  }

  /**
   * The display split: `Math.floor(time / 60000)` minutes,
   * `Math.floor((time % 60000) / 1000)` seconds and
   * `Math.floor((time % 1000) / 10)` centiseconds.
   */
  function Split(time: int): (r: (int, int, int)) {
    (time / 60000, JsRem(time, 60000) / 1000, JsRem(time, 1000) / 10)
  }

  /**
   * For a non-negative time the seconds are 0-59 and the centiseconds 0-99,
   * and together with the minutes they account for the time up to the last
   * ten milliseconds.
   */
  lemma SplitBounds(time: int)
    requires time >= 0
    ensures var (m, s, cs) := Split(time);
      && 0 <= m && 0 <= s < 60 && 0 <= cs < 100
      && m * 60000 + s * 1000 + cs * 10 + time % 10 == time
  {
    var (m, s, cs) := Split(time);
    var rest := time % 60000;
    var r := rest % 1000;
    assert rest == s * 1000 + r;
    DivModUnique(time, 1000, m * 60 + s, r);
    assert r == cs * 10 + r % 10;
    DivModUnique(time, 10, m * 6000 + s * 100 + cs, r % 10);
  }

  /** Quotient and remainder are determined by the division equation. */
  lemma DivModUnique(x: int, d: int, q: int, r: int)
    requires 0 < d && 0 <= r < d && x == q * d + r
    ensures x / d == q && x % d == r
  {
    var q' := x / d;
    var r' := x % d;
    assert x == q' * d + r';
    assert q * d == (q - q') * d + q' * d;
    assert q' * d == (q' - q) * d + q * d;
    if q > q' {
      MulAtLeast(q - q', d);
      assert false;
    } else if q < q' {
      MulAtLeast(q' - q, d);
      assert false;
    }
  }

  /** A positive multiple of d is at least d. */
  lemma {:induction false} MulAtLeast(k: int, d: int)
    requires k >= 1 && d > 0
    ensures k * d >= d
  {
    if k > 1 {
      MulAtLeast(k - 1, d);
      assert k * d == (k - 1) * d + d;
    }
  }

  /** The three display fields, each `toString().padStart(2, "0")`. */
  function Display(time: int): (string, string, string) {
    var (m, s, cs) := Split(time);
    (Pad2(m), Pad2(s), Pad2(cs))
  }

  /**
   * Below 100 minutes every field is exactly two digits, and the fields read
   * back as the whole minutes, the seconds within the minute and the
   * hundredths within the second.
   */
  lemma DisplayDigits(time: int)
    requires 0 <= time < 6000000
    ensures var (m, s, cs) := Display(time);
      && |m| == 2 && |s| == 2 && |cs| == 2
      && IsDigit(m[0]) && IsDigit(m[1]) && IsDigit(s[0]) && IsDigit(s[1]) && IsDigit(cs[0]) && IsDigit(cs[1])
      && 10 * DigitValue(m[0]) + DigitValue(m[1]) == time / 60000
      && 10 * DigitValue(s[0]) + DigitValue(s[1]) == (time % 60000) / 1000
      && 10 * DigitValue(cs[0]) + DigitValue(cs[1]) == (time % 1000) / 10
  {
    SplitBounds(time);
    var (mm, ss, cc) := Split(time);
    Pad2Value(mm);
    Pad2Value(ss);
    Pad2Value(cc);
  }

  /** Laps are numbered from 1 upwards and listed newest first. */
  predicate NumberedNewestFirst(laps: seq<Lap>) {
    forall i :: 0 <= i < |laps| ==> laps[i].id == |laps| - i
  }

  /** `addLap`'s new list: the new lap in front of the old ones. */
  function WithLap(laps: seq<Lap>, lapTime: int, total: int): (r: seq<Lap>)
    ensures |r| == |laps| + 1 && r[0] == Lap(|laps| + 1, lapTime, total) && r[1..] == laps
    ensures NumberedNewestFirst(laps) ==> NumberedNewestFirst(r)
  {
    [Lap(|laps| + 1, lapTime, total)] + laps
  }

  /** The state of the stopwatch component; times are milliseconds from `Date.now()`. */
  class Stopwatch {
    var time: int
    var isRunning: bool
    var laps: seq<Lap>
    /** `startTimeRef`: the moment the current run would have started had it never been paused. */
    var startTime: int
    /** `lapStartTimeRef`: when the current lap began. */
    var lapStartTime: int
    /** The elapsed time and the wall-clock moment when the current run began. */
    ghost var timeAtResume: int
    ghost var resumedAt: int

    ghost predicate Valid()
      reads this
    {
      NumberedNewestFirst(laps) && startTime == resumedAt - timeAtResume
    }

    constructor()
      ensures Valid()
      ensures time == 0 && !isRunning && laps == [] && startTime == 0 && lapStartTime == 0
    {
      time := 0;
      isRunning := false;
      laps := [];
      startTime := 0;
      lapStartTime := 0;
      timeAtResume := 0;
      resumedAt := 0;
    }

    /**
     * `startStopwatch`: toggles running; starting from zero also starts the
     * first lap now.
     */
    method StartStopwatch(now: int)
      requires Valid()
      modifies this`isRunning, this`lapStartTime
      ensures Valid()
      ensures isRunning == !old(isRunning)
      ensures lapStartTime == if !old(isRunning) && time == 0 then now else old(lapStartTime)
    {
      if !isRunning {
        if time == 0 {
          lapStartTime := now;
        }
        isRunning := true;
      } else {
        isRunning := false;
      }
    }

    /**
     * The effect that runs when `isRunning` changes: when running, the start
     * is set back by the time already elapsed, so that the count resumes
     * where it was paused.
     */
    method RunningChanged(now: int)
      requires Valid()
      modifies this`startTime, this`timeAtResume, this`resumedAt
      ensures Valid()
      ensures isRunning ==> startTime == now - time && timeAtResume == time && resumedAt == now
      ensures !isRunning ==> startTime == old(startTime)
    {
      if isRunning {
        startTime := now - time;
        timeAtResume := time;
        resumedAt := now;
      }
    }

    /** The 10 ms tick of a running stopwatch: the time paused at plus the time since resuming. */
    method Tick(now: int)
      requires Valid() && isRunning
      modifies this`time
      ensures Valid()
      ensures time == now - startTime
      ensures time == timeAtResume + (now - resumedAt)
    {
      time := now - startTime;
    }

    /** `resetStopwatch`: stopped, at zero, without laps. */
    method Reset()
      requires Valid()
      modifies this`isRunning, this`time, this`laps
      ensures Valid()
      ensures !isRunning && time == 0 && laps == []
    {
      isRunning := false;
      time := 0;
      laps := [];
    }

    /**
     * `addLap`: nothing happens while stopped; otherwise a lap numbered one
     * past the count of laps, lasting since the last lap began and stamped
     * with the current total, goes to the front, and a new lap begins now.
     */
    method AddLap(now: int)
      requires Valid()
      modifies this`laps, this`lapStartTime
      ensures Valid()
      ensures !isRunning ==> laps == old(laps) && lapStartTime == old(lapStartTime)
      ensures isRunning ==> laps == WithLap(old(laps), now - old(lapStartTime), time) && lapStartTime == now
    {
      if !isRunning {
        return;
      }
      var lapTime := now - lapStartTime;
      lapStartTime := now;
      laps := WithLap(laps, lapTime, time);
    }
  }
}
