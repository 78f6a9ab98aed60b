/**
 * The countdown timer (`Timer`): a duration in seconds, the seconds left,
 * and whether it is running or has finished and is ringing.
 */
module Timer {
  import opened Decimal

  /** The initial duration: five minutes. */
  const InitialDuration := 300

  /**
   * The state updater of one tick, `prev <= 1 ? 0 : prev - 1`: the count
   * goes down by one and never below zero.
   */
  function NextTimeLeft(prev: int): (r: int)
    ensures 0 <= r
    ensures prev >= 1 ==> r == prev - 1
    ensures prev <= 1 ==> r == 0
  {
    if prev <= 1 then 0 else prev - 1
  }

  /** The count after n ticks. */
  function TimeLeftAfter(prev: int, n: nat): int
    decreases n
  {
    if n == 0 then prev else TimeLeftAfter(NextTimeLeft(prev), n - 1)
  }

  /** Starting from t >= 0, n ticks leave max(t - n, 0) seconds. */
  lemma {:induction false} CountsDown(t: nat, n: nat)
    ensures TimeLeftAfter(t, n) == if n <= t then t - n else 0
  {
    if n > 0 {
      CountsDown(NextTimeLeft(t), n - 1);
    }
  }

  /** The display split: `Math.floor(timeLeft / 60)` minutes and `timeLeft % 60` seconds. */
  function MinutesSeconds(timeLeft: nat): (r: (nat, nat))
    ensures r.1 < 60 && r.0 * 60 + r.1 == timeLeft
  {
    (timeLeft / 60, timeLeft % 60)
  }

  /** The two display fields, each `toString().padStart(2, "0")`. */
  function Display(timeLeft: nat): (string, string) {
    var (m, s) := MinutesSeconds(timeLeft);
    (Pad2(m), Pad2(s))
  }

  /** Below 100 minutes both fields are two digits, and reading them back gives the seconds left. */
  lemma DisplayReadsBack(timeLeft: nat)
    requires timeLeft < 6000
    ensures var (m, s) := Display(timeLeft);
      && |m| == 2 && |s| == 2
      && IsDigit(m[0]) && IsDigit(m[1]) && IsDigit(s[0]) && IsDigit(s[1])
      && (10 * DigitValue(m[0]) + DigitValue(m[1])) * 60 + 10 * DigitValue(s[0]) + DigitValue(s[1]) == timeLeft
  {
    var (mm, ss) := MinutesSeconds(timeLeft);
    Pad2Value(mm);
    Pad2Value(ss);
  }

  /** The state of the timer component. */
  class Timer {
    var duration: nat
    var timeLeft: nat
    var isRunning: bool
    var isFinished: bool
    /** Whether the finishing alarm sound plays; the sound itself is not modelled. */
    var soundPlaying: bool

    /** A finished timer is not running. */
    predicate Valid()
      reads this
    {
      isFinished ==> !isRunning
    }

    constructor()
      ensures Valid()
      ensures duration == InitialDuration && timeLeft == InitialDuration
      ensures !isRunning && !isFinished && !soundPlaying
    {
      duration := InitialDuration;
      timeLeft := InitialDuration;
      isRunning := false;
      isFinished := false;
      soundPlaying := false;
    }

    /**
     * One second of a running timer: the count goes down by one; at one
     * second or less it becomes 0, the timer stops, finishes and rings.
     */
    method Tick()
      requires Valid() && isRunning
      modifies this`timeLeft, this`isRunning, this`isFinished, this`soundPlaying
      ensures Valid()
      ensures timeLeft == NextTimeLeft(old(timeLeft))
      ensures old(timeLeft) > 1 ==> isRunning && isFinished == old(isFinished) && soundPlaying == old(soundPlaying)
      ensures old(timeLeft) <= 1 ==> timeLeft == 0 && !isRunning && isFinished && soundPlaying
    {
      if timeLeft <= 1 {
        isRunning := false;
        isFinished := true;
        soundPlaying := true;
        timeLeft := 0;
      } else {
        timeLeft := timeLeft - 1;
      }
    }

    /** `startTimer`: a timer at zero starts over from the duration; any other count resumes. */
    method Start()
      modifies this`timeLeft, this`isRunning, this`isFinished
      ensures Valid()
      ensures timeLeft == if old(timeLeft) == 0 then duration else old(timeLeft)
      ensures isRunning && !isFinished
    {
      if timeLeft == 0 {
        timeLeft := duration;
      }
      isRunning := true;
      isFinished := false;
    }

    /** `pauseTimer`: only stops the count. */
    method Pause()
      requires Valid()
      modifies this`isRunning
      ensures Valid()
      ensures !isRunning
    {
      isRunning := false;
    }

    /** `resetTimer`: stopped, not finished, silent, and the full duration left. */
    method Reset()
      modifies this`isRunning, this`timeLeft, this`isFinished, this`soundPlaying
      ensures Valid()
      ensures !isRunning && timeLeft == duration && !isFinished && !soundPlaying
    {
      isRunning := false;
      timeLeft := duration;
      isFinished := false;
      soundPlaying := false;
    }

    /**
     * `handleDurationChange`, with the slider's value (30 to 3600 seconds in
     * steps of 30): the duration always changes, the count only while the
     * timer is not running.
     */
    method HandleDurationChange(newDuration: nat)
      requires Valid()
      modifies this`duration, this`timeLeft
      ensures Valid()
      ensures duration == newDuration
      ensures timeLeft == if old(isRunning) then old(timeLeft) else newDuration
    {
      duration := newDuration;
      if !isRunning {
        timeLeft := newDuration;
      }
    }

    /** `stopAlarm`: the timer is no longer finished and the sound stops. */
    method StopAlarm()
      requires Valid()
      modifies this`isFinished, this`soundPlaying
      ensures Valid()
      ensures !isFinished && !soundPlaying
    {
      isFinished := false;
      soundPlaying := false;
    }
  }
}
