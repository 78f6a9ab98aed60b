/**
 * The sleep-cycle calculator (components/sleep-calculator.tsx): a 12-hour
 * time picker, the conversion between a 12-hour reading and minutes since
 * midnight, and the two lists of six bedtime or wake-up candidates spaced one
 * 90-minute sleep cycle apart, offset by six cycles plus fifteen minutes to
 * fall asleep, wrapping around a 1440-minute day.
 */
module SleepCalculator {
  import opened Decimal

  const CycleMinutes := 90
  const CyclesPerNight := 6
  const FallAsleepMinutes := 15
  /** Six cycles plus the time to fall asleep: 555 minutes, 9 h 15 min. */
  const Offset := CyclesPerNight * CycleMinutes + FallAsleepMinutes
  const MinutesPerDay := 1440

  datatype View = Main | Bedtime | Wakeup

  /** `h % 12 || 12`: the 12-hour clock hour of a 24-hour hour. */
  function Hour12(hours: int): (r: int)
    ensures 0 <= hours ==> 1 <= r <= 12
  {
    if hours % 12 == 0 then 12 else hours % 12
  }

  /** The 12-hour hour names the same position on the dial as the 24-hour one. */
  lemma Hour12Dial(hours: int)
    requires 0 <= hours
    ensures Hour12(hours) % 12 == hours % 12
  {
  }

  /** `timeToMinutes`: a 12-hour reading as minutes since midnight. */
  function TimeToMinutes(hour: int, minute: int, isPM: bool): int {
    var h := if isPM && hour != 12 then hour + 12 else hour;
    var h' := if !isPM && h == 12 then 0 else h;
    h' * 60 + minute
  }

  /** The 24-hour hour a 12-hour picker reading stands for: 12 AM is 0, 12 PM is 12. */
  function Hour24(hour: int, isPM: bool): (h: int)
    requires 1 <= hour <= 12
    ensures 0 <= h < 24 && Hour12(h) == hour && (h >= 12 <==> isPM)
  {
    if isPM then (if hour == 12 then 12 else hour + 12) else (if hour == 12 then 0 else hour)
  }

  /**
   * A valid picker reading is a minute of the day, in the afternoon exactly
   * when PM is chosen, on the chosen minute of the chosen 12-hour hour.
   */
  lemma TimeToMinutesReading(hour: int, minute: int, isPM: bool)
    requires 1 <= hour <= 12 && 0 <= minute < 60
    ensures TimeToMinutes(hour, minute, isPM) == Hour24(hour, isPM) * 60 + minute
    ensures 0 <= TimeToMinutes(hour, minute, isPM) < MinutesPerDay
    ensures TimeToMinutes(hour, minute, isPM) % 60 == minute
    ensures TimeToMinutes(hour, minute, isPM) >= 720 <==> isPM
  {
    MinuteOfDaySplit(Hour24(hour, isPM), minute);
  }

  /** The text `H:MM AM|PM` of a 12-hour reading; the hour is not padded. */
  function Label(hour: nat, minute: int, isPM: bool): string {
    NatToString(hour) + [':'] + Pad2(minute) + [' ', if isPM then 'P' else 'A', 'M']
  }

  /** `minutesToTime`: minutes since midnight back to the text of a 12-hour reading. */
  function MinutesToTime(minutes: nat): string {
    var hour := minutes / 60;
    var minute := minutes % 60;
    var isPM := hour >= 12;
    var hour' := if hour > 12 then hour - 12 else hour;
    var hour'' := if hour' == 0 then 12 else hour';
    Label(hour'', minute, isPM)
  }

  /** Minutes since midnight of a 24-hour clock reading, split back into hour and minute. */
  lemma MinuteOfDaySplit(hours: int, minutes: int)
    requires 0 <= hours < 24 && 0 <= minutes < 60
    ensures 0 <= hours * 60 + minutes < MinutesPerDay
    ensures (hours * 60 + minutes) / 60 == hours && (hours * 60 + minutes) % 60 == minutes
    ensures hours * 60 + minutes >= 720 <==> hours >= 12
  {
  }

  /**
   * A 24-hour clock reading, as minutes since midnight, is shown by
   * `minutesToTime` as its 12-hour reading, and `timeToMinutes` of that
   * reading gives the minute of the day back.
   */
  lemma ReadingShown(hours: int, minutes: int)
    requires 0 <= hours < 24 && 0 <= minutes < 60
    ensures MinutesToTime(hours * 60 + minutes) == Label(Hour12(hours), minutes, hours >= 12)
    ensures TimeToMinutes(Hour12(hours), minutes, hours >= 12) == hours * 60 + minutes
  {
    MinuteOfDaySplit(hours, minutes);
    if hours == 0 {
      assert Hour12(hours) == 12;
    } else if hours < 12 {
      assert Hour12(hours) == hours;
    } else if hours == 12 {
      assert Hour12(hours) == 12;
    } else {
      assert Hour12(hours) == hours - 12;
    }
  }

  /** The same, for a minute of the day given as one number. */
  lemma MinutesToTimeShape(x: int)
    requires 0 <= x < MinutesPerDay
    ensures 1 <= Hour12(x / 60) <= 12
    ensures MinutesToTime(x) == Label(Hour12(x / 60), x % 60, x >= 720)
    ensures TimeToMinutes(Hour12(x / 60), x % 60, x >= 720) == x
  {
    var h, m := x / 60, x % 60;
    assert x == h * 60 + m && 0 <= h < 24;
    MinuteOfDaySplit(h, m);
    ReadingShown(h, m);
  }

  /** Round trip: converting a picker reading to minutes and back shows that reading. */
  lemma RoundTrip(hour: int, minute: int, isPM: bool)
    requires 1 <= hour <= 12 && 0 <= minute < 60
    ensures MinutesToTime(TimeToMinutes(hour, minute, isPM)) == Label(hour, minute, isPM)
  {
    TimeToMinutesReading(hour, minute, isPM);
    ReadingShown(Hour24(hour, isPM), minute);
  }

  /** Different 12-hour readings have different labels. */
  lemma LabelInjective(h1: nat, m1: int, p1: bool, h2: nat, m2: int, p2: bool)
    requires 0 <= m1 < 60 && 0 <= m2 < 60
    requires Label(h1, m1, p1) == Label(h2, m2, p2)
    ensures h1 == h2 && m1 == m2 && p1 == p2
  {
    var rest1 := Pad2(m1) + [' ', if p1 then 'P' else 'A', 'M'];
    var rest2 := Pad2(m2) + [' ', if p2 then 'P' else 'A', 'M'];
    assert Label(h1, m1, p1) == NatToString(h1) + [':'] + rest1;
    assert Label(h2, m2, p2) == NatToString(h2) + [':'] + rest2;
    NatToStringDigits(h1);
    NatToStringDigits(h2);
    SplitAtColon(NatToString(h1), rest1, NatToString(h2), rest2);
    NatToStringInjective(h1, h2);
    Pad2Value(m1);
    Pad2Value(m2);
    assert Pad2(m1) == rest1[..2] == Pad2(m2);
    Pad2Injective(m1, m2);
    assert rest1[3] == (if p1 then 'P' else 'A') && rest2[3] == (if p2 then 'P' else 'A');
  }

  /** Different minutes of a day are shown differently. */
  lemma MinutesToTimeInjective(a: int, b: int)
    requires 0 <= a < MinutesPerDay && 0 <= b < MinutesPerDay
    requires MinutesToTime(a) == MinutesToTime(b)
    ensures a == b
  {
    MinutesToTimeShape(a);
    MinutesToTimeShape(b);
    LabelInjective(Hour12(a / 60), a % 60, a >= 720, Hour12(b / 60), b % 60, b >= 720);
  }

  /** Candidate i of the bedtime list: i cycles after the wake time less the offset, within the day. */
  function BedtimeMinutes(wake: int, i: int): int {
    (wake - Offset + i * CycleMinutes) % MinutesPerDay
  }

  /** Candidate i of the wake-up list: the offset plus i cycles after bedtime, within the day. */
  function WakeupMinutes(bed: int, i: int): int {
    (bed + Offset + i * CycleMinutes) % MinutesPerDay
  }

  lemma ModShift(a: int, k: int)
    ensures (a + k * MinutesPerDay) % MinutesPerDay == a % MinutesPerDay
  {
  }

  lemma ModOfMod(a: int, b: int)
    ensures (a % MinutesPerDay + b) % MinutesPerDay == (a + b) % MinutesPerDay
  {
    var q := a / MinutesPerDay;
    assert a == q * MinutesPerDay + a % MinutesPerDay;
    ModShift(a % MinutesPerDay + b, q);
  }

  /** One step of the bedtime loop computes candidate i, by way of the first candidate. */
  lemma BedtimeStep(wake: int, i: int)
    ensures ((wake - Offset + MinutesPerDay) % MinutesPerDay + i * CycleMinutes + MinutesPerDay) % MinutesPerDay
            == BedtimeMinutes(wake, i)
  {
    ModOfMod(wake - Offset + MinutesPerDay, i * CycleMinutes + MinutesPerDay);
    ModShift(wake - Offset + i * CycleMinutes, 2);
  }

  /** One step of the wake-up loop computes candidate i, by way of the first candidate. */
  lemma WakeupStep(bed: int, i: int)
    ensures ((bed + Offset) % MinutesPerDay + i * CycleMinutes) % MinutesPerDay == WakeupMinutes(bed, i)
  {
    ModOfMod(bed + Offset, i * CycleMinutes);
  }

  /**
   * The loop of `calculateBedtime`: six strings, each the text of the
   * corresponding bedtime candidate.
   */
  method BedtimeList(wakeMinutes: int) returns (bedtimes: seq<string>)
    requires 0 <= wakeMinutes < MinutesPerDay
    ensures |bedtimes| == CyclesPerNight
    ensures forall i :: 0 <= i < CyclesPerNight ==> bedtimes[i] == MinutesToTime(BedtimeMinutes(wakeMinutes, i))
  {
    var firstBedtimeMinutes := (wakeMinutes - Offset + MinutesPerDay) % MinutesPerDay;
    bedtimes := [];
    for i := 0 to CyclesPerNight
      invariant |bedtimes| == i
      invariant forall j :: 0 <= j < i ==> bedtimes[j] == MinutesToTime(BedtimeMinutes(wakeMinutes, j))
    {
      var currentMinutes := (firstBedtimeMinutes + i * CycleMinutes + MinutesPerDay) % MinutesPerDay;
      BedtimeStep(wakeMinutes, i);
      bedtimes := bedtimes + [MinutesToTime(currentMinutes)];
    }
  }

  /**
   * The loop of `calculateWakeup`: six strings, each the text of the
   * corresponding wake-up candidate.
   */
  method WakeupList(bedMinutes: int) returns (wakeupTimes: seq<string>)
    requires 0 <= bedMinutes < MinutesPerDay
    ensures |wakeupTimes| == CyclesPerNight
    ensures forall i :: 0 <= i < CyclesPerNight ==> wakeupTimes[i] == MinutesToTime(WakeupMinutes(bedMinutes, i))
  {
    var firstWakeupMinutes := (bedMinutes + Offset) % MinutesPerDay;
    wakeupTimes := [];
    for i := 0 to CyclesPerNight
      invariant |wakeupTimes| == i
      invariant forall j :: 0 <= j < i ==> wakeupTimes[j] == MinutesToTime(WakeupMinutes(bedMinutes, j))
    {
      var currentMinutes := (firstWakeupMinutes + i * CycleMinutes) % MinutesPerDay;
      WakeupStep(bedMinutes, i);
      wakeupTimes := wakeupTimes + [MinutesToTime(currentMinutes)];
    }
  }

  /** Consecutive bedtime candidates are one cycle apart, modulo a day. */
  lemma BedtimeSpacing(wake: int, i: int)
    ensures BedtimeMinutes(wake, i + 1) == (BedtimeMinutes(wake, i) + CycleMinutes) % MinutesPerDay
  {
    ModOfMod(wake - Offset + i * CycleMinutes, CycleMinutes);
  }

  /** Consecutive wake-up candidates are one cycle apart, modulo a day. */
  lemma WakeupSpacing(bed: int, i: int)
    ensures WakeupMinutes(bed, i + 1) == (WakeupMinutes(bed, i) + CycleMinutes) % MinutesPerDay
  {
    ModOfMod(bed + Offset + i * CycleMinutes, CycleMinutes);
  }

  /** Sleeping from the first bedtime candidate for the full offset wakes at the wake time. */
  lemma FirstBedtimeReachesWake(wake: int)
    requires 0 <= wake < MinutesPerDay
    ensures (BedtimeMinutes(wake, 0) + Offset) % MinutesPerDay == wake
  {
    ModOfMod(wake - Offset, Offset);
  }

  /** The first wake-up candidate is the full offset after bedtime. */
  lemma FirstWakeupLeavesBed(bed: int)
    requires 0 <= bed < MinutesPerDay
    ensures (WakeupMinutes(bed, 0) - Offset) % MinutesPerDay == bed
  {
    ModOfMod(bed + Offset, -Offset);
  }

  /** The six bedtime candidates are six different times, shown as six different strings. */
  lemma BedtimesDistinct(wake: int, i: int, j: int)
    requires 0 <= i < j < CyclesPerNight
    ensures BedtimeMinutes(wake, i) != BedtimeMinutes(wake, j)
    ensures MinutesToTime(BedtimeMinutes(wake, i)) != MinutesToTime(BedtimeMinutes(wake, j))
  {
    var a, b := BedtimeMinutes(wake, i), BedtimeMinutes(wake, j);
    var base := wake - Offset + i * CycleMinutes;
    assert wake - Offset + j * CycleMinutes == base + (j - i) * CycleMinutes;
    assert 0 < (j - i) * CycleMinutes < MinutesPerDay;
    if MinutesToTime(a) == MinutesToTime(b) {
      MinutesToTimeInjective(a, b);
    }
  }

  /** The six wake-up candidates are six different times, shown as six different strings. */
  lemma WakeupsDistinct(bed: int, i: int, j: int)
    requires 0 <= i < j < CyclesPerNight
    ensures WakeupMinutes(bed, i) != WakeupMinutes(bed, j)
    ensures MinutesToTime(WakeupMinutes(bed, i)) != MinutesToTime(WakeupMinutes(bed, j))
  {
    var a, b := WakeupMinutes(bed, i), WakeupMinutes(bed, j);
    var base := bed + Offset + i * CycleMinutes;
    assert bed + Offset + j * CycleMinutes == base + (j - i) * CycleMinutes;
    assert 0 < (j - i) * CycleMinutes < MinutesPerDay;
    if MinutesToTime(a) == MinutesToTime(b) {
      MinutesToTimeInjective(a, b);
    }
  }

  /** A clock reading whose text is spelled out digit by digit. */
  lemma ShownAs(hours: int, minutes: int, text: string)
    requires 0 <= hours < 24 && 0 <= minutes < 60
    requires text == NatToString(Hour12(hours)) + [':', DigitChar(minutes / 10), DigitChar(minutes % 10), ' ', if hours >= 12 then 'P' else 'A', 'M']
    ensures MinutesToTime(hours * 60 + minutes) == text
  {
    ReadingShown(hours, minutes);
    Pad2Digits(minutes);
  }

  /** The bedtime list for waking at 7:00 AM, as the calculator shows it. */
  const SevenAmList: seq<string> := ["9:45 PM", "11:15 PM", "12:45 AM", "2:15 AM", "3:45 AM", "5:15 AM"]

  /** The worked example: waking at 7:00 AM, the candidates run from 9:45 PM to 5:15 AM. */
  lemma SevenAmBedtimes(i: int)
    requires 0 <= i < CyclesPerNight
    ensures TimeToMinutes(7, 0, false) == 420
    ensures MinutesToTime(BedtimeMinutes(420, i)) == SevenAmList[i]
  {
    if i == 0 {
      assert BedtimeMinutes(420, i) == 21 * 60 + 45;
      ShownAs(21, 45, SevenAmList[i]);
    } else if i == 1 {
      assert BedtimeMinutes(420, i) == 23 * 60 + 15;
      ShownAs(23, 15, SevenAmList[i]);
    } else if i == 2 {
      assert BedtimeMinutes(420, i) == 0 * 60 + 45;
      ShownAs(0, 45, SevenAmList[i]);
    } else if i == 3 {
      assert BedtimeMinutes(420, i) == 2 * 60 + 15;
      ShownAs(2, 15, SevenAmList[i]);
    } else if i == 4 {
      assert BedtimeMinutes(420, i) == 3 * 60 + 45;
      ShownAs(3, 45, SevenAmList[i]);
    } else {
      assert BedtimeMinutes(420, i) == 5 * 60 + 15;
      ShownAs(5, 15, SevenAmList[i]);
    }
  }

  /** The initial picker minute: the current minute rounded down to a multiple of five. */
  function InitialMinute(minutes: int): (r: int)
    ensures 0 <= minutes ==> r % 5 == 0 && r <= minutes < r + 5
  {
    (minutes / 5) * 5
  }

  /** The hour picker's up arrow: one hour later on a 12-hour dial. */
  function IncrementedHour(hour: int): (r: int)
    ensures 1 <= hour <= 12 ==> 1 <= r <= 12 && r % 12 == (hour + 1) % 12
  {
    var h := hour + 1;
    if h > 12 then 1 else h
  }

  /** The hour picker's down arrow: one hour earlier on a 12-hour dial. */
  function DecrementedHour(hour: int): (r: int)
    ensures 1 <= hour <= 12 ==> 1 <= r <= 12 && r % 12 == (hour - 1) % 12
  {
    var h := hour - 1;
    if h < 1 then 12 else h
  }

  /** The minute picker's up arrow: one minute later on a 60-minute dial. */
  function IncrementedMinute(minute: int): (r: int)
    ensures 0 <= minute < 60 ==> r == (minute + 1) % 60
  {
    var m := minute + 1;
    if m >= 60 then 0 else m
  }

  /** The minute picker's down arrow: one minute earlier on a 60-minute dial. */
  function DecrementedMinute(minute: int): (r: int)
    ensures 0 <= minute < 60 ==> r == (minute - 1) % 60
  {
    var m := minute - 1;
    if m < 0 then 59 else m
  }

  /** The wheel direction: down (positive delta) counts up, anything else counts down. */
  function WheelDirection(deltaY: real): int {
    if deltaY > 0.0 then 1 else -1
  }

  /** The hour picker's wheel handler. */
  function WheeledHour(hour: int, deltaY: real): (r: int) {
    var h := hour + WheelDirection(deltaY);
    var h' := if h > 12 then 1 else h;
    if h' < 1 then 12 else h'
  }

  /** The minute picker's wheel handler. */
  function WheeledMinute(minute: int, deltaY: real): (r: int) {
    var m := minute + WheelDirection(deltaY);
    var m' := if m >= 60 then 0 else m;
    if m' < 0 then 59 else m'
  }

  /** Turning the wheel does what the arrow buttons do. */
  lemma WheelMatchesArrows(hour: int, minute: int, deltaY: real)
    requires 1 <= hour <= 12 && 0 <= minute < 60
    ensures WheeledHour(hour, deltaY) == if deltaY > 0.0 then IncrementedHour(hour) else DecrementedHour(hour)
    ensures WheeledMinute(minute, deltaY) == if deltaY > 0.0 then IncrementedMinute(minute) else DecrementedMinute(minute)
  {
  }

  /** The arrows wrap 12 to 1 and 1 to 12, 59 to 0 and 0 to 59, and undo each other. */
  lemma PickersWrapAndUndo(hour: int, minute: int)
    requires 1 <= hour <= 12 && 0 <= minute < 60
    ensures IncrementedHour(12) == 1 && DecrementedHour(1) == 12
    ensures IncrementedMinute(59) == 0 && DecrementedMinute(0) == 59
    ensures DecrementedHour(IncrementedHour(hour)) == hour
    ensures IncrementedHour(DecrementedHour(hour)) == hour
    ensures DecrementedMinute(IncrementedMinute(minute)) == minute
    ensures IncrementedMinute(DecrementedMinute(minute)) == minute
  {
  }

  /** `getCurrentTimeString`: the text of a 24-hour clock reading on a 12-hour face. */
  function CurrentTimeString(hours: int, minutes: int): (r: string)
    requires 0 <= hours < 24 && 0 <= minutes < 60
    ensures r == MinutesToTime(hours * 60 + minutes)
  {
    ReadingShown(hours, minutes);
    Label(Hour12(hours), minutes, hours >= 12)
  }

  /** The result views show the first two candidates as suggested and the rest as alternatives. */
  function SplitResults(results: seq<string>): (r: (seq<string>, seq<string>))
    ensures |results| >= 2 ==> |r.0| == 2 && r.0 + r.1 == results
    ensures |results| < 2 ==> r.0 == results && r.1 == []
  {
    if |results| >= 2 then (results[..2], results[2..]) else (results, [])
  }

  /** The state of the calculator component. */
  class SleepCalculator {
    var view: View
    var selectedHour: int
    var selectedMinute: int
    var isPM: bool
    var bedtimeResults: seq<string>
    var wakeupResults: seq<string>

    /** The pickers always show a valid 12-hour reading. */
    ghost predicate Valid()
      reads this
    {
      1 <= selectedHour <= 12 && 0 <= selectedMinute < 60
    }

    constructor ()
      ensures Valid()
      ensures view == Main && selectedHour == 7 && selectedMinute == 0 && isPM
      ensures bedtimeResults == [] && wakeupResults == []
    {
      view := Main;
      selectedHour, selectedMinute, isPM := 7, 0, true;
      bedtimeResults, wakeupResults := [], [];
    }

    /** The mount effect: the pickers start at the current time, minutes rounded down to five. */
    method InitFromClock(hours: int, minutes: int)
      requires 0 <= hours < 24 && 0 <= minutes < 60
      modifies this
      ensures Valid()
      ensures selectedHour == Hour12(hours) && selectedMinute == InitialMinute(minutes)
      ensures isPM == (hours >= 12)
      ensures view == old(view) && bedtimeResults == old(bedtimeResults) && wakeupResults == old(wakeupResults)
    {
      selectedHour := Hour12(hours);
      selectedMinute := InitialMinute(minutes);
      isPM := hours >= 12;
    }

    method IncrementHour()
      requires Valid()
      modifies this`selectedHour
      ensures Valid() && selectedHour == IncrementedHour(old(selectedHour))
    {
      selectedHour := IncrementedHour(selectedHour);
    }

    method DecrementHour()
      requires Valid()
      modifies this`selectedHour
      ensures Valid() && selectedHour == DecrementedHour(old(selectedHour))
    {
      selectedHour := DecrementedHour(selectedHour);
    }

    method IncrementMinute()
      requires Valid()
      modifies this`selectedMinute
      ensures Valid() && selectedMinute == IncrementedMinute(old(selectedMinute))
    {
      selectedMinute := IncrementedMinute(selectedMinute);
    }

    method DecrementMinute()
      requires Valid()
      modifies this`selectedMinute
      ensures Valid() && selectedMinute == DecrementedMinute(old(selectedMinute))
    {
      selectedMinute := DecrementedMinute(selectedMinute);
    }

    method HourWheel(deltaY: real)
      requires Valid()
      modifies this`selectedHour
      ensures Valid() && selectedHour == WheeledHour(old(selectedHour), deltaY)
    {
      selectedHour := WheeledHour(selectedHour, deltaY);
    }

    method MinuteWheel(deltaY: real)
      requires Valid()
      modifies this`selectedMinute
      ensures Valid() && selectedMinute == WheeledMinute(old(selectedMinute), deltaY)
    {
      selectedMinute := WheeledMinute(selectedMinute, deltaY);
    }

    /** `toggleAMPM`, and the AM/PM wheel handler, which does the same. */
    method ToggleAMPM()
      modifies this`isPM
      ensures isPM == !old(isPM)
    {
      isPM := !isPM;
    }

    /** `calculateBedtime`: the six bedtimes for waking at the picked time. */
    method CalculateBedtime()
      requires Valid()
      modifies this`bedtimeResults, this`view
      ensures view == Bedtime
      ensures |bedtimeResults| == CyclesPerNight
      ensures forall i :: 0 <= i < CyclesPerNight ==>
        bedtimeResults[i] == MinutesToTime(BedtimeMinutes(TimeToMinutes(selectedHour, selectedMinute, isPM), i))
    {
      var wakeMinutes := TimeToMinutes(selectedHour, selectedMinute, isPM);
      TimeToMinutesReading(selectedHour, selectedMinute, isPM);
      bedtimeResults := BedtimeList(wakeMinutes);
      view := Bedtime;
    }

    /** `calculateWakeup`: the six wake-up times for going to bed at the clock reading given. */
    method CalculateWakeup(hours: int, minutes: int)
      requires 0 <= hours < 24 && 0 <= minutes < 60
      modifies this`wakeupResults, this`view
      ensures view == Wakeup
      ensures |wakeupResults| == CyclesPerNight
      ensures forall i :: 0 <= i < CyclesPerNight ==>
        wakeupResults[i] == MinutesToTime(WakeupMinutes(hours * 60 + minutes, i))
    {
      var currentIsPM := hours >= 12;
      var bedMinutes := TimeToMinutes(Hour12(hours), minutes, currentIsPM);
      ReadingShown(hours, minutes);
      wakeupResults := WakeupList(bedMinutes);
      view := Wakeup;
    }

    /** The wake-up time shown above the bedtime results. */
    function WakeupTimeString(): (r: string)
      requires Valid()
      reads this
      ensures r == MinutesToTime(TimeToMinutes(selectedHour, selectedMinute, isPM))
    {
      RoundTrip(selectedHour, selectedMinute, isPM);
      Label(selectedHour, selectedMinute, isPM)
    }

    /** The back button of either result view. */
    method BackToMain()
      modifies this`view
      ensures view == Main
    {
      view := Main;
    }
  }
}
