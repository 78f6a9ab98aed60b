/**
 * The main clock face with its alarm list (`ClockWithAlarm`). Each alarm
 * carries a `triggered` flag so that it rings at most once a day; the
 * flags are cleared when the calendar day changes, and a minute key keeps
 * the check from firing twice within the same minute.
 */
module ClockWithAlarm {
  import opened Decimal
  import opened Optional
  import opened ClockFormat

  datatype Alarm = Alarm(id: string, time: string, enabled: bool, triggered: bool)

  /** The toggle switch applied to one alarm: flip `enabled`, and clear `triggered` either way. */
  function ToggledAlarm(a: Alarm): Alarm {
    a.(enabled := !a.enabled, triggered := false)
  }

  /** `toggleAlarm`'s new list: the alarms with the id toggled, all others as they were. */
  function Toggled(alarms: seq<Alarm>, id: string): (r: seq<Alarm>)
    ensures |r| == |alarms|
    ensures forall i :: 0 <= i < |r| ==>
      r[i] == if alarms[i].id == id then ToggledAlarm(alarms[i]) else alarms[i]
  {
    if alarms == [] then []
    else [if alarms[0].id == id then ToggledAlarm(alarms[0]) else alarms[0]] + Toggled(alarms[1..], id)
  }

  /** `deleteAlarm`'s new list: the alarms whose id differs, in their original order. */
  function Deleted(alarms: seq<Alarm>, id: string): (r: seq<Alarm>)
    ensures |r| <= |alarms|
    ensures forall a :: a in r <==> a in alarms && a.id != id
    ensures (forall i :: 0 <= i < |alarms| ==> alarms[i].id != id) ==> r == alarms
  {
    if alarms == [] then []
    else if alarms[0].id == id then Deleted(alarms[1..], id)
    else [alarms[0]] + Deleted(alarms[1..], id)
  }

  /** Deleting from a list split in two deletes from each part and keeps the parts in order. */
  lemma {:induction false} DeletedAppend(a: seq<Alarm>, b: seq<Alarm>, id: string)
    ensures Deleted(a + b, id) == Deleted(a, id) + Deleted(b, id)
  {
    if a == [] {
      assert a + b == b;
    } else {
      assert (a + b)[1..] == a[1..] + b;
      DeletedAppend(a[1..], b, id);
    }
  }

  /** `triggerAlarm`'s new list: the alarms with the id marked as triggered. */
  function MarkTriggered(alarms: seq<Alarm>, id: string): (r: seq<Alarm>)
    ensures |r| == |alarms|
    ensures forall i :: 0 <= i < |r| ==>
      r[i] == if alarms[i].id == id then alarms[i].(triggered := true) else alarms[i]
  {
    if alarms == [] then []
    else [if alarms[0].id == id then alarms[0].(triggered := true) else alarms[0]] + MarkTriggered(alarms[1..], id)
  }

  /** The day-rollover list: every alarm with `triggered` cleared, nothing else changed. */
  function ResetTriggered(alarms: seq<Alarm>): (r: seq<Alarm>)
    ensures |r| == |alarms|
    ensures forall i :: 0 <= i < |r| ==> r[i] == alarms[i].(triggered := false)
  {
    if alarms == [] then [] else [alarms[0].(triggered := false)] + ResetTriggered(alarms[1..])
  }

  /** An alarm rings at a check whose `formatTime(now)` is `timeString`. */
  predicate Fires(a: Alarm, timeString: string) {
    a.enabled && a.time == timeString && !a.triggered
  }

  /**
   * The alarm whose id a check tick leaves active. Every matching alarm calls
   * `triggerAlarm`, and the state updates of one tick are applied together,
   * so the last call wins.
   */
  function LastFiring(alarms: seq<Alarm>, timeString: string): (r: Option<string>)
    ensures r.None? <==> forall i :: 0 <= i < |alarms| ==> !Fires(alarms[i], timeString)
    ensures r.Some? ==>
      exists i :: (0 <= i < |alarms| && Fires(alarms[i], timeString) && alarms[i].id == r.value &&
                   forall j :: i < j < |alarms| ==> !Fires(alarms[j], timeString))
  {
    if alarms == [] then None
    else if Fires(alarms[|alarms| - 1], timeString) then Some(alarms[|alarms| - 1].id)
    else LastFiring(alarms[..|alarms| - 1], timeString)
  }

  /** `${now.getHours()}:${now.getMinutes()}`: the minute key, without padding. */
  function MinuteKey(now: Now): string
    requires ValidNow(now)
  {
    NatToString(now.hours) + [':'] + NatToString(now.minutes)
  }

  /** Different minutes of the day have different keys, so every new minute is checked again. */
  lemma MinuteKeyInjective(a: Now, b: Now)
    requires ValidNow(a) && ValidNow(b)
    requires MinuteKey(a) == MinuteKey(b)
    ensures a.hours == b.hours && a.minutes == b.minutes
  {
    NatToStringDigits(a.hours);
    NatToStringDigits(b.hours);
    SplitAtColon(NatToString(a.hours), NatToString(a.minutes), NatToString(b.hours), NatToString(b.minutes));
    NatToStringInjective(a.hours, b.hours);
    NatToStringInjective(a.minutes, b.minutes);
  }

  /** Once an alarm's id is marked, no alarm with that id rings again until the flags are cleared. */
  lemma MarkedDoesNotFire(alarms: seq<Alarm>, id: string, timeString: string)
    ensures forall i :: 0 <= i < |alarms| && alarms[i].id == id ==> !Fires(MarkTriggered(alarms, id)[i], timeString)
    ensures LastFiring(MarkTriggered(alarms, id), timeString) != Some(id)
  {
    var m := MarkTriggered(alarms, id);
    assert forall i :: 0 <= i < |m| && m[i].id == id ==> m[i].triggered;
  }

  /** After the day rolls over, an alarm rings exactly when it is enabled and its time has come. */
  lemma ResetRearms(alarms: seq<Alarm>, timeString: string)
    ensures forall i :: 0 <= i < |alarms| ==>
      (Fires(ResetTriggered(alarms)[i], timeString) <==> alarms[i].enabled && alarms[i].time == timeString)
    ensures LastFiring(ResetTriggered(alarms), timeString).None? <==>
      forall i :: 0 <= i < |alarms| ==> !(alarms[i].enabled && alarms[i].time == timeString)
  {
    var r := ResetTriggered(alarms);
    assert forall i :: 0 <= i < |alarms| ==>
      (Fires(r[i], timeString) <==> alarms[i].enabled && alarms[i].time == timeString);
  }

  /** Toggling twice gives every alarm its `enabled` flag back, and leaves the id's alarms re-armed. */
  lemma ToggleTwice(alarms: seq<Alarm>, id: string)
    ensures var t := Toggled(Toggled(alarms, id), id);
      |t| == |alarms| &&
      forall i :: 0 <= i < |t| ==>
        t[i].enabled == alarms[i].enabled && t[i].id == alarms[i].id && t[i].time == alarms[i].time
        && (alarms[i].id == id ==> !t[i].triggered)
  {
    var t1 := Toggled(alarms, id);
    var t := Toggled(t1, id);
    assert forall i :: 0 <= i < |alarms| ==> t1[i].id == alarms[i].id;
  }

  /** The state of the clock-with-alarm component. */
  class ClockWithAlarm {
    var currentTime: Now
    var blinkColon: bool
    var alarms: seq<Alarm>
    var newAlarmTime: string
    /** Whether an alarm sound was started and not stopped; the sound itself is not modelled. */
    var soundPlaying: bool
    var activeAlarm: Option<string>
    var use12HourFormat: SettingValue
    var showDate: SettingValue
    var clockColor: SettingValue
    /** `lastDateRef`: the date key seen by the previous second tick, "" before the first. */
    var lastDate: string
    /** `triggeredMinuteRef`: the minute key of the last check that fired an alarm. */
    var triggeredMinute: string

    /** An alarm is active exactly while its sound is playing. */
    predicate Valid()
      reads this
    {
      soundPlaying <==> activeAlarm.Some?
    }

    /** The initial state: no alarms, 12-hour format, date shown, default colour. */
    constructor(now: Now)
      ensures Valid()
      ensures currentTime == now && blinkColon
      ensures alarms == [] && newAlarmTime == ""
      ensures !soundPlaying && activeAlarm == None
      ensures use12HourFormat == BoolValue(true) && showDate == BoolValue(true) && clockColor == TextValue("default")
      ensures lastDate == "" && triggeredMinute == ""
    {
      currentTime := now;
      blinkColon := true;
      alarms := [];
      newAlarmTime := "";
      soundPlaying := false;
      activeAlarm := None;
      use12HourFormat := BoolValue(true);
      showDate := BoolValue(true);
      clockColor := TextValue("default");
      lastDate := "";
      triggeredMinute := "";
    }

    /** The time input's change handler. */
    method EditNewAlarmTime(value: string)
      modifies this`newAlarmTime
      ensures newAlarmTime == value
    {
      newAlarmTime := value;
    }

    /**
     * `addAlarm`: nothing happens while the time input is empty; otherwise
     * one enabled, untriggered alarm for that time is appended and the input
     * is cleared. The id, `Date.now().toString()` in the component, is given.
     */
    method AddAlarm(id: string)
      modifies this`alarms, this`newAlarmTime
      ensures old(newAlarmTime) == "" ==> alarms == old(alarms) && newAlarmTime == old(newAlarmTime)
      ensures old(newAlarmTime) != "" ==>
        alarms == old(alarms) + [Alarm(id, old(newAlarmTime), true, false)] && newAlarmTime == ""
    {
      if newAlarmTime == "" {
        return;
      }
      alarms := alarms + [Alarm(id, newAlarmTime, true, false)];
      newAlarmTime := "";
    }

    /** `toggleAlarm`: flips the switch of the alarms with the id and re-arms them. */
    method ToggleAlarm(id: string)
      modifies this`alarms
      ensures alarms == Toggled(old(alarms), id)
    {
      alarms := Toggled(alarms, id);
    }

    /** `deleteAlarm`: removes the alarms with the id. */
    method DeleteAlarm(id: string)
      modifies this`alarms
      ensures alarms == Deleted(old(alarms), id)
    {
      alarms := Deleted(alarms, id);
    }

    /** `triggerAlarm`: the alarm becomes active, its sound starts, and it is marked as triggered. */
    method TriggerAlarm(id: string)
      modifies this`activeAlarm, this`soundPlaying, this`alarms
      ensures Valid()
      ensures activeAlarm == Some(id) && soundPlaying
      ensures alarms == MarkTriggered(old(alarms), id)
    {
      activeAlarm := Some(id);
      soundPlaying := true;
      alarms := MarkTriggered(alarms, id);
    }

    /** `stopAlarm`: no alarm is active and no sound plays; the `triggered` flags stay as they are. */
    method StopAlarm()
      modifies this`activeAlarm, this`soundPlaying
      ensures Valid()
      ensures activeAlarm == None && !soundPlaying
    {
      activeAlarm := None;
      soundPlaying := false;
    }

    /** The `clockSettingsChanged` listener: only the three known settings are stored. */
    method HandleSettingsChange(setting: string, value: SettingValue)
      modifies this`use12HourFormat, this`showDate, this`clockColor
      ensures use12HourFormat == if setting == "use12HourFormat" then value else old(use12HourFormat)
      ensures showDate == if setting == "showDate" then value else old(showDate)
      ensures clockColor == if setting == "clockColor" then value else old(clockColor)
    {
      if setting == "use12HourFormat" {
        use12HourFormat := value;
      }
      if setting == "showDate" {
        showDate := value;
      }
      if setting == "clockColor" {
        clockColor := value;
      }
    }

    /**
     * The once-a-second tick of the clock face: it stores the reading,
     * blinks the colon and, when the date differs from a previously seen
     * one, clears every alarm's `triggered` flag.
     */
    method SecondTick(now: Now)
      modifies this`currentTime, this`blinkColon, this`alarms, this`lastDate
      ensures currentTime == now && blinkColon == !old(blinkColon)
      ensures lastDate == now.dateKey
      ensures alarms == if old(lastDate) != "" && old(lastDate) != now.dateKey
        then ResetTriggered(old(alarms)) else old(alarms)
    {
      currentTime := now;
      blinkColon := !blinkColon;
      var currentDate := now.dateKey;
      if lastDate != "" && lastDate != currentDate {
        alarms := ResetTriggered(alarms);
      }
      lastDate := currentDate;
    }

    /**
     * The once-a-second alarm check. While no alarm is active and no sound
     * plays, and the minute differs from the last one that fired, each
     * alarm that is enabled, set to `timeString` (`formatTime(now)`) and not
     * yet triggered calls `triggerAlarm`. Those calls all see the list as it
     * was when the tick began, so the last of them decides the outcome.
     */
    method CheckTick(now: Now, timeString: string)
      requires ValidNow(now) && Valid()
      modifies this`activeAlarm, this`soundPlaying, this`alarms, this`triggeredMinute
      ensures Valid()
      ensures (|| old(soundPlaying) || Present(old(activeAlarm)) || old(triggeredMinute) == MinuteKey(now)
               || LastFiring(old(alarms), timeString).None?) ==>
        && activeAlarm == old(activeAlarm) && soundPlaying == old(soundPlaying)
        && alarms == old(alarms) && triggeredMinute == old(triggeredMinute)
      ensures (&& !old(soundPlaying) && !Present(old(activeAlarm)) && old(triggeredMinute) != MinuteKey(now)
               && LastFiring(old(alarms), timeString).Some?) ==>
        var id := LastFiring(old(alarms), timeString).value;
        && activeAlarm == Some(id) && soundPlaying
        && alarms == MarkTriggered(old(alarms), id)
        && triggeredMinute == MinuteKey(now)
    {
      if !soundPlaying && !Present(activeAlarm) {
        var currentMinuteString := MinuteKey(now);
        if currentMinuteString != triggeredMinute {
          var rendered := alarms;
          for i := 0 to |rendered|
            invariant Valid()
            invariant LastFiring(rendered[..i], timeString).None? ==>
              && activeAlarm == old(activeAlarm) && soundPlaying == old(soundPlaying)
              && alarms == rendered && triggeredMinute == old(triggeredMinute)
            invariant LastFiring(rendered[..i], timeString).Some? ==>
              && activeAlarm == LastFiring(rendered[..i], timeString) && soundPlaying
              && alarms == MarkTriggered(rendered, LastFiring(rendered[..i], timeString).value)
              && triggeredMinute == currentMinuteString
          {
            assert rendered[..i + 1][..i] == rendered[..i];
            var alarm := rendered[i];
            if alarm.enabled && alarm.time == timeString && !alarm.triggered {
              // triggerAlarm, with the list of the render that scheduled this tick
              activeAlarm := Some(alarm.id);
              soundPlaying := true;
              alarms := MarkTriggered(rendered, alarm.id);
              triggeredMinute := currentMinuteString;
            }
          }
          assert rendered[..|rendered|] == rendered;
        }
      }
    }
  }
}
