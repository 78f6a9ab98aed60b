/**
 * The stand-alone alarm list (`Alarm`). Instead of a flag per alarm it
 * keeps a set of alarm ids that already rang; the set is emptied on every
 * tick at second 0, so an alarm can ring at most once per minute.
 */
module AlarmPanel {
  import opened Optional
  import opened ClockFormat

  datatype Alarm = Alarm(id: string, time: string, enabled: bool)

  /** `toggleAlarm`'s new list: `enabled` flipped on the alarms with the id, nothing else changed. */
  function Toggled(alarms: seq<Alarm>, id: string): (r: seq<Alarm>)
    ensures |r| == |alarms|
    ensures forall i :: 0 <= i < |r| ==>
      r[i] == if alarms[i].id == id then alarms[i].(enabled := !alarms[i].enabled) else alarms[i]
  {
    if alarms == [] then []
    else [if alarms[0].id == id then alarms[0].(enabled := !alarms[0].enabled) else alarms[0]] + Toggled(alarms[1..], id)
  }

  /** Toggling twice restores the list. */
  lemma ToggledTwice(alarms: seq<Alarm>, id: string)
    ensures Toggled(Toggled(alarms, id), id) == alarms
  {
    var t := Toggled(Toggled(alarms, id), id);
    assert forall i :: 0 <= i < |alarms| ==> t[i] == alarms[i];
  }

  /** `deleteAlarm`'s new list: the alarms whose id differs, in their original order. */
  function Deleted(alarms: seq<Alarm>, id: string): (r: seq<Alarm>)
    ensures |r| <= |alarms|
    ensures forall a :: a in r <==> a in alarms && a.id != id
    ensures (forall i :: 0 <= i < |alarms| ==> alarms[i].id != id) ==> r == alarms
  {
    if alarms == [] then []
    else if alarms[0].id == id then Deleted(alarms[1..], id)
    else [alarms[0]] + Deleted(alarms[1..], id)
  }

  /** Deleting from a list split in two deletes from each part and keeps the parts in order. */
  lemma {:induction false} DeletedAppend(a: seq<Alarm>, b: seq<Alarm>, id: string)
    ensures Deleted(a + b, id) == Deleted(a, id) + Deleted(b, id)
  {
    if a == [] {
      assert a + b == b;
    } else {
      assert (a + b)[1..] == a[1..] + b;
      DeletedAppend(a[1..], b, id);
    }
  }

  /** An alarm matches a check whose `formatTime(now)` is `timeString`. */
  predicate Due(a: Alarm, timeString: string) {
    a.enabled && a.time == timeString
  }

  /** The ids of the due alarms in a list. */
  function DueIds(alarms: seq<Alarm>, timeString: string): set<string> {
    set i | 0 <= i < |alarms| && Due(alarms[i], timeString) :: alarms[i].id
  }

  /** Where an alarm check stands after some of the alarms: the ids that rang, and the last one. */
  datatype Scan = Scan(triggered: set<string>, last: Option<string>)

  /**
   * The check tick's pass over the list, alarm by alarm: a due alarm whose id
   * is not yet in the triggered set rings and its id is added, so a later
   * alarm with the same id in the same pass does not ring. `last` is the id
   * of the last alarm to ring (`ReportsIffRings`,
   * `LastRungIsLast`), the one left active, as its
   * `triggerAlarm` call is the last.
   */
  function ScanAlarms(alarms: seq<Alarm>, timeString: string, triggered: set<string>): (r: Scan)
    ensures r.triggered == triggered + DueIds(alarms, timeString)
    ensures r.last.Some? ==> r.last.value !in triggered && r.last.value in DueIds(alarms, timeString)
    ensures r.last.None? <==> DueIds(alarms, timeString) <= triggered
  {
    if alarms == [] then Scan(triggered, None)
    else
      var before := ScanAlarms(alarms[..|alarms| - 1], timeString, triggered);
      var a := alarms[|alarms| - 1];
      assert DueIds(alarms, timeString) ==
        DueIds(alarms[..|alarms| - 1], timeString) + (if Due(a, timeString) then {a.id} else {});
      if Due(a, timeString) && a.id !in before.triggered then Scan(before.triggered + {a.id}, Some(a.id))
      else before
  }

  /** The alarm at position `i` rings in a pass: it is due and its id rang neither before the pass nor earlier in it. */
  predicate Rings(alarms: seq<Alarm>, timeString: string, triggered: set<string>, i: int) {
    0 <= i < |alarms| && Due(alarms[i], timeString) && alarms[i].id !in triggered + DueIds(alarms[..i], timeString)
  }

  /** Whether an alarm rings does not depend on the alarms after it. */
  lemma RingsInPrefix(alarms: seq<Alarm>, timeString: string, triggered: set<string>, n: nat, i: int)
    requires n <= |alarms|
    ensures i < n ==> (Rings(alarms, timeString, triggered, i) <==> Rings(alarms[..n], timeString, triggered, i))
  {
    if 0 <= i < n {
      assert alarms[..i] == alarms[..n][..i];
    }
  }

  /**
   * The last alarm of a list rings exactly when the pass over the others
   * leaves it a due, unseen id; if it rings the pass reports it, and if not
   * the pass ends as the one over the others did.
   */
  lemma RingsAtEnd(alarms: seq<Alarm>, timeString: string, triggered: set<string>)
    requires alarms != []
    ensures var a := alarms[|alarms| - 1];
      Rings(alarms, timeString, triggered, |alarms| - 1) <==>
      Due(a, timeString) && a.id !in ScanAlarms(alarms[..|alarms| - 1], timeString, triggered).triggered
    ensures Rings(alarms, timeString, triggered, |alarms| - 1) ==>
      ScanAlarms(alarms, timeString, triggered).last == Some(alarms[|alarms| - 1].id)
    ensures !Rings(alarms, timeString, triggered, |alarms| - 1) ==>
      ScanAlarms(alarms, timeString, triggered) == ScanAlarms(alarms[..|alarms| - 1], timeString, triggered)
  {
  }

  /** A pass reports an alarm exactly when some alarm rings. */
  lemma {:induction false} ReportsIffRings(alarms: seq<Alarm>, timeString: string, triggered: set<string>)
    ensures ScanAlarms(alarms, timeString, triggered).last.Some? <==>
      (exists i :: Rings(alarms, timeString, triggered, i))
  {
    if alarms != [] {
      var n := |alarms|;
      var pre := alarms[..n - 1];
      ReportsIffRings(pre, timeString, triggered);
      RingsAtEnd(alarms, timeString, triggered);
      if !Rings(alarms, timeString, triggered, n - 1) {
        forall i | Rings(alarms, timeString, triggered, i)
          ensures Rings(pre, timeString, triggered, i)
        {
          RingsInPrefix(alarms, timeString, triggered, n - 1, i);
        }
        forall i | Rings(pre, timeString, triggered, i)
          ensures Rings(alarms, timeString, triggered, i)
        {
          RingsInPrefix(alarms, timeString, triggered, n - 1, i);
        }
      }
    }
  }

  /** No alarm after position `i` rings in a list without its last alarm if none does in the whole list. */
  lemma NoLaterRingsInPrefix(alarms: seq<Alarm>, pre: seq<Alarm>, timeString: string, triggered: set<string>, i: int)
    requires alarms != [] && pre == alarms[..|alarms| - 1]
    requires forall j :: i < j ==> !Rings(alarms, timeString, triggered, j)
    ensures forall j :: i < j ==> !Rings(pre, timeString, triggered, j)
  {
    forall j | i < j
      ensures !Rings(pre, timeString, triggered, j)
    {
      RingsInPrefix(alarms, timeString, triggered, |alarms| - 1, j);
    }
  }

  /** What a pass reports is the id of the last alarm that rings. */
  lemma {:induction false} LastRungIsLast(alarms: seq<Alarm>, timeString: string, triggered: set<string>, i: int)
    ensures Rings(alarms, timeString, triggered, i) &&
            (forall j :: i < j ==> !Rings(alarms, timeString, triggered, j))
        ==> ScanAlarms(alarms, timeString, triggered).last == Some(alarms[i].id)
  {
    if Rings(alarms, timeString, triggered, i) && (forall j :: i < j ==> !Rings(alarms, timeString, triggered, j)) {
      var n := |alarms|;
      var pre := alarms[..n - 1];
      RingsAtEnd(alarms, timeString, triggered);
      if i < n - 1 {
        assert !Rings(alarms, timeString, triggered, n - 1);
        RingsInPrefix(alarms, timeString, triggered, n - 1, i);
        NoLaterRingsInPrefix(alarms, pre, timeString, triggered, i);
        LastRungIsLast(pre, timeString, triggered, i);
      }
    }
  }

  /** An id that has rung this minute does not ring again while the set holds it. */
  lemma TriggeredDoesNotRing(alarms: seq<Alarm>, timeString: string, triggered: set<string>, id: string)
    requires id in triggered
    ensures ScanAlarms(alarms, timeString, triggered).last != Some(id)
    ensures id in ScanAlarms(alarms, timeString, triggered).triggered
  {
  }

  /** After one pass every due id is in the set, so a second pass in the same minute rings nothing. */
  lemma SecondPassSilent(alarms: seq<Alarm>, timeString: string, triggered: set<string>)
    ensures var first := ScanAlarms(alarms, timeString, triggered);
      ScanAlarms(alarms, timeString, first.triggered) == Scan(first.triggered, None)
  {
  }

  /** The state of the alarm component. */
  class AlarmPanel {
    var alarms: seq<Alarm>
    var newAlarmTime: string
    var currentTime: Now
    /** Whether an alarm sound was started and not stopped; the sound itself is not modelled. */
    var soundPlaying: bool
    var activeAlarm: Option<string>
    /** `triggeredAlarmsRef`: the ids that rang in the current minute. */
    var triggeredAlarms: set<string>

    /** An alarm is active exactly while its sound is playing. */
    predicate Valid()
      reads this
    {
      soundPlaying <==> activeAlarm.Some?
    }

    constructor(now: Now)
      ensures Valid()
      ensures alarms == [] && newAlarmTime == "" && currentTime == now
      ensures !soundPlaying && activeAlarm == None && triggeredAlarms == {}
    {
      alarms := [];
      newAlarmTime := "";
      currentTime := now;
      soundPlaying := false;
      activeAlarm := None;
      triggeredAlarms := {};
    }

    /** The time input's change handler. */
    method EditNewAlarmTime(value: string)
      modifies this`newAlarmTime
      ensures newAlarmTime == value
    {
      newAlarmTime := value;
    }

    /**
     * `addAlarm`: nothing happens while the time input is empty; otherwise
     * one enabled alarm for that time is appended and the input is cleared.
     * The id, `Date.now().toString()` in the component, is given.
     */
    method AddAlarm(id: string)
      modifies this`alarms, this`newAlarmTime
      ensures old(newAlarmTime) == "" ==> alarms == old(alarms) && newAlarmTime == old(newAlarmTime)
      ensures old(newAlarmTime) != "" ==> alarms == old(alarms) + [Alarm(id, old(newAlarmTime), true)] && newAlarmTime == ""
    {
      if newAlarmTime == "" {
        return;
      }
      alarms := alarms + [Alarm(id, newAlarmTime, true)];
      newAlarmTime := "";
    }

    /** `toggleAlarm`. */
    method ToggleAlarm(id: string)
      modifies this`alarms
      ensures alarms == Toggled(old(alarms), id)
    {
      alarms := Toggled(alarms, id);
    }

    /** `deleteAlarm`. */
    method DeleteAlarm(id: string)
      modifies this`alarms
      ensures alarms == Deleted(old(alarms), id)
    {
      alarms := Deleted(alarms, id);
    }

    /** `triggerAlarm`: the alarm becomes active and its sound starts; the list is not touched. */
    method TriggerAlarm(id: string)
      modifies this`activeAlarm, this`soundPlaying
      ensures Valid()
      ensures activeAlarm == Some(id) && soundPlaying
    {
      activeAlarm := Some(id);
      soundPlaying := true;
    }

    /**
     * `stopAlarm`: no alarm is active and no sound plays, and the alarm that
     * was active joins the triggered set so that it stays silent for the
     * rest of the minute.
     */
    method StopAlarm()
      modifies this`activeAlarm, this`soundPlaying, this`triggeredAlarms
      ensures Valid()
      ensures activeAlarm == None && !soundPlaying
      ensures triggeredAlarms == old(triggeredAlarms) + (if Present(old(activeAlarm)) then {old(activeAlarm).value} else {})
    {
      var previous := activeAlarm;
      activeAlarm := None;
      soundPlaying := false;
      if Present(previous) {
        triggeredAlarms := triggeredAlarms + {previous.value};
      }
    }

    /**
     * The once-a-second alarm check: it stores the reading and, while no
     * sound plays, rings every due alarm whose id is not in the triggered
     * set, provided no alarm was active when the tick began.
     */
    method CheckTick(now: Now, timeString: string)
      requires Valid()
      modifies this`currentTime, this`activeAlarm, this`soundPlaying, this`triggeredAlarms
      ensures Valid()
      ensures currentTime == now
      ensures old(soundPlaying) ==>
        activeAlarm == old(activeAlarm) && soundPlaying && triggeredAlarms == old(triggeredAlarms)
      ensures !old(soundPlaying) ==>
        var scan := ScanAlarms(alarms, timeString, old(triggeredAlarms));
        && triggeredAlarms == scan.triggered
        && activeAlarm == scan.last
        && soundPlaying == scan.last.Some?
    {
      currentTime := now;
      if !soundPlaying {
        var rendered := alarms;
        var active := activeAlarm;
        for i := 0 to |rendered|
          invariant Valid() && currentTime == now
          invariant triggeredAlarms == ScanAlarms(rendered[..i], timeString, old(triggeredAlarms)).triggered
          invariant activeAlarm == ScanAlarms(rendered[..i], timeString, old(triggeredAlarms)).last
        {
          assert rendered[..i + 1][..i] == rendered[..i];
          var alarm := rendered[i];
          if alarm.enabled && alarm.time == timeString && alarm.id !in triggeredAlarms && !Present(active) {
            // triggerAlarm, then the id joins the set
            activeAlarm := Some(alarm.id);
            soundPlaying := true;
            triggeredAlarms := triggeredAlarms + {alarm.id};
          }
        }
        assert rendered[..|rendered|] == rendered;
      }
    }

    /** The reset tick: at second 0 of a minute the triggered set is emptied, at other seconds it is kept. */
    method ResetTick(now: Now)
      modifies this`triggeredAlarms
      ensures triggeredAlarms == if now.seconds == 0 then {} else old(triggeredAlarms)
    {
      if now.seconds == 0 {
        triggeredAlarms := {};
      }
    }
  }
}
