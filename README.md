# timehub, modelled in Dafny

timehub is a client-side clock app. It has a clock with alarms, a stand-alone
alarm list, a countdown timer, a stopwatch with laps, a sleep-cycle calculator,
a sleep-sounds player with a sleep timer, and a page shell. The page shell
switches tabs, zooms the digits and toggles the theme and fullscreen.

This project models the logic of those components. Each React component
becomes a Dafny `class`: its state variables and refs are fields, and each
event handler or interval tick is a `method` with a `modifies` frame. The pure
parts are functions, with lemmas about them. These pure parts are:

- the 12-hour/minutes conversions;
- the sleep-cycle arithmetic;
- the alarm-list updates;
- the display decompositions.

Several things are passed in as parameters instead of being read:

- The wall clock becomes a `Now(hours, minutes, seconds, dateKey)` value or an
  integer millisecond count.
- `formatTime(now)` from `lib/time-utils` becomes an uninterpreted `timeString`.
- A fetch result becomes a `FetchOutcome` value.
- How a white-noise start goes (started, or which step failed) becomes a
  `NoiseStart` value.

Three modules are shared:

- `Decimal` models JavaScript's `toString()` on non-negative integers and
  `padStart(2, "0")`. It proves that they read back and are injective.
- `ClockFormat` models:
  - the settings value that arrives through the `clockSettingsChanged` event
    (a JavaScript `any`: a boolean or a string);
  - JavaScript truthiness;
  - the colour class;
  - the 24 to 12-hour conversion of the clock faces.
- `Optional` holds the `Option` type.

Two React behaviours are modelled explicitly:

- A handler reads the state it was rendered with. Several `setState` calls in
  one tick are batched, so the last one wins.
- Both alarm checks call `triggerAlarm` from a `forEach` over the list as it
  was rendered.
  - In `clock-with-alarm.tsx` every call starts from that same stale list. So
    when two alarms are due in one minute, the last one stays active and only
    its `triggered` flag is set. `ClockWithAlarm.CheckTick` states exactly this
    through `LastFiring`; it does not assume that one alarm fires first.
  - In `alarm.tsx` the triggered-id set is a ref and is updated live. Every due
    id that is not yet in the set is added, and the last one stays active
    (`AlarmPanel.ScanAlarms`, `AlarmPanel.LastRungIsLast`).

## Model

| member | source | states |
|---|---|---|
| SleepCalculator.Hour12 | components/sleep-calculator.tsx:180 | `h % 12 \|\| 12` is always a dial hour 1-12 |
| SleepCalculator.Hour12Dial | components/sleep-calculator.tsx:199 | the 12-hour reading shows the same position on the dial as the 24-hour hour |
| SleepCalculator.Hour24 | components/sleep-calculator.tsx:129-135 | `timeToMinutes`' hour: 12 AM is 0, 12 PM stays 12, other PM hours add 12; the result is in 0-23, reads back as the dial hour, and is past noon exactly for PM |
| SleepCalculator.TimeToMinutesReading | components/sleep-calculator.tsx:129-135 | for hour 1-12 and minute 0-59 the result is in [0,1440), its minute part is the minute, and it is at least 720 exactly when PM |
| SleepCalculator.MinuteOfDaySplit | components/sleep-calculator.tsx:138-140 | a minute of the day splits back into its hour and minute; from 720 on it is afternoon |
| SleepCalculator.ReadingShown | components/sleep-calculator.tsx:129-152 | `minutesToTime` of a 24-hour reading is "h:mm AM/PM" on the 12-hour dial, and `timeToMinutes` of that dial reading gives the reading back |
| SleepCalculator.MinutesToTimeShape | components/sleep-calculator.tsx:138-152 | for x in [0,1440) the hour shown is 1-12, the minute is x mod 60, the period is PM exactly from 720 on, and converting back gives x |
| SleepCalculator.RoundTrip | components/sleep-calculator.tsx:129-152 | `minutesToTime(timeToMinutes(h, m, pm))` is "h:mm AM/PM" built from the same inputs |
| SleepCalculator.LabelInjective | components/sleep-calculator.tsx:151 | two "h:mm AM/PM" labels are equal only when hour, minute and period are equal |
| SleepCalculator.MinutesToTimeInjective | components/sleep-calculator.tsx:138-152 | different minutes of the day are shown as different strings |
| SleepCalculator.BedtimeStep | components/sleep-calculator.tsx:160-165 | the two-step bedtime arithmetic (first bedtime, then + i·90, + 1440, mod 1440) is (wake − 555 + i·90) mod 1440 |
| SleepCalculator.WakeupStep | components/sleep-calculator.tsx:183-188 | the two-step wake-up arithmetic is (bed + 555 + i·90) mod 1440 |
| SleepCalculator.BedtimeList | components/sleep-calculator.tsx:163-168 | the loop yields exactly 6 strings, entry i being `minutesToTime((wake − 555 + i·90) mod 1440)` |
| SleepCalculator.WakeupList | components/sleep-calculator.tsx:186-191 | the loop yields exactly 6 strings, entry i being `minutesToTime((bed + 555 + i·90) mod 1440)` |
| SleepCalculator.BedtimeSpacing | components/sleep-calculator.tsx:165 | consecutive bedtimes are 90 minutes apart, mod 1440 |
| SleepCalculator.WakeupSpacing | components/sleep-calculator.tsx:188 | consecutive wake-up times are 90 minutes apart, mod 1440 |
| SleepCalculator.FirstBedtimeReachesWake | components/sleep-calculator.tsx:160 | adding 555 to the first bedtime, mod 1440, gives the wake-up minute back |
| SleepCalculator.FirstWakeupLeavesBed | components/sleep-calculator.tsx:183 | subtracting 555 from the first wake-up time, mod 1440, gives the bedtime back |
| SleepCalculator.BedtimesDistinct | components/sleep-calculator.tsx:163-168 | the six bedtimes are pairwise different minutes and different strings |
| SleepCalculator.WakeupsDistinct | components/sleep-calculator.tsx:186-191 | the six wake-up times are pairwise different minutes and different strings |
| SleepCalculator.ShownAs | components/sleep-calculator.tsx:138-152 | a reading is shown as its unpadded 12-hour hour, ":", two minute digits and " AM"/" PM" |
| SleepCalculator.SevenAmBedtimes | components/sleep-calculator.tsx:155-171 | waking at 7:00 AM (minute 420) gives 9:45 PM, 11:15 PM, 12:45 AM, 2:15 AM, 3:45 AM, 5:15 AM |
| SleepCalculator.InitialMinute | components/sleep-calculator.tsx:27 | the initial minute is floored to a multiple of 5 |
| SleepCalculator.IncrementedHour | components/sleep-calculator.tsx:88-95 | the hour picker goes up one on the dial and stays in 1-12 |
| SleepCalculator.DecrementedHour | components/sleep-calculator.tsx:97-104 | the hour picker goes down one on the dial and stays in 1-12 |
| SleepCalculator.IncrementedMinute | components/sleep-calculator.tsx:106-113 | the minute picker goes up one mod 60 |
| SleepCalculator.DecrementedMinute | components/sleep-calculator.tsx:115-122 | the minute picker goes down one mod 60 |
| SleepCalculator.WheelMatchesArrows | components/sleep-calculator.tsx:37-57 | the mouse wheel steps the pickers exactly as the arrow buttons do, up for positive deltaY |
| SleepCalculator.PickersWrapAndUndo | components/sleep-calculator.tsx:88-122 | 12 wraps to 1 and back, 59 to 0 and back, and increment and decrement undo each other |
| SleepCalculator.CurrentTimeString | components/sleep-calculator.tsx:197-203 | `getCurrentTimeString` shows the reading as `minutesToTime` would |
| SleepCalculator.SplitResults | components/sleep-calculator.tsx:306-307 | the first two results are the suggested ones, the rest the alternatives, together the whole list |
| SleepCalculator.SleepCalculator.constructor | components/sleep-calculator.tsx:13-18 | the main view, 7:00 PM selected, no results |
| SleepCalculator.SleepCalculator.InitFromClock | components/sleep-calculator.tsx:24-29 | the pickers start at the clock's 12-hour hour, the minute floored to 5, PM exactly from noon |
| SleepCalculator.SleepCalculator.IncrementHour | components/sleep-calculator.tsx:88-95 | the selected hour becomes `IncrementedHour` of the old one, still in 1-12 |
| SleepCalculator.SleepCalculator.DecrementHour | components/sleep-calculator.tsx:97-104 | the selected hour becomes `DecrementedHour` of the old one, still in 1-12 |
| SleepCalculator.SleepCalculator.IncrementMinute | components/sleep-calculator.tsx:106-113 | the selected minute becomes `IncrementedMinute` of the old one |
| SleepCalculator.SleepCalculator.DecrementMinute | components/sleep-calculator.tsx:115-122 | the selected minute becomes `DecrementedMinute` of the old one |
| SleepCalculator.SleepCalculator.HourWheel | components/sleep-calculator.tsx:37-46 | the hour wheel handler steps the selected hour by the wheel's direction |
| SleepCalculator.SleepCalculator.MinuteWheel | components/sleep-calculator.tsx:48-57 | the minute wheel handler steps the selected minute by the wheel's direction |
| SleepCalculator.SleepCalculator.ToggleAMPM | components/sleep-calculator.tsx:124-126 | AM and PM swap |
| SleepCalculator.SleepCalculator.CalculateBedtime | components/sleep-calculator.tsx:155-171 | the bedtime view with exactly six results, entry i being the bedtime i for the picked wake-up time |
| SleepCalculator.SleepCalculator.CalculateWakeup | components/sleep-calculator.tsx:174-194 | the wake-up view with exactly six results, entry i being the wake-up time i for going to bed at the clock reading |
| SleepCalculator.SleepCalculator.WakeupTimeString | components/sleep-calculator.tsx:303 | the label above the bedtimes is the picked time as `minutesToTime(timeToMinutes(...))` shows it |
| SleepCalculator.SleepCalculator.BackToMain | components/sleep-calculator.tsx:350 | the back button returns to the main view |
| ClockFormat.ColorClass | components/clock-with-alarm.tsx:123-136 | blue, green, purple and red give `text-blue-500`, `text-green-500`, `text-purple-500` and `text-red-500`; any other value gives the default class |
| ClockFormat.NamedColorClass | components/mini-clock.tsx:45-57 | a named colour's class is `text-` + the colour + `-500` |
| ClockFormat.ColorClassesDistinct | components/mini-clock.tsx:45-57 | the four named colours give four classes, pairwise different and different from the default |
| ClockFormat.DisplayHour | components/fullscreen-clock.tsx:66-70 | in 12-hour mode the hour is 1-12 and on the same dial position; in 24-hour mode it is unchanged |
| ClockFormat.DisplayHourCases | components/mini-clock.tsx:64-68 | 0 and 12 show as 12, 1-11 unchanged, 13-23 as 1-11 |
| ClockFormat.LargeFace | components/fullscreen-clock.tsx:63-68 | `ampm` is "PM" exactly in 12-hour mode from noon, else "AM" |
| ClockFormat.LargeFaceDigits | components/fullscreen-clock.tsx:72-74 | hours, minutes and seconds are each exactly two digits that read back as the shown hour, the minute and the second |
| ClockFormat.MiniTimeStringShape | components/mini-clock.tsx:61-73 | "HH:MM" then " PM" from noon or " AM" before it in 12-hour mode, nothing in 24-hour mode; the fields read back |
| ClockWithAlarm.Toggled | components/clock-with-alarm.tsx:196-204 | same length; alarms with the id get `enabled` flipped and `triggered` cleared, others unchanged |
| ClockWithAlarm.ToggleTwice | components/clock-with-alarm.tsx:196-204 | toggling twice restores `enabled` and leaves the flags cleared |
| ClockWithAlarm.Deleted | components/clock-with-alarm.tsx:206-208 | exactly the alarms with other ids remain; nothing changes when no alarm has the id |
| ClockWithAlarm.DeletedAppend | components/clock-with-alarm.tsx:206-208 | deletion keeps the remaining alarms in their original order |
| ClockWithAlarm.MarkTriggered | components/clock-with-alarm.tsx:215 | only the alarms with the id get `triggered` set |
| ClockWithAlarm.ResetTriggered | components/clock-with-alarm.tsx:45-47 | every alarm's `triggered` flag is cleared and nothing else changes |
| ClockWithAlarm.LastFiring | components/clock-with-alarm.tsx:102-109 | none when no alarm is enabled, due and untriggered; otherwise the id of the last such alarm |
| ClockWithAlarm.MinuteKeyInjective | components/clock-with-alarm.tsx:98 | the "H:M" key identifies the hour and minute |
| ClockWithAlarm.MarkedDoesNotFire | components/clock-with-alarm.tsx:104 | an alarm marked triggered does not fire again |
| ClockWithAlarm.ResetRearms | components/clock-with-alarm.tsx:43-48 | after the rollover an enabled alarm at the time fires again |
| ClockWithAlarm.ClockWithAlarm.constructor | components/clock-with-alarm.tsx:23-35 | the initial state: no alarms, silent, 12-hour format, date shown, default colour, no date or minute seen |
| ClockWithAlarm.ClockWithAlarm.EditNewAlarmTime | components/clock-with-alarm.tsx:328 | the time input's value is stored |
| ClockWithAlarm.ClockWithAlarm.AddAlarm | components/clock-with-alarm.tsx:182-194 | nothing on an empty input; otherwise one enabled, untriggered alarm is appended and the input cleared |
| ClockWithAlarm.ClockWithAlarm.ToggleAlarm | components/clock-with-alarm.tsx:196-204 | the list becomes `Toggled` of the old one |
| ClockWithAlarm.ClockWithAlarm.DeleteAlarm | components/clock-with-alarm.tsx:206-208 | the list becomes `Deleted` of the old one |
| ClockWithAlarm.ClockWithAlarm.TriggerAlarm | components/clock-with-alarm.tsx:210-222 | the id is active, the sound plays, and only its alarms are marked triggered |
| ClockWithAlarm.ClockWithAlarm.StopAlarm | components/clock-with-alarm.tsx:224-239 | no active alarm and no sound; the list, with its `triggered` flags, is unchanged |
| ClockWithAlarm.ClockWithAlarm.HandleSettingsChange | components/clock-with-alarm.tsx:71-76 | only the named setting among hour format, date and colour changes |
| ClockWithAlarm.ClockWithAlarm.SecondTick | components/clock-with-alarm.tsx:37-52 | the reading is stored, the colon blinks, and the flags are reset exactly when a previous non-empty date differs |
| ClockWithAlarm.ClockWithAlarm.CheckTick | components/clock-with-alarm.tsx:91-115 | nothing changes while a sound plays, an alarm is active or the minute already fired; otherwise the last firing alarm, if any, becomes active and marked, and the minute is recorded |
| AlarmPanel.Toggled | components/alarm.tsx:103-105 | same length; `enabled` is flipped on the alarms with the id only |
| AlarmPanel.ToggledTwice | components/alarm.tsx:103-105 | toggling twice restores the list |
| AlarmPanel.Deleted | components/alarm.tsx:107-109 | exactly the alarms with other ids remain; nothing changes when no alarm has the id |
| AlarmPanel.DeletedAppend | components/alarm.tsx:107-109 | deletion keeps the remaining alarms in their original order |
| AlarmPanel.ScanAlarms | components/alarm.tsx:50-64 | the set gains exactly the due ids; the active alarm is a due id that was not in the set, and there is none exactly when every due id was already in it |
| AlarmPanel.TriggeredDoesNotRing | components/alarm.tsx:57 | an id already in the set does not ring and stays in it |
| AlarmPanel.RingsAtEnd | components/alarm.tsx:52-62 | the list's last alarm rings exactly when it is due and its id was not added by the alarms before it; then the pass reports it, otherwise the pass ends as the one over the others |
| AlarmPanel.ReportsIffRings | components/alarm.tsx:52-62 | a pass leaves an alarm active exactly when some alarm rings in it |
| AlarmPanel.LastRungIsLast | components/alarm.tsx:52-62 | the alarm left active is the last one in list order to ring, as its `triggerAlarm` call comes last |
| AlarmPanel.SecondPassSilent | components/alarm.tsx:50-64 | a second pass within the same minute rings nothing |
| AlarmPanel.AlarmPanel.constructor | components/alarm.tsx:18-25 | no alarms, silent, empty triggered set |
| AlarmPanel.AlarmPanel.EditNewAlarmTime | components/alarm.tsx:165 | the time input's value is stored |
| AlarmPanel.AlarmPanel.AddAlarm | components/alarm.tsx:90-101 | nothing on an empty input; otherwise one enabled alarm is appended and the input cleared |
| AlarmPanel.AlarmPanel.ToggleAlarm | components/alarm.tsx:103-105 | the list becomes `Toggled` of the old one |
| AlarmPanel.AlarmPanel.DeleteAlarm | components/alarm.tsx:107-109 | the list becomes `Deleted` of the old one |
| AlarmPanel.AlarmPanel.TriggerAlarm | components/alarm.tsx:111-120 | the id is active and the sound plays |
| AlarmPanel.AlarmPanel.StopAlarm | components/alarm.tsx:122-139 | no active alarm and no sound; the previously active id, if any, joins the set |
| AlarmPanel.AlarmPanel.CheckTick | components/alarm.tsx:44-69 | the reading is stored; nothing else changes while a sound plays; otherwise the set and the active alarm are those of `ScanAlarms` |
| AlarmPanel.AlarmPanel.ResetTick | components/alarm.tsx:72-83 | the set is emptied on a tick at second 0, and only then |
| Timer.NextTimeLeft | components/timer.tsx:39-55 | the count goes down by exactly one above 1, and becomes 0 otherwise; it is never negative |
| Timer.CountsDown | components/timer.tsx:38-56 | n ticks from t leave max(t − n, 0) |
| Timer.MinutesSeconds | components/timer.tsx:122-125 | seconds are 0-59 and minutes·60 + seconds is the count |
| Timer.DisplayReadsBack | components/timer.tsx:122-125 | below 100 minutes both fields are two digits that read back as the count |
| Timer.Timer.constructor | components/timer.tsx:15-18 | five minutes set and left, stopped, not finished |
| Timer.Timer.Tick | components/timer.tsx:38-56 | the count follows `NextTimeLeft`; at 1 or below the timer stops, finishes and rings, above it keeps running |
| Timer.Timer.Start | components/timer.tsx:79-83 | the count is restored to the duration only when it is 0; running and not finished |
| Timer.Timer.Pause | components/timer.tsx:85-87 | only `isRunning` is cleared |
| Timer.Timer.Reset | components/timer.tsx:89-101 | stopped, not finished, silent, the full duration left |
| Timer.Timer.HandleDurationChange | components/timer.tsx:103-107 | the duration always changes, the count only when not running |
| Timer.Timer.StopAlarm | components/timer.tsx:109-119 | no longer finished and silent |
| Stopwatch.JsRem | components/stopwatch.tsx:94-97 | JavaScript `%`: the mathematical remainder for a non-negative dividend |
| Stopwatch.SplitBounds | components/stopwatch.tsx:91-97 | seconds are 0-59, centiseconds 0-99, and the fields add up to the time, less its last 10 ms |
| Stopwatch.DisplayDigits | components/stopwatch.tsx:91-99 | below 100 minutes each field is exactly two digits, and the fields read back as the minutes, the seconds within the minute and the hundredths within the second |
| Stopwatch.WithLap | components/stopwatch.tsx:81-87 | one lap in front, numbered one past the count, with the earlier laps unchanged behind it; the numbering is kept |
| Stopwatch.Stopwatch.constructor | components/stopwatch.tsx:21-26 | zero time, stopped, no laps |
| Stopwatch.Stopwatch.StartStopwatch | components/stopwatch.tsx:56-65 | running is toggled; starting from time 0 starts the first lap now |
| Stopwatch.Stopwatch.RunningChanged | components/stopwatch.tsx:28-33 | on resume the start is now minus the elapsed time |
| Stopwatch.Stopwatch.Tick | components/stopwatch.tsx:31-33 | the time is the time at resume plus the time since resuming |
| Stopwatch.Stopwatch.Reset | components/stopwatch.tsx:67-72 | stopped, at zero, without laps |
| Stopwatch.Stopwatch.AddLap | components/stopwatch.tsx:74-88 | nothing while stopped; otherwise the new lap lasts since the last lap began, carries the current total, goes in front, and a new lap begins now |
| SleepSounds.FindOption | components/sleep.tsx:589 | `find` gives the first option with the id, or nothing when none has it |
| SleepSounds.SelectOption | components/sleep.tsx:589 | an option with the id when one exists, otherwise the first option |
| SleepSounds.SelectById | components/sleep.tsx:589 | with distinct ids each option is chosen by its own id |
| SleepSounds.OfferedIdsDistinct | components/sleep.tsx:16-28 | the offered ambient sounds and lofi tracks have distinct ids |
| SleepSounds.PlaybackFor | components/sleep.tsx:559-567 | an ambient noise option plays white noise; an ambient sample or a lofi track plays its own file when it has one and nothing otherwise; a lofi option without a file plays nothing; a sample request always names a file |
| SleepSounds.AfterStart | components/sleep.tsx:245-307 | a sample start is loading with no error and nothing playing; a white-noise start ends not loading, playing exactly when it started (or when it failed before stopping a playing sound), with an error exactly when it failed; no request changes nothing |
| SleepSounds.OfferedOptionsPlay | components/sleep.tsx:16-28 | every offered option has something to play, and a lofi track plays its own file |
| SleepSounds.NextRemaining | components/sleep.tsx:187-209 | a positive count goes down by one; at zero or with no timer it becomes none |
| SleepSounds.CountdownEnds | components/sleep.tsx:187-209 | a timer set to s seconds shows 0 after s steps and is cleared by the next |
| SleepSounds.AfterOneMore | components/sleep.tsx:187-209 | one step and then n is n + 1 steps |
| SleepSounds.HoursMinutesSeconds | components/sleep.tsx:649-651 | minutes and seconds are 0-59 and the fields add up to the count |
| SleepSounds.FormatReadsBack | components/sleep.tsx:646-654 | below 100 hours the text is "HH:MM:SS" with fields that read back as the count |
| SleepSounds.LookupStep | components/sleep.tsx:311-360 | a cached file returns its URL with nothing changed; at 3 failures it returns none with "Failed to load audio after multiple attempts: " and the file name and no request; a success caches, resets the count and keeps the error; a failure adds one to that file's count only and reports "Failed to fetch audio: ", "API error: " or "Network error fetching audio: " as the response failed |
| SleepSounds.AtMostThreeFailedRequests | components/sleep.tsx:318-322 | a run of failed lookups for one file makes at most 3 requests in all |
| SleepSounds.SleepPlayer.constructor | components/sleep.tsx:31-41 | nothing plays, the first options are selected, no timer, an empty cache and no counts |
| SleepSounds.SleepPlayer.StopSound | components/sleep.tsx:509-552 | not playing and no error |
| SleepSounds.SleepPlayer.PlayWhiteNoise | components/sleep.tsx:245-307 | the flags become those `AfterStart` gives a white-noise start |
| SleepSounds.SleepPlayer.StartAudioSample | components/sleep.tsx:363-368 | loading, no error and nothing playing, as `AfterStart` gives a sample start |
| SleepSounds.SleepPlayer.StartPlayback | components/sleep.tsx:558-567 | the flags become those `AfterStart` gives the request |
| SleepSounds.SleepPlayer.PlaySelectedSound | components/sleep.tsx:555-568 | the request is the selected sound's, and the flags are those `AfterStart` gives it from loading with no error |
| SleepSounds.SleepPlayer.HandleAsmrChange | components/sleep.tsx:588-605 | the option with the value, or the first one, is selected; playback restarts with it only if it was playing |
| SleepSounds.SleepPlayer.HandleLofiChange | components/sleep.tsx:608-623 | the same for the lofi tracks |
| SleepSounds.SleepPlayer.HandleSleepTimeSet | components/sleep.tsx:626-643 | the sleep time is h and h·3600 seconds remain; it starts the selected sound, as `PlaySelectedSound` does, only when neither playing nor loading; otherwise the flags are unchanged |
| SleepSounds.SleepPlayer.CountdownStep | components/sleep.tsx:187-209 | the count follows `NextRemaining`; at 0 the sound stops and the timer is cleared |
| SleepSounds.SleepPlayer.GetAudioUrl | components/sleep.tsx:311-360 | cache, counts, error and result are exactly those of `LookupStep` |
| SleepSounds.SleepPlayer.HandleRetry | components/sleep.tsx:659-678 | an empty cache and no retry counts, and the selected sound started again from no error, without being marked as loading first |
| Page.ZoomFactorsIncrease | app/page.tsx:28 | the zoom factors grow strictly with the level, from 1 to 2 |
| Page.ZoomedIn | app/page.tsx:98-102 | up one level below the top (level 3), unchanged at it; the level stays in 0-3 |
| Page.ZoomedOut | app/page.tsx:105-109 | down one level above 0, unchanged at it; the level stays in 0-3 |
| Page.ZoomUndo | app/page.tsx:98-109 | zooming out undoes zooming in, and the reverse, away from the ends |
| Page.RenderActiveComponent | app/page.tsx:171-186 | each of the four tabs gets its own view; any other tab gets the clock |
| Page.Home.constructor | app/page.tsx:30-35 | the clock tab, light, not fullscreen, level 0 |
| Page.Home.ToggleTheme | app/page.tsx:86-95 | the dark-mode flag is negated |
| Page.Home.ZoomIn | app/page.tsx:98-102 | the level becomes `ZoomedIn` of the old one and stays in 0-3 |
| Page.Home.ZoomOut | app/page.tsx:105-109 | the level becomes `ZoomedOut` of the old one and stays in 0-3 |
| Page.Home.CurrentZoomLevel | app/page.tsx:166-168 | the factor is in [1, 2]: 1 exactly at level 0, 2 exactly at level 3 |
| Page.Home.CanZoomOut | app/page.tsx:273 | true exactly when zooming out would change the level |
| Page.Home.HandleFullscreen | app/page.tsx:157-163 | enter when not in fullscreen, exit when in it |
| Page.Home.FullscreenChanged | app/page.tsx:59-61 | the flag takes the browser's fullscreen state |
| Page.Home.KeyDown | app/page.tsx:69-73 | Escape leaves fullscreen; nothing else changes the flag |
| Page.Home.Mounted | app/page.tsx:50-52 | dark when the page has the dark class or the system prefers dark |
| Page.Home.SelectTab | app/page.tsx:204-228 | the chosen tab becomes active |
| MiniClock.MiniClock.constructor | components/mini-clock.tsx:12-14 | 12-hour format and the default colour |
| MiniClock.MiniClock.Tick | components/mini-clock.tsx:17-19 | the reading is replaced |
| MiniClock.MiniClock.HandleSettingsChange | components/mini-clock.tsx:30-34 | only the hour format or the colour changes, by its own key; other keys change nothing |
| MiniClock.MiniClock.Shown | components/mini-clock.tsx:45-73 | the text is 8 or 5 characters with a colon at 2 and fields that read back; a named colour gives `text-<colour>-500` and any other the default class |
| FullscreenClock.FullscreenClock.constructor | components/fullscreen-clock.tsx:12-15 | the colon shown, 12-hour format and the default colour |
| FullscreenClock.FullscreenClock.Tick | components/fullscreen-clock.tsx:17-21 | the reading is replaced and the colon blinks |
| FullscreenClock.FullscreenClock.HandleSettingsChange | components/fullscreen-clock.tsx:32-36 | only the hour format or the colour changes; `showDate` and other keys are ignored |
| FullscreenClock.FullscreenClock.Shown | components/fullscreen-clock.tsx:47-74 | two-digit fields that read back as the shown hour, minute and second; "PM" exactly from noon in 12-hour mode; a named colour gives `text-<colour>-500` and any other the default class |
| Decimal.NatToStringDigits | components/sleep-calculator.tsx:151 | `toString()` of a natural number is all digits |
| Decimal.NumeralValueOfNatToString | components/sleep-calculator.tsx:151 | the digits of `toString()` read back as the number |
| Decimal.NatToStringInjective | components/sleep-calculator.tsx:151 | different numbers print differently |
| Decimal.Pad2Value | components/timer.tsx:123-125 | `padStart(2, "0")` of 0-99 is two digits that read back as the number |
| Decimal.Pad2Injective | components/timer.tsx:123-125 | different numbers pad differently |

## Left out

- Audio. This covers `lib/audio-utils` (Web Audio oscillators, gain ramps, `setTimeout` patterns) and the sleep player's plumbing:
  - the AudioContext and the white-noise buffer (random floats);
  - preloading;
  - `Audio` elements, `play()` promises, toasts and volume.
  A sound is modelled only as the `soundPlaying`/`isPlaying` flag, or as the `Playback` request a handler returns.
- `playAudioSample` after its first `await` (the URL lookup, `Audio` loading and `play()`): it is what eventually sets `isPlaying` and clears `isLoading` for a sample. `StartAudioSample` stops at that `await`; `GetAudioUrl` models the lookup on its own.
- `playWhiteNoise`: how it goes (the audio system cannot be created, no noise buffer, `start()` throws, or it starts) is a parameter, `NoiseStart`; the asynchronous `resume()` failure of a suspended context is not modelled.
- Persistence. This covers the `localStorage` load and save effects and the JSON parsing in every component, and `components/settings-panel.tsx`. `components/settings-panel.tsx` is not part of this model. Setting changes arrive as `(setting, value)` pairs.
- `formatTime`, `formatTimeFromSeconds` and `formatMilliseconds` from `lib/time-utils` are not part of this model. The alarm checks take `formatTime(now)` as an uninterpreted string.
- Reading the clock. `new Date()`, `Date.now()`, `toDateString()` and `Intl` date formatting are not modelled; the reading is a parameter. Alarm ids (`Date.now().toString()`) are supplied by the caller, and nothing makes them unique.
- `getDigitFontSize` in every component. It compares floating-point zoom factors to pick CSS classes.
- The Fullscreen API calls, the `classList` updates of the theme, and `checkFullscreen`. The page returns which request it makes and takes the browser's state as a parameter.
- React scheduling. Intervals, timeouts, effect dependencies and cleanup are not modelled. Each tick or handler is one sequential method run with the state it was rendered with.
- The 100 ms delayed restart after an option change, in `components/sleep.tsx`. It is returned as the request to make.
- Rendering. This covers `components/clock.tsx`, `view-controls.tsx`, `timehub-logo.tsx`, `theme-toggle.tsx`, the settings panel, and the JSX of every component.
- The `app/api/audio` route.
- Timer.Timer.Valid: only states that a finished timer is not running. Moving the slider while finished changes `timeLeft` without clearing `isFinished`, so the invariant "finished implies zero left" does not hold.
- Stopwatch.Stopwatch.StartStopwatch: the first lap starts now only when `time` is exactly 0. After a reset the lap start is not renewed until the next start; the model states this as the source has it.
- Page.Home.Mounted: takes the dark-class and `prefers-color-scheme` tests as parameters.
- SleepCalculator.SleepCalculator.CalculateWakeup: takes the clock reading as a parameter instead of reading `new Date()`.
