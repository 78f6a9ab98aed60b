/**
 * What the clock faces share: the reading of the wall clock, the values a
 * settings-change event carries, the colour class chosen from the clock
 * colour setting, and the 24-to-12-hour conversion of the displayed hour.
 */
module ClockFormat {
  import opened Decimal
  import opened Optional

  /**
   * A reading of the wall clock, as `new Date()` reports it in local time:
   * `getHours()`, `getMinutes()`, `getSeconds()`, and `toDateString()`
   * standing for the calendar day.
   */
  datatype Now = Now(hours: int, minutes: int, seconds: int, dateKey: string)

  predicate ValidNow(now: Now) {
    0 <= now.hours < 24 && 0 <= now.minutes < 60 && 0 <= now.seconds < 60
  }

  /**
   * The `value` of a `clockSettingsChanged` event. The handlers store it
   * untyped; the settings panel sends booleans for the format and date
   * switches and a string for the colour.
   */
  datatype SettingValue = BoolValue(b: bool) | TextValue(s: string)

  /** JavaScript truthiness of a setting value used as a condition. */
  predicate Truthy(v: SettingValue) {
    match v
    case BoolValue(b) => b
    case TextValue(s) => s != ""
  }

  /** JavaScript truthiness of a `string | null` value such as an alarm id. */
  predicate Present(o: Option<string>) {
    o.Some? && o.value != ""
  }

  const DefaultColorClass: string := "text-black dark:text-white"

  /** The colours the settings panel offers besides the default. */
  const NamedColors: seq<string> := ["blue", "green", "purple", "red"]

  /** `getColorClass`: the text colour class for the clock colour setting. */
  function ColorClass(color: SettingValue): (r: string)
    ensures color == TextValue("blue") ==> r == "text-blue-500"
    ensures color == TextValue("green") ==> r == "text-green-500"
    ensures color == TextValue("purple") ==> r == "text-purple-500"
    ensures color == TextValue("red") ==> r == "text-red-500"
    ensures color !in TextValues(NamedColors) ==> r == DefaultColorClass
  {
    match color
    case TextValue("blue") => "text-blue-500"
    case TextValue("green") => "text-green-500"
    case TextValue("purple") => "text-purple-500"
    case TextValue("red") => "text-red-500"
    case _ => DefaultColorClass
  }

  function TextValues(names: seq<string>): (r: set<SettingValue>)
    ensures forall v :: v in r <==> v.TextValue? && v.s in names
  {
    set n | n in names :: TextValue(n)
  }

  /** A named colour's class is `text-<colour>-500`. */
  lemma NamedColorClass(color: SettingValue)
    ensures color in TextValues(NamedColors) ==> ColorClass(color) == "text-" + color.s + "-500"
  {
    if color !in TextValues(NamedColors) {
    } else if color.s == "blue" {
      assert "text-" + "blue" + "-500" == "text-blue-500";
    } else if color.s == "green" {
      assert "text-" + "green" + "-500" == "text-green-500";
    } else if color.s == "purple" {
      assert "text-" + "purple" + "-500" == "text-purple-500";
    } else {
      assert "text-" + "red" + "-500" == "text-red-500";
    }
  }

  /** Each named colour gets its own class, and none of them the default one. */
  lemma ColorClassesDistinct(a: SettingValue, b: SettingValue)
    requires a in TextValues(NamedColors) && b in TextValues(NamedColors)
    ensures ColorClass(a) != DefaultColorClass
    ensures ColorClass(a) == ColorClass(b) <==> a == b
  {
  }

  /**
   * The hour shown by a clock face: in 12-hour mode `hours % 12`, with 0
   * shown as 12; in 24-hour mode the hour as it is.
   */
  function DisplayHour(hours: int, use12: bool): (r: int)
    ensures 0 <= hours < 24 && use12 ==> 1 <= r <= 12 && r % 12 == hours % 12
    ensures !use12 ==> r == hours
  {
    if use12 then (if hours % 12 == 0 then 12 else hours % 12) else hours
  }

  /** The 12-hour hour of the afternoon is the 24-hour hour less twelve, and 0 and 12 both show as 12. */
  lemma DisplayHourCases(hours: int)
    requires 0 <= hours < 24
    ensures hours == 0 || hours == 12 ==> DisplayHour(hours, true) == 12
    ensures 1 <= hours < 12 ==> DisplayHour(hours, true) == hours
    ensures 13 <= hours ==> DisplayHour(hours, true) == hours - 12
  {
  }

  /** The text fields of the large clock faces: padded hours, minutes and seconds and the period. */
  datatype Face = Face(hoursStr: string, minutesStr: string, secondsStr: string, ampm: string)

  /**
   * The large clock face (`FullscreenClock`, and the face of `ClockWithAlarm`):
   * the period is "PM" from noon in 12-hour mode and "AM" otherwise, also in
   * 24-hour mode, where it is not displayed.
   */
  function LargeFace(now: Now, use12: SettingValue): (f: Face)
    requires ValidNow(now)
    ensures f.ampm == (if Truthy(use12) && now.hours >= 12 then "PM" else "AM")
  {
    var hours := DisplayHour(now.hours, Truthy(use12));
    var ampm := if Truthy(use12) && now.hours >= 12 then "PM" else "AM";
    Face(Pad2(hours), Pad2(now.minutes), Pad2(now.seconds), ampm)
  }

  /** Every field of the large face is two digits that read back as the displayed value. */
  lemma LargeFaceDigits(now: Now, use12: SettingValue)
    requires ValidNow(now)
    ensures |LargeFace(now, use12).hoursStr| == 2
    ensures |LargeFace(now, use12).minutesStr| == 2
    ensures |LargeFace(now, use12).secondsStr| == 2
    ensures TwoDigitValue(LargeFace(now, use12).hoursStr) == DisplayHour(now.hours, Truthy(use12))
    ensures TwoDigitValue(LargeFace(now, use12).minutesStr) == now.minutes
    ensures TwoDigitValue(LargeFace(now, use12).secondsStr) == now.seconds
  {
    Pad2Value(DisplayHour(now.hours, Truthy(use12)));
    Pad2Value(now.minutes);
    Pad2Value(now.seconds);
  }

  /** The value of a field of two digit characters. */
  function TwoDigitValue(s: string): int {
    if |s| == 2 && IsDigit(s[0]) && IsDigit(s[1]) then 10 * DigitValue(s[0]) + DigitValue(s[1]) else -1
  }

  /**
   * The mini clock's `timeString`: padded hour, a colon, padded minute and,
   * in 12-hour mode only, " AM" or " PM".
   */
  function MiniTimeString(now: Now, use12: SettingValue): string
    requires ValidNow(now)
  {
    var ampm := if Truthy(use12) then (if now.hours >= 12 then [' ', 'P', 'M'] else [' ', 'A', 'M']) else [];
    Pad2(DisplayHour(now.hours, Truthy(use12))) + [':'] + Pad2(now.minutes) + ampm
  }

  /**
   * The mini clock text is "HH:MM" followed by " PM" exactly from noon in
   * 12-hour mode, " AM" before noon in 12-hour mode and nothing in 24-hour
   * mode; the two fields read back as the displayed hour and the minute.
   */
  lemma MiniTimeStringShape(now: Now, use12: SettingValue)
    requires ValidNow(now)
    ensures var t := MiniTimeString(now, use12);
      && |t| == (if Truthy(use12) then 8 else 5)
      && t[2] == ':'
      && TwoDigitValue(t[..2]) == DisplayHour(now.hours, Truthy(use12))
      && TwoDigitValue(t[3..5]) == now.minutes
      && t[5..] == (if !Truthy(use12) then [] else if now.hours >= 12 then " PM" else " AM")
  {
    var h := DisplayHour(now.hours, Truthy(use12));
    Pad2Value(h);
    Pad2Value(now.minutes);
    var t := MiniTimeString(now, use12);
    assert t[..2] == Pad2(h);
    assert t[3..5] == Pad2(now.minutes);
  }
}
