/**
 * The floating mini clock (`MiniClock`): hours and minutes, in the 12-hour
 * format unless the settings say otherwise, in the chosen colour.
 */
module MiniClock {
  import opened ClockFormat

  class MiniClock {
    var currentTime: Now
    var use12HourFormat: SettingValue
    var clockColor: SettingValue

    constructor(now: Now)
      ensures currentTime == now && use12HourFormat == BoolValue(true) && clockColor == TextValue("default")
    {
      currentTime := now;
      use12HourFormat := BoolValue(true);
      clockColor := TextValue("default");
    }

    /** The one-second interval: the reading is replaced. */
    method Tick(now: Now)
      modifies this`currentTime
      ensures currentTime == now
    {
      currentTime := now;
    }

    /**
     * The `clockSettingsChanged` listener: only the hour format and the colour
     * are followed; every other setting is ignored.
     */
    method HandleSettingsChange(setting: string, value: SettingValue)
      modifies this`use12HourFormat, this`clockColor
      ensures use12HourFormat == if setting == "use12HourFormat" then value else old(use12HourFormat)
      ensures clockColor == if setting == "clockColor" then value else old(clockColor)
    {
      if setting == "use12HourFormat" {
        use12HourFormat := value;
      }
      if setting == "clockColor" {
        clockColor := value;
      }
    }

    /** What the clock shows: the colour class and the time string. */
    function Shown(): (r: (string, string))
      requires ValidNow(currentTime)
      reads this
      ensures |r.1| == (if Truthy(use12HourFormat) then 8 else 5) && r.1[2] == ':'
      ensures TwoDigitValue(r.1[..2]) == DisplayHour(currentTime.hours, Truthy(use12HourFormat))
      ensures TwoDigitValue(r.1[3..5]) == currentTime.minutes
      ensures clockColor in TextValues(NamedColors) ==> r.0 == "text-" + clockColor.s + "-500"
      ensures clockColor !in TextValues(NamedColors) ==> r.0 == DefaultColorClass
    {
      MiniTimeStringShape(currentTime, use12HourFormat);
      NamedColorClass(clockColor);
      (ColorClass(clockColor), MiniTimeString(currentTime, use12HourFormat))
    }
  }
}
