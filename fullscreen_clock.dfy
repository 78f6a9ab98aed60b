/**
 * The fullscreen clock (`FullscreenClock`): hours, minutes and seconds with
 * a blinking colon, AM/PM, in the chosen colour.
 */
module FullscreenClock {
  import opened ClockFormat

  class FullscreenClock {
    var currentTime: Now
    var blinkColon: bool
    var use12HourFormat: SettingValue
    var clockColor: SettingValue

    constructor(now: Now)
      ensures currentTime == now && blinkColon
      ensures use12HourFormat == BoolValue(true) && clockColor == TextValue("default")
    {
      currentTime := now;
      blinkColon := true;
      use12HourFormat := BoolValue(true);
      clockColor := TextValue("default");
    }

    /** The one-second interval: the reading is replaced and the colon blinks. */
    method Tick(now: Now)
      modifies this`currentTime, this`blinkColon
      ensures currentTime == now && blinkColon == !old(blinkColon)
    {
      currentTime := now;
      blinkColon := !blinkColon;
    }

    /**
     * The `clockSettingsChanged` listener: only the hour format and the colour
     * are followed; every other setting is ignored.
     */
    method HandleSettingsChange(setting: string, value: SettingValue)
      modifies this`use12HourFormat, this`clockColor
      ensures use12HourFormat == if setting == "use12HourFormat" then value else old(use12HourFormat)
      ensures clockColor == if setting == "clockColor" then value else old(clockColor)
    {
      if setting == "use12HourFormat" {
        use12HourFormat := value;
      }
      if setting == "clockColor" {
        clockColor := value;
      }
    }

    /** What the clock shows: the colour class and the three two-digit fields with AM or PM. */
    function Shown(): (r: (string, Face))
      requires ValidNow(currentTime)
      reads this
      ensures TwoDigitValue(r.1.hoursStr) == DisplayHour(currentTime.hours, Truthy(use12HourFormat))
      ensures TwoDigitValue(r.1.minutesStr) == currentTime.minutes
      ensures TwoDigitValue(r.1.secondsStr) == currentTime.seconds
      ensures r.1.ampm == (if Truthy(use12HourFormat) && currentTime.hours >= 12 then "PM" else "AM")
      ensures clockColor in TextValues(NamedColors) ==> r.0 == "text-" + clockColor.s + "-500"
      ensures clockColor !in TextValues(NamedColors) ==> r.0 == DefaultColorClass
    {
      LargeFaceDigits(currentTime, use12HourFormat);
      NamedColorClass(clockColor);
      (ColorClass(clockColor), LargeFace(currentTime, use12HourFormat))
    }
  }
}
