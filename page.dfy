/**
 * The page shell (`Home`): the active tab, the theme and fullscreen flags,
 * and the font-size level, an index into a table of four zoom factors.
 */
module Page {

  /** `FONT_SIZE_LEVELS`: the zoom factors, smallest first. */
  const FontSizeLevels: seq<real> := [1.0, 1.3, 1.6, 2.0]

  /** The largest font-size level, `FONT_SIZE_LEVELS.length - 1`. */
  const MaxLevel := |FontSizeLevels| - 1

  /** The zoom factors grow with the level, from 1 to 2. */
  lemma ZoomFactorsIncrease(i: int, j: int)
    requires 0 <= i < j <= MaxLevel
    ensures 1.0 <= FontSizeLevels[i] < FontSizeLevels[j] <= 2.0
  {
  }

  /** The zoom-in button: one level up, unless already at the top. */
  function ZoomedIn(level: int): (r: int)
    ensures 0 <= level <= MaxLevel ==> 0 <= r <= MaxLevel
    ensures level < MaxLevel ==> r == level + 1
    ensures level >= MaxLevel ==> r == level
  {
    if level < MaxLevel then level + 1 else level
  }

  /** The zoom-out button: one level down, unless already at the bottom. */
  function ZoomedOut(level: int): (r: int)
    ensures 0 <= level <= MaxLevel ==> 0 <= r <= MaxLevel
    ensures level > 0 ==> r == level - 1
    ensures level <= 0 ==> r == level
  {
    if level > 0 then level - 1 else level
  }

  /** Zooming out undoes zooming in below the top level, and zooming in undoes zooming out above the bottom. */
  lemma ZoomUndo(level: int)
    requires 0 <= level <= MaxLevel
    ensures level < MaxLevel ==> ZoomedOut(ZoomedIn(level)) == level
    ensures level > 0 ==> ZoomedIn(ZoomedOut(level)) == level
  {
  }

  /** The view a tab shows. */
  datatype View = ClockWithAlarmView | TimerView | StopwatchView | SleepCalculatorView

  /** `renderActiveComponent`: the component for the active tab; any other tab shows the clock. */
  function RenderActiveComponent(activeTab: string): (v: View)
    ensures v == ClockWithAlarmView <==> activeTab !in ["timer", "stopwatch", "sleep"]
    ensures v == TimerView <==> activeTab == "timer"
    ensures v == StopwatchView <==> activeTab == "stopwatch"
    ensures v == SleepCalculatorView <==> activeTab == "sleep"
  {
    match activeTab
    case "timer" => TimerView
    case "stopwatch" => StopwatchView
    case "sleep" => SleepCalculatorView
    case _ => ClockWithAlarmView
  }

  /** The request `handleFullscreen` makes of the browser. */
  datatype FullscreenRequest = EnterFullscreen | ExitFullscreen

  /** The state of the page. */
  class Home {
    var activeTab: string
    var isDarkMode: bool
    var isFullscreen: bool
    var fontSizeLevel: int

    /** The font-size level always indexes the table. */
    predicate Valid()
      reads this
    {
      0 <= fontSizeLevel <= MaxLevel
    }

    constructor()
      ensures Valid()
      ensures activeTab == "clock" && !isDarkMode && !isFullscreen && fontSizeLevel == 0
    {
      activeTab := "clock";
      isDarkMode := false;
      isFullscreen := false;
      fontSizeLevel := 0;
    }

    /** `toggleTheme`. */
    method ToggleTheme()
      modifies this`isDarkMode
      ensures isDarkMode == !old(isDarkMode)
    {
      var newMode := !isDarkMode;
      isDarkMode := newMode;
    }

    /** `handleZoomIn`. */
    method ZoomIn()
      requires Valid()
      modifies this`fontSizeLevel
      ensures Valid()
      ensures fontSizeLevel == ZoomedIn(old(fontSizeLevel))
    {
      if fontSizeLevel < |FontSizeLevels| - 1 {
        fontSizeLevel := fontSizeLevel + 1;
      }
    }

    /** `handleZoomOut`. */
    method ZoomOut()
      requires Valid()
      modifies this`fontSizeLevel
      ensures Valid()
      ensures fontSizeLevel == ZoomedOut(old(fontSizeLevel))
    {
      if fontSizeLevel > 0 {
        fontSizeLevel := fontSizeLevel - 1;
      }
    }

    /** `getCurrentZoomLevel`: the zoom factor of the current level, between 1 and 2. */
    function CurrentZoomLevel(): (z: real)
      requires Valid()
      reads this
      ensures 1.0 <= z <= 2.0
      ensures z == 1.0 <==> fontSizeLevel == 0
      ensures z == 2.0 <==> fontSizeLevel == MaxLevel
    {
      FontSizeLevels[fontSizeLevel]
    }

    /** `canZoomOut`, handed to the view controls: exactly when zooming out would change the level. */
    function CanZoomOut(): (b: bool)
      requires Valid()
      reads this
      ensures b <==> ZoomedOut(fontSizeLevel) != fontSizeLevel
    {
      fontSizeLevel > 0
    }

    /** `handleFullscreen`: enter when not in fullscreen, exit when in it; the flag follows the browser's event. */
    method HandleFullscreen() returns (request: FullscreenRequest)
      ensures request == if isFullscreen then ExitFullscreen else EnterFullscreen
    {
      if !isFullscreen {
        request := EnterFullscreen;
      } else {
        request := ExitFullscreen;
      }
    }

    /** The `fullscreenchange` listener: the flag takes the browser's state. */
    method FullscreenChanged(inFullscreen: bool)
      modifies this`isFullscreen
      ensures isFullscreen == inFullscreen
    {
      isFullscreen := inFullscreen;
    }

    /**
     * The keydown listener: Escape leaves fullscreen when the page is in it;
     * any other key, or Escape outside fullscreen, changes nothing.
     */
    method KeyDown(key: string)
      modifies this`isFullscreen
      ensures isFullscreen == (old(isFullscreen) && key != "Escape")
    {
      if key == "Escape" && isFullscreen {
        isFullscreen := false;
      }
    }

    /** The mount effect: dark when the page already has the dark class or the system prefers dark. */
    method Mounted(hasDarkClass: bool, prefersDark: bool)
      modifies this`isDarkMode
      ensures isDarkMode <==> hasDarkClass || prefersDark
    {
      isDarkMode := hasDarkClass || prefersDark;
    }

    /** The tab bar. */
    method SelectTab(tab: string)
      modifies this`activeTab
      ensures activeTab == tab
    {
      activeTab := tab;
    }
  }
}
