// Window-mode bookkeeping on Win32 (final_platform_layer.hpp:3341-3427,
// 3816-3871): the window styles, entering and leaving fullscreen, and the
// resizable switch. The window's own style words, size and placement are
// fields; what the display driver and GetDeviceCaps answer is a parameter.
module Window {
  import opened Common
  import opened Settings

  // Window style bits of the Win32 API.
  const WS_POPUP: bv32 := 0x8000_0000
  const WS_VISIBLE: bv32 := 0x1000_0000
  const WS_CAPTION: bv32 := 0x00C0_0000
  const WS_SYSMENU: bv32 := 0x0008_0000
  const WS_THICKFRAME: bv32 := 0x0004_0000
  const WS_MINIMIZEBOX: bv32 := 0x0002_0000
  const WS_MAXIMIZEBOX: bv32 := 0x0001_0000
  const WS_EX_LEFT: bv32 := 0
  const WS_EX_TOPMOST: bv32 := 0x0000_0008
  const WS_EX_APPWINDOW: bv32 := 0x0004_0000

  /** The three style pairs of final_platform_layer.hpp:3346-3353. */
  const RESIZEABLE_STYLE: bv32 := WS_THICKFRAME | WS_SYSMENU | WS_MINIMIZEBOX | WS_MAXIMIZEBOX | WS_VISIBLE
  const NON_RESIZABLE_STYLE: bv32 := WS_CAPTION | WS_SYSMENU | WS_MINIMIZEBOX | WS_VISIBLE
  const FULLSCREEN_STYLE: bv32 := WS_POPUP | WS_VISIBLE
  const WINDOWED_EX_STYLE: bv32 := WS_EX_LEFT
  const FULLSCREEN_EX_STYLE: bv32 := WS_EX_APPWINDOW | WS_EX_TOPMOST

  function WindowedStyle(resizable: bool): bv32
  {
    if resizable then RESIZEABLE_STYLE else NON_RESIZABLE_STYLE
  }

  /** A display mode: the DEVMODE fields the layer sets. */
  datatype DisplayMode = DisplayMode(width: nat, height: nat, colorBits: nat, refreshRate: nat)

  /**
   * The window state the fullscreen code works on: the current window
   * settings, the GWL_STYLE and GWL_EXSTYLE words, the window's size and
   * placement (WINDOWPLACEMENT, abstract; 0 is `{}`), the display mode set
   * with CDS_FULLSCREEN (None: the desktop's own), and the size and
   * placement saved before entering fullscreen.
   */
  datatype Frame = Frame(
    settings: WindowSettings,
    style: bv32,
    exStyle: bv32,
    width: nat,
    height: nat,
    placement: nat,
    display: Option<DisplayMode>,
    lastPlacement: nat,
    lastWidth: nat,
    lastHeight: nat)

  /** A window in window mode, with nothing saved. */
  predicate Windowed(f: Frame)
  {
    !f.settings.isFullscreen && f.style == WindowedStyle(f.settings.isResizable) &&
    f.exStyle == WINDOWED_EX_STYLE && f.lastPlacement == 0 && f.lastWidth == 0 && f.lastHeight == 0
  }

  /** A window in fullscreen mode, with the display switched to a mode. */
  predicate InFullscreen(f: Frame)
  {
    f.settings.isFullscreen && f.style == FULLSCREEN_STYLE && f.exStyle == FULLSCREEN_EX_STYLE && f.display.Some?
  }

  /** The window's styles agree with its settings. */
  predicate Consistent(f: Frame)
  {
    Windowed(f) || InFullscreen(f)
  }

  /**
   * The mode Win32EnterFullscreen_Internal asks for: a zero width or height
   * takes the desktop's width and height both, and a zero refresh rate or
   * colour depth the desktop's.
   */
  function FullscreenMode(width: nat, height: nat, refreshRate: nat, colorBits: nat, desktop: DisplayMode): (m: DisplayMode)
    ensures width > 0 && height > 0 ==> m.width == width && m.height == height
    ensures width == 0 || height == 0 ==> m.width == desktop.width && m.height == desktop.height
    ensures m.refreshRate == (if refreshRate == 0 then desktop.refreshRate else refreshRate)
    ensures m.colorBits == (if colorBits == 0 then desktop.colorBits else colorBits)
  {
    var useRefreshRate := if refreshRate == 0 then desktop.refreshRate else refreshRate;
    var useColorBits := if colorBits == 0 then desktop.colorBits else colorBits;
    if width == 0 || height == 0 then DisplayMode(desktop.width, desktop.height, useColorBits, useRefreshRate)
    else DisplayMode(width, height, useColorBits, useRefreshRate)
  }

  /**
   * Win32EnterFullscreen_Internal: the popup styles and the mode's size are
   * applied whatever happens; the display mode and the fullscreen flag only
   * when the display change succeeded (`changed`).
   */
  function Entered(f: Frame, width: nat, height: nat, refreshRate: nat, colorBits: nat,
                   desktop: DisplayMode, changed: bool): (r: Frame)
    requires !f.settings.isFullscreen
    ensures r.settings.isFullscreen == changed
    ensures r.style == FULLSCREEN_STYLE && r.exStyle == FULLSCREEN_EX_STYLE
    ensures changed ==> InFullscreen(r)
    ensures r.lastPlacement == f.lastPlacement && r.lastWidth == f.lastWidth && r.lastHeight == f.lastHeight
  {
    var mode := FullscreenMode(width, height, refreshRate, colorBits, desktop);
    f.(settings := f.settings.(isFullscreen := changed),
       style := FULLSCREEN_STYLE, exStyle := FULLSCREEN_EX_STYLE,
       width := mode.width, height := mode.height,
       display := if changed then Some(mode) else f.display)
  }

  /**
   * What Win32LeaveFullscreen_Internal does after its assertion: the
   * windowed styles for the resizable setting, the saved size and
   * placement, the desktop's mode when the reset succeeded (`reset`), and
   * the saved values cleared.
   */
  function Restored(f: Frame, reset: bool): (r: Frame)
    ensures Windowed(r)
    ensures r.settings == f.settings.(isFullscreen := false)
    ensures r.width == f.lastWidth && r.height == f.lastHeight && r.placement == f.lastPlacement
    ensures r.display == (if reset then None else f.display)
  {
    f.(settings := f.settings.(isFullscreen := false),
       style := WindowedStyle(f.settings.isResizable), exStyle := WINDOWED_EX_STYLE,
       width := f.lastWidth, height := f.lastHeight, placement := f.lastPlacement,
       display := if reset then None else f.display,
       lastPlacement := 0, lastWidth := 0, lastHeight := 0)
  }

  /** The window's placement and size saved before entering fullscreen. */
  function Save(f: Frame): Frame
  {
    f.(lastPlacement := f.placement, lastWidth := f.width, lastHeight := f.height)
  }

  /**
   * SetWindowFullscreen as written (final_platform_layer.hpp:3848-3867),
   * reduced to what its fallback hands Win32LeaveFullscreen_Internal: the
   * flag that Leave asserts. It holds exactly when entering succeeded, which
   * is exactly when the fallback does not run, so every fallback call of
   * Leave breaks the assertion at final_platform_layer.hpp:3358.
   */
  function FallbackLeaveAssertion(f: Frame, width: nat, height: nat, refreshRate: nat,
                                  desktop: DisplayMode, changed: bool): (holds: bool)
    requires !f.settings.isFullscreen
    ensures holds <==> changed
  {
    Entered(Save(f), width, height, refreshRate, 0, desktop, changed).settings.isFullscreen
  }

  /**
   * SetWindowFullscreen with the fallback restoring window mode without
   * Leave's assertion: entering saves the placement and size first, and a
   * failed display change falls back to window mode; leaving restores.
   */
  function SetFullscreen(f: Frame, value: bool, width: nat, height: nat, refreshRate: nat,
                         desktop: DisplayMode, changed: bool, reset: bool): (r: Frame)
    requires value ==> !f.settings.isFullscreen
    requires !value ==> f.settings.isFullscreen
    ensures r.settings == f.settings.(isFullscreen := value && changed)
    ensures r.settings.isFullscreen ==> InFullscreen(r)
    ensures !r.settings.isFullscreen ==> Windowed(r)
  {
    if value then
      var entered := Entered(Save(f), width, height, refreshRate, 0, desktop, changed);
      if entered.settings.isFullscreen then entered else Restored(entered, reset)
    else
      Restored(f, reset)
  }

  /** Entering and leaving keep the styles in line with the settings. */
  lemma SetFullscreenConsistent(f: Frame, value: bool, width: nat, height: nat, refreshRate: nat,
                                desktop: DisplayMode, changed: bool, reset: bool)
    requires value ==> !f.settings.isFullscreen
    requires !value ==> f.settings.isFullscreen
    ensures var r := SetFullscreen(f, value, width, height, refreshRate, desktop, changed, reset);
      Consistent(r) && (r.settings.isFullscreen <==> value && changed) &&
      r.settings == f.settings.(isFullscreen := value && changed)
  {
  }

  /**
   * A successful trip to fullscreen and back restores the window exactly,
   * its size and placement included, on the desktop's own display mode.
   */
  lemma FullscreenRoundTrip(f: Frame, width: nat, height: nat, refreshRate: nat, desktop: DisplayMode)
    requires Windowed(f)
    ensures var on := SetFullscreen(f, true, width, height, refreshRate, desktop, true, true);
      on.settings.isFullscreen &&
      SetFullscreen(on, false, 0, 0, 0, desktop, true, true) == f.(display := None)
  {
    var on := SetFullscreen(f, true, width, height, refreshRate, desktop, true, true);
    var off := Restored(on, true);
    assert off.settings == f.settings;
    assert off.style == f.style;
  }

  /** A failed display change leaves the window as it was, in window mode. */
  lemma FallbackRestoresWindow(f: Frame, width: nat, height: nat, refreshRate: nat,
                               desktop: DisplayMode, reset: bool)
    requires Windowed(f)
    ensures SetFullscreen(f, true, width, height, refreshRate, desktop, false, reset) ==
      f.(display := if reset then None else f.display)
  {
    var r := SetFullscreen(f, true, width, height, refreshRate, desktop, false, reset);
    assert r.settings == f.settings;
    assert r.style == f.style;
  }

  /** SetWindowResizeable: only in window mode, the styles and the setting follow `value`. */
  function SetResizeable(f: Frame, value: bool): (r: Frame)
    ensures r.settings.isFullscreen == f.settings.isFullscreen
    ensures f.settings.isFullscreen ==> r == f
    ensures !f.settings.isFullscreen ==> r.settings == f.settings.(isResizable := value)
  {
    if !f.settings.isFullscreen then
      f.(style := WindowedStyle(value), exStyle := WINDOWED_EX_STYLE,
         settings := f.settings.(isResizable := value))
    else f
  }

  /** In fullscreen the switch changes nothing; in window mode it keeps the window consistent. */
  lemma SetResizeableMeaning(f: Frame, value: bool)
    requires Consistent(f)
    ensures f.settings.isFullscreen ==> SetResizeable(f, value) == f
    ensures !f.settings.isFullscreen ==>
      Windowed(SetResizeable(f, value)) && SetResizeable(f, value).settings.isResizable == value
    ensures SetResizeable(f, value).settings.isFullscreen == f.settings.isFullscreen
  {
  }

  /** IsWindowResizable: the style has the thick frame. */
  function IsWindowResizable(style: bv32): (r: bool)
    ensures style == RESIZEABLE_STYLE ==> r
    ensures style == NON_RESIZABLE_STYLE || style == FULLSCREEN_STYLE ==> !r
  {
    style & WS_THICKFRAME != 0
  }

  /** A consistent window reports itself resizable exactly in resizable window mode. */
  lemma IsWindowResizableMeaning(f: Frame)
    requires Consistent(f)
    ensures IsWindowResizable(f.style) <==> !f.settings.isFullscreen && f.settings.isResizable
  {
    assert RESIZEABLE_STYLE & WS_THICKFRAME != 0;
    assert NON_RESIZABLE_STYLE & WS_THICKFRAME == 0;
    assert FULLSCREEN_STYLE & WS_THICKFRAME == 0;
  }

  /**
   * IsWindowFullscreen as written (final_platform_layer.hpp:3840-3846): any
   * bit of the fullscreen style counts, WS_VISIBLE included.
   */
  function IsWindowFullscreenAsWritten(style: bv32): (r: bool)
    ensures style & WS_VISIBLE != 0 ==> r
  {
    style & FULLSCREEN_STYLE != 0
  }

  /** Every style the layer sets holds WS_VISIBLE, so every window reports fullscreen. */
  lemma AsWrittenAlwaysFullscreen(f: Frame)
    requires Consistent(f)
    ensures IsWindowFullscreenAsWritten(f.style)
  {
    assert RESIZEABLE_STYLE & FULLSCREEN_STYLE != 0;
    assert NON_RESIZABLE_STYLE & FULLSCREEN_STYLE != 0;
  }

  /** IsWindowFullscreen as intended: the popup bit that only the fullscreen style has. */
  function IsWindowFullscreen(style: bv32): (r: bool)
    ensures style == FULLSCREEN_STYLE ==> r
    ensures style == RESIZEABLE_STYLE || style == NON_RESIZABLE_STYLE ==> !r
  {
    style & WS_POPUP != 0
  }

  /** A consistent window reports fullscreen exactly when it is in fullscreen. */
  lemma IsWindowFullscreenMeaning(f: Frame)
    requires Consistent(f)
    ensures IsWindowFullscreen(f.style) <==> f.settings.isFullscreen
  {
    assert RESIZEABLE_STYLE & WS_POPUP == 0;
    assert NON_RESIZABLE_STYLE & WS_POPUP == 0;
    assert FULLSCREEN_STYLE & WS_POPUP != 0;
  }

  /** The window state, updated in place. */
  class Win32Window {
    var settings: WindowSettings
    var style: bv32
    var exStyle: bv32
    var width: nat
    var height: nat
    var placement: nat
    var display: Option<DisplayMode>
    var lastPlacement: nat
    var lastWidth: nat
    var lastHeight: nat

    function View(): Frame
      reads this
    {
      Frame(settings, style, exStyle, width, height, placement, display, lastPlacement, lastWidth, lastHeight)
    }

    /**
     * The window part of a freshly placed Win32State_Internal: the current
     * settings copied in, every window field zero.
     */
    constructor Zeroed(settings: WindowSettings)
      ensures View() == Frame(settings, 0, 0, 0, 0, 0, None, 0, 0, 0)
    {
      this.settings := settings;
      this.style := 0;
      this.exStyle := 0;
      this.width := 0;
      this.height := 0;
      this.placement := 0;
      this.display := None;
      this.lastPlacement := 0;
      this.lastWidth := 0;
      this.lastHeight := 0;
    }

    /**
     * The window fields Win32InitWindow_Internal sets on the way to a created
     * window (final_platform_layer.hpp:4262-4280): window mode, the windowed
     * styles for the resizable setting, the size it was created with.
     */
    method Open(width: nat, height: nat, placement: nat)
      modifies this
      ensures View() == Frame(old(settings).(isFullscreen := false), WindowedStyle(old(settings).isResizable),
                              WINDOWED_EX_STYLE, width, height, placement, old(display), 0, 0, 0)
      ensures Windowed(View())
    {
      settings := settings.(isFullscreen := false);
      style := WindowedStyle(settings.isResizable);
      exStyle := WINDOWED_EX_STYLE;
      this.width := width;
      this.height := height;
      this.placement := placement;
      lastPlacement := 0;
      lastWidth := 0;
      lastHeight := 0;
    }

    /** Win32EnterFullscreen_Internal (final_platform_layer.hpp:3381-3427); `changed` is the display driver's answer. */
    method EnterFullscreen(fullscreenWidth: nat, fullscreenHeight: nat, refreshRate: nat, colorBits: nat,
                           desktop: DisplayMode, changed: bool) returns (result: bool)
      requires !settings.isFullscreen
      modifies this
      ensures result == changed
      ensures View() == Entered(old(View()), fullscreenWidth, fullscreenHeight, refreshRate, colorBits, desktop, changed)
    {
      var mode := FullscreenMode(fullscreenWidth, fullscreenHeight, refreshRate, colorBits, desktop);
      style := FULLSCREEN_STYLE;
      exStyle := FULLSCREEN_EX_STYLE;
      width := mode.width;
      height := mode.height;
      result := changed;
      if result {
        display := Some(mode);
      }
      settings := settings.(isFullscreen := result);
    }

    /** The part of Win32LeaveFullscreen_Internal after its assertion. */
    method RestoreWindowed(reset: bool) returns (result: bool)
      modifies this
      ensures result == reset
      ensures View() == Restored(old(View()), reset)
    {
      style := WindowedStyle(settings.isResizable);
      exStyle := WINDOWED_EX_STYLE;
      width := lastWidth;
      height := lastHeight;
      placement := lastPlacement;
      result := reset;
      if result {
        display := None;
      }
      settings := settings.(isFullscreen := false);
      lastPlacement := 0;
      lastWidth := 0;
      lastHeight := 0;
    }

    /** Win32LeaveFullscreen_Internal (final_platform_layer.hpp:3355-3379); `reset` is CDS_RESET's answer. */
    method LeaveFullscreen(reset: bool) returns (result: bool)
      requires settings.isFullscreen
      modifies this
      ensures result == reset
      ensures View() == Restored(old(View()), reset)
    {
      result := RestoreWindowed(reset);
    }

    /**
     * SetWindowFullscreen (final_platform_layer.hpp:3848-3871), with the
     * fallback calling the assertion-free part of Leave.
     */
    method SetWindowFullscreen(value: bool, fullscreenWidth: nat, fullscreenHeight: nat, refreshRate: nat,
                               desktop: DisplayMode, changed: bool, reset: bool)
      requires value ==> !settings.isFullscreen
      requires !value ==> settings.isFullscreen
      modifies this
      ensures View() == SetFullscreen(old(View()), value, fullscreenWidth, fullscreenHeight, refreshRate, desktop, changed, reset)
    {
      if value {
        lastPlacement := placement;
        lastWidth := width;
        lastHeight := height;
        var entered := EnterFullscreen(fullscreenWidth, fullscreenHeight, refreshRate, 0, desktop, changed);
        if !settings.isFullscreen {
          var _ := RestoreWindowed(reset);
        }
      } else {
        var _ := LeaveFullscreen(reset);
      }
    }

    /** SetWindowResizeable (final_platform_layer.hpp:3822-3838). */
    method SetWindowResizeable(value: bool)
      modifies this
      ensures View() == SetResizeable(old(View()), value)
    {
      if !settings.isFullscreen {
        style := WindowedStyle(value);
        exStyle := WINDOWED_EX_STYLE;
        settings := settings.(isResizable := value);
      }
    }
  }
}
