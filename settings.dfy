// Build options and default settings (final_platform_layer.hpp:498-535, 715-814).
module Settings {
  import opened Common
  import opened CStrings

  /** The FPL_NO_WINDOW, FPL_NO_VIDEO_OPENGL and FPL_NO_VIDEO_SOFTWARE switches. */
  datatype BuildOptions = BuildOptions(noWindow: bool, noOpenGL: bool, noSoftware: bool)

  /** The FPL_ENABLE_WINDOW, FPL_ENABLE_VIDEO_OPENGL and FPL_ENABLE_VIDEO_SOFTWARE results. */
  datatype BuildConfig = BuildConfig(window: bool, openGL: bool, software: bool)

  /**
   * Each part is supported unless switched off, and without window support
   * both video drivers are switched off as well.
   */
  function Configure(options: BuildOptions): (c: BuildConfig)
    ensures c.window <==> !options.noWindow
    ensures c.openGL <==> c.window && !options.noOpenGL
    ensures c.software <==> c.window && !options.noSoftware
  {
    var supportWindow := !options.noWindow;
    var supportOpenGL := !options.noOpenGL && supportWindow;
    var supportSoftware := !options.noSoftware && supportWindow;
    BuildConfig(supportWindow, supportOpenGL, supportSoftware)
  }

  /** A build without switches enables everything. */
  const DEFAULT_BUILD: BuildConfig := Configure(BuildOptions(false, false, false))

  datatype VideoDriverType = NoDriver | OpenGL | Software

  datatype VideoCompabilityProfile = Legacy | Core | Forward

  const WINDOW_TITLE_LENGTH: nat := 256

  datatype WindowSettings = WindowSettings(
    windowTitle: seq<char>,
    windowWidth: nat,
    windowHeight: nat,
    fullscreenWidth: nat,
    fullscreenHeight: nat,
    isResizable: bool,
    isFullscreen: bool)

  datatype VideoSettings = VideoSettings(
    driverType: VideoDriverType,
    profile: VideoCompabilityProfile,
    majorVersion: nat,
    minorVersion: nat,
    isVSync: bool,
    isAutoSize: bool)

  datatype AppSettings = AppSettings(window: WindowSettings, video: VideoSettings)

  /**
   * DefaultWindowSettings (final_platform_layer.hpp:745-755): an empty title
   * in a zeroed 256-character buffer, an 800 x 600 resizable window, not
   * fullscreen, with no fullscreen size chosen.
   */
  function DefaultWindowSettings(): (r: WindowSettings)
    ensures |r.windowTitle| == WINDOW_TITLE_LENGTH && Terminated(r.windowTitle)
    ensures Text(r.windowTitle) == []
    ensures r.windowWidth == 800 && r.windowHeight == 600
    ensures r.fullscreenWidth == 0 && r.fullscreenHeight == 0
    ensures r.isResizable && !r.isFullscreen
  {
    var title := seq(WINDOW_TITLE_LENGTH, _ => NUL);
    LenUnique(title, 0);
    WindowSettings(title, 800, 600, 0, 0, true, false)
  }

  /**
   * DefaultVideoSettings (final_platform_layer.hpp:784-798): the driver is
   * OpenGL when the build enables it, else Software when that is enabled,
   * else none; the rest is fixed.
   */
  function DefaultVideoSettings(build: BuildConfig): (r: VideoSettings)
    ensures r.driverType == OpenGL ==> build.openGL
    ensures r.driverType == Software ==> build.software && !build.openGL
    ensures r.driverType == NoDriver <==> !build.openGL && !build.software
    ensures r.profile == Legacy && r.majorVersion == 0 && r.minorVersion == 0
    ensures !r.isVSync && r.isAutoSize
  {
    var driver :=
      if build.openGL then OpenGL
      else if build.software then Software
      else NoDriver;
    VideoSettings(driver, Legacy, 0, 0, false, true)
  }

  /** DefaultSettings (final_platform_layer.hpp:809-814). */
  function DefaultSettings(build: BuildConfig): (r: AppSettings)
    ensures r.window.windowWidth == 800 && r.window.windowHeight == 600
    ensures r.window.isResizable && !r.window.isFullscreen && r.video.isAutoSize
    ensures r.video.driverType == NoDriver <==> !build.openGL && !build.software
  {
    AppSettings(DefaultWindowSettings(), DefaultVideoSettings(build))
  }

  /**
   * The default driver is always one the build enables, and a build without
   * window support has no default driver; the default build picks OpenGL.
   */
  lemma DefaultDriverIsBuilt(options: BuildOptions)
    ensures var d := DefaultSettings(Configure(options)).video.driverType;
      (d != NoDriver ==> !options.noWindow) &&
      (d == NoDriver <==> options.noWindow || (options.noOpenGL && options.noSoftware))
    ensures DefaultSettings(DEFAULT_BUILD).video.driverType == OpenGL
  {
  }
}
