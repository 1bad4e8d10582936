// The platform lifecycle on Win32 (final_platform_layer.hpp:4229-4370,
// 4454-4563), the software back buffer's public functions
// (final_platform_layer.hpp:3276-3298) and the window procedure's effect on
// the platform state (final_platform_layer.hpp:4047-4227). The globals
// (application state, Win32 state, last-error state, event queue, thread
// state) are the fields of one Platform object. What Windows answers at each
// step is a parameter; error messages are their format strings, since
// formatting is not modelled.
module Platform {
  import opened Common
  import opened CStrings
  import Memory
  import opened Flags
  import opened Settings
  import opened Events
  import opened EventQueue
  import opened ErrorStates
  import opened Threads
  import opened Window
  import opened BackBuffer
  import opened Input

  const ERROR_ALREADY_INITIALIZED: seq<char> := "[Win32] Platform is already initialized!"
  const ERROR_LOAD_LIBRARY: seq<char> := "[Win32] Failed loading win32 library '%s'!"
  const ERROR_REGISTER_CLASS: seq<char> := "[Win32] Failed Registering Window Class '%s'"
  const ERROR_ALLOCATE_QUEUE: seq<char> := "[Win32] Failed Allocating Event Queue Memory with size '%llu'!"
  const ERROR_CREATE_WINDOW: seq<char> := "[Win32] Failed creating window for class '%s' and position (%d x %d) with size (%d x %d)"
  const ERROR_DEVICE_CONTEXT: seq<char> := "[Win32] Failed aquiring device context from window '%d'"
  const ERROR_OPENGL: seq<char> := "[Win32] Failed initializing OpenGL for window '%d'/'%s'"
  const ERROR_INIT_WINDOW: seq<char> := "[Win32] Failed creating a window with flags '%d' and settings (Width=%d, Height=%d, Videoprofile=%d)"

  /**
   * What Windows answers while the platform comes up: whether gdi32.dll and
   * its functions load, whether each window step succeeds, the client size
   * the created window has, the window size AdjustWindowRect computes for
   * the settings' size, the placement, the desktop's display mode, and
   * whether the display switches to fullscreen.
   */
  datatype OsAnswers = OsAnswers(
    gdiLoaded: bool,
    classRegistered: bool,
    queueAllocated: bool,
    windowCreated: bool,
    deviceContext: bool,
    openGLCreated: bool,
    windowWidth: nat,
    windowHeight: nat,
    adjustedWidth: nat,
    adjustedHeight: nat,
    placement: nat,
    desktop: DisplayMode,
    displayChanged: bool,
    displayReset: bool)

  /** The flags InitPlatform works with: Video brings Window along. */
  function EffectiveFlags(flags: Flags): (r: Flags)
    ensures Has(r, flags)
    ensures Has(r, INIT_WINDOW) <==> Has(flags, INIT_WINDOW) || Has(flags, INIT_VIDEO)
    ensures forall b: Bit :: b != 0 ==> (b in r <==> b in flags)
  {
    if Has(flags, INIT_VIDEO) then Union(flags, INIT_WINDOW) else flags
  }

  /** Adding Window for Video once is enough. */
  lemma EffectiveFlagsIdempotent(flags: Flags)
    ensures EffectiveFlags(EffectiveFlags(flags)) == EffectiveFlags(flags)
  {
  }

  /** CW_USEDEFAULT, `(int)0x80000000`, as the uint32_t the back buffer receives. */
  const CW_USEDEFAULT: nat := 0x8000_0000

  /**
   * The size Win32InitWindow_Internal creates the window with, which is also
   * the size it gives the software back buffer
   * (final_platform_layer.hpp:4283-4300, 4350): the adjusted rectangle of
   * the settings' size when both sides are set, else CW_USEDEFAULT for both.
   */
  function CreateSize(settings: WindowSettings, os: OsAnswers): (size: (nat, nat))
    ensures settings.windowWidth == 0 || settings.windowHeight == 0 ==> size == (CW_USEDEFAULT, CW_USEDEFAULT)
    ensures 0 < settings.windowWidth && 0 < settings.windowHeight ==> size == (os.adjustedWidth, os.adjustedHeight)
  {
    if 0 < settings.windowWidth && 0 < settings.windowHeight then (os.adjustedWidth, os.adjustedHeight)
    else (CW_USEDEFAULT, CW_USEDEFAULT)
  }

  /**
   * With a zero side in the settings, the back buffer as written is asked
   * for CW_USEDEFAULT x CW_USEDEFAULT pixels, whose byte size 2^33 x 2^31
   * wraps to 0 in 64 bits: the allocator's assertion
   * (final_platform_layer.hpp:1825) fails.
   */
  lemma DefaultSizeAsksForEmptyBuffer(settings: WindowSettings, os: OsAnswers)
    requires settings.windowWidth == 0 || settings.windowHeight == 0
    ensures var size := CreateSize(settings, os);
      ByteSize(size.0, size.1) == 0 && !Allocatable(size.0, size.1)
  {
    assert CW_USEDEFAULT * PIXEL_SIZE * CW_USEDEFAULT == U64;
  }

  /**
   * The size the back buffer is created with, corrected: the adjusted
   * rectangle as written when the settings give both sides, and otherwise
   * the client size the window got (final_platform_layer.hpp:4311-4316)
   * instead of CW_USEDEFAULT, which is no size.
   */
  function BufferSize(settings: WindowSettings, os: OsAnswers): (size: (nat, nat))
    ensures 0 < settings.windowWidth && 0 < settings.windowHeight ==> size == CreateSize(settings, os)
    ensures settings.windowWidth == 0 || settings.windowHeight == 0 ==> size == (os.windowWidth, os.windowHeight)
  {
    if 0 < settings.windowWidth && 0 < settings.windowHeight then (os.adjustedWidth, os.adjustedHeight)
    else (os.windowWidth, os.windowHeight)
  }

  /**
   * What Windows answers fits the 32-bit size fields, and under the Software
   * driver the back buffer's size is allocatable.
   */
  predicate WindowSizeFits(settings: AppSettings, os: OsAnswers)
  {
    os.windowWidth < U32 && os.windowHeight < U32 &&
    (settings.video.driverType == Software ==>
      Allocatable(BufferSize(settings.window, os).0, BufferSize(settings.window, os).1))
  }

  /** Win32InitWindow_Internal gets through every step. */
  predicate WindowOpens(driver: VideoDriverType, os: OsAnswers)
  {
    os.classRegistered && os.queueAllocated && os.windowCreated && os.deviceContext &&
    (driver == OpenGL ==> os.openGLCreated)
  }

  /** InitPlatform succeeds: without a window nothing can fail, with one gdi32 and the window must come up. */
  predicate InitSucceeds(flags: Flags, driver: VideoDriverType, os: OsAnswers)
  {
    Has(EffectiveFlags(flags), INIT_WINDOW) ==> os.gdiLoaded && WindowOpens(driver, os)
  }

  /**
   * InitPlatform allocates an event queue: only the window step does, once
   * gdi32.dll has loaded and the window class is registered
   * (final_platform_layer.hpp:4251-4258, 4508-4513).
   */
  predicate QueueAllocated(flags: Flags, os: OsAnswers)
  {
    Has(EffectiveFlags(flags), INIT_WINDOW) && os.gdiLoaded && os.classRegistered && os.queueAllocated
  }

  /**
   * ReleasePlatform as written (final_platform_layer.hpp:4549, 4384): after a
   * successful InitPlatform it always hands the event queue to
   * MemoryAlignedFree, whose assertion `ptr != nullptr`
   * (final_platform_layer.hpp:1849) holds exactly when a queue was allocated,
   * which is exactly when InitPlatform ran the window step.
   */
  function ReleaseFreeAssertion(flags: Flags, driver: VideoDriverType, os: OsAnswers): (holds: bool)
    requires InitSucceeds(flags, driver, os)
    ensures holds <==> Has(EffectiveFlags(flags), INIT_WINDOW)
  {
    QueueAllocated(flags, os)
  }

  /**
   * InitPlatform without the Window and Video flags succeeds whatever Windows
   * answers, and the ReleasePlatform that follows, as written, frees a null
   * queue.
   */
  lemma ReleaseWithoutWindowFreesNull(driver: VideoDriverType, os: OsAnswers)
    ensures InitSucceeds(NONE, driver, os)
    ensures !ReleaseFreeAssertion(NONE, driver, os)
  {
    assert EffectiveFlags(NONE) == NONE;
  }

  /**
   * The last error a failed InitPlatform leaves: the library's, or the
   * window's, which overwrites whatever Win32InitWindow_Internal pushed.
   */
  function InitError(os: OsAnswers): seq<char>
  {
    if !os.gdiLoaded then ERROR_LOAD_LIBRARY else ERROR_INIT_WINDOW
  }

  /** A message that starts with a character other than NUL leaves a non-empty last error. */
  lemma MessageCounts(message: seq<char>)
    requires |message| > 0 && message[0] != NUL
    ensures Text(Formatted(message)) != []
  {
    var buffer := Formatted(message);
    assert buffer[0] == message[0];
  }

  /**
   * The error the first failing step of Win32InitWindow_Internal pushes:
   * class registration, event queue, window, device context, then the
   * OpenGL context; None when every step gets through.
   */
  function InitWindowFailure(driver: VideoDriverType, os: OsAnswers): (failure: Option<seq<char>>)
    ensures failure.None? <==> WindowOpens(driver, os)
  {
    if !os.classRegistered then Some(ERROR_REGISTER_CLASS)
    else if !os.queueAllocated then Some(ERROR_ALLOCATE_QUEUE)
    else if !os.windowCreated then Some(ERROR_CREATE_WINDOW)
    else if !os.deviceContext then Some(ERROR_DEVICE_CONTEXT)
    else if driver == OpenGL && !os.openGLCreated then Some(ERROR_OPENGL)
    else None
  }

  /** The memory InitPlatform allocates for the error state, at `errorBase`, as a fresh state with no error. */
  method AllocateErrorState(errorBase: nat) returns (state: ErrorState)
    ensures fresh(state) && fresh(state.errors) && state.Valid() && state.LastError() == []
  {
    StateStartsEmpty(errorBase);
    var memory := BlockContents(Memory.AlignedAllocate(MAX_LAST_ERROR_STRING_LENGTH, 16, errorBase), MAX_LAST_ERROR_STRING_LENGTH);
    state := new ErrorState(memory);
  }

  /** The message asks for a back buffer of a size with no zero side. */
  predicate RecreatesBuffer(h: Handled)
  {
    h.recreate.Some? && 0 < h.recreate.value.0 && 0 < h.recreate.value.1
  }

  /** Win32State_Internal; the current window settings live in `window`. */
  class Win32State {
    var initFlags: Flags
    var initSettings: AppSettings
    var currentVideo: VideoSettings
    var videoDriverType: VideoDriverType
    var isRunning: bool
    const window: Win32Window
    const software: VideoBackBuffer

    ghost predicate Valid()
      reads this, software
    {
      software.Valid() && (videoDriverType == Software <==> software.pixels != null)
    }

    /** The zero-initialised state with the flags and settings copied in. */
    constructor(initFlags: Flags, initSettings: AppSettings)
      ensures Valid() && fresh(window) && fresh(software)
      ensures this.initFlags == initFlags && this.initSettings == initSettings
      ensures currentVideo == initSettings.video && window.settings == initSettings.window
      ensures videoDriverType == NoDriver && !isRunning && software.pixels == null
    {
      this.initFlags := initFlags;
      this.initSettings := initSettings;
      currentVideo := initSettings.video;
      videoDriverType := NoDriver;
      isRunning := false;
      window := new Win32Window.Zeroed(initSettings.window);
      software := new VideoBackBuffer();
    }

    /** The window procedure's view of this state. */
    function ProcState(): WindowState
      reads this, software
    {
      WindowState(true, isRunning, videoDriverType == Software, initSettings.video.isAutoSize,
                  software.width, software.height)
    }

    /**
     * The software back buffer released and created anew at the size,
     * cleared to opaque black (final_platform_layer.hpp:3295-3296, 4068-4069).
     */
    method RecreateBackBuffer(width: nat, height: nat)
      requires Valid() && videoDriverType == Software
      requires Allocatable(width, height)
      modifies software
      ensures Valid()
      ensures software.width == width && software.height == height
      ensures software.pixels != null && fresh(software.pixels) && AllPixels(software.pixels[..], OPAQUE_BLACK)
    {
      software.Release();
      var _ := software.Create(width, height);
    }

    /**
     * Win32InitWindow_Internal up to the device context
     * (final_platform_layer.hpp:4229-4324): registers the window class,
     * allocates the event queue, creates the window in window mode and
     * acquires its device context. Once the window exists, the current
     * settings take its client size (final_platform_layer.hpp:4311-4317).
     * `queue` is the allocated queue, null when the allocation failed or was
     * not reached.
     */
    method OpenWindow(os: OsAnswers) returns (failure: Option<seq<char>>, queue: Queue?)
      requires window.settings == initSettings.window
      modifies window
      ensures failure.None? <==> os.classRegistered && os.queueAllocated && os.windowCreated && os.deviceContext
      ensures failure.Some? ==> failure == InitWindowFailure(initSettings.video.driverType, os)
      ensures queue != null <==> os.classRegistered && os.queueAllocated
      ensures queue != null ==> fresh(queue) && fresh(queue.events) && queue.Valid() && queue.View() == EventQueue.Empty()
      ensures failure.None? ==>
        (Windowed(window.View()) &&
         window.settings == initSettings.window.(isFullscreen := false, windowWidth := os.windowWidth,
                                                 windowHeight := os.windowHeight) &&
         window.width == os.windowWidth && window.height == os.windowHeight)
    {
      queue := null;
      if !os.classRegistered {
        return Some(ERROR_REGISTER_CLASS), null;
      }
      if !os.queueAllocated {
        return Some(ERROR_ALLOCATE_QUEUE), null;
      }
      queue := new Queue();

      window.settings := window.settings.(isFullscreen := false);
      if !os.windowCreated {
        return Some(ERROR_CREATE_WINDOW), queue;
      }
      window.Open(os.windowWidth, os.windowHeight, os.placement);
      window.settings := window.settings.(windowWidth := os.windowWidth, windowHeight := os.windowHeight);
      if !os.deviceContext {
        return Some(ERROR_DEVICE_CONTEXT), queue;
      }
      failure := None;
    }

    /**
     * The rest of Win32InitWindow_Internal (final_platform_layer.hpp:4325-4370):
     * enters fullscreen when the settings ask for it, creates the video
     * context of the requested driver and marks the window running. A
     * failing OpenGL context leaves no driver.
     */
    method StartVideo(os: OsAnswers) returns (failure: Option<seq<char>>)
      requires Valid() && software.pixels == null
      requires Windowed(window.View())
      requires window.settings == initSettings.window.(isFullscreen := false, windowWidth := os.windowWidth,
                                                       windowHeight := os.windowHeight)
      requires WindowSizeFits(initSettings, os)
      modifies this, window, software
      ensures Valid() && initFlags == old(initFlags) && initSettings == old(initSettings)
      ensures failure.None? <==> (initSettings.video.driverType == OpenGL ==> os.openGLCreated)
      ensures failure.Some? ==> failure.value == ERROR_OPENGL
      ensures var ws := initSettings.window;
        window.View() == if ws.isFullscreen
          then SetFullscreen(old(window.View()), true, ws.fullscreenWidth, ws.fullscreenHeight, 0,
                             os.desktop, os.displayChanged, os.displayReset)
          else old(window.View())
      ensures Consistent(window.View())
      ensures window.settings.isFullscreen <==> initSettings.window.isFullscreen && os.displayChanged
      ensures failure.None? ==> isRunning && videoDriverType == initSettings.video.driverType
      ensures failure.None? && videoDriverType == Software ==>
        ((software.width, software.height) == BufferSize(initSettings.window, os) &&
         software.pixels != null && AllPixels(software.pixels[..], OPAQUE_BLACK))
    {
      var ws := initSettings.window;
      if ws.isFullscreen {
        ghost var before := window.View();
        window.SetWindowFullscreen(true, ws.fullscreenWidth, ws.fullscreenHeight, 0,
                                   os.desktop, os.displayChanged, os.displayReset);
        SetFullscreenConsistent(before, true, ws.fullscreenWidth, ws.fullscreenHeight, 0,
                                os.desktop, os.displayChanged, os.displayReset);
      }

      videoDriverType := NoDriver;
      if initSettings.video.driverType == OpenGL {
        if !os.openGLCreated {
          return Some(ERROR_OPENGL);
        }
        videoDriverType := OpenGL;
      } else if initSettings.video.driverType == Software {
        var size := BufferSize(initSettings.window, os);
        var _ := software.Create(size.0, size.1);
        videoDriverType := Software;
      }
      isRunning := true;
      failure := None;
    }

    /**
     * Win32InitWindow_Internal (final_platform_layer.hpp:4229-4370) on a
     * freshly created state: the error of the first failing step, or None.
     */
    method InitWindow(os: OsAnswers) returns (failure: Option<seq<char>>, queue: Queue?)
      requires Valid() && software.pixels == null && window.settings == initSettings.window
      requires WindowSizeFits(initSettings, os)
      modifies this, window, software
      ensures Valid() && initFlags == old(initFlags) && initSettings == old(initSettings)
      ensures failure == InitWindowFailure(initSettings.video.driverType, os)
      ensures queue != null <==> os.classRegistered && os.queueAllocated
      ensures queue != null ==> fresh(queue) && fresh(queue.events) && queue.Valid() && queue.View() == EventQueue.Empty()
      ensures failure.None? ==>
        (isRunning && videoDriverType == initSettings.video.driverType && Consistent(window.View()))
    {
      failure, queue := OpenWindow(os);
      if failure.None? {
        failure := StartVideo(os);
      }
    }
  }

  /** PushError_Internal as the platform's lifecycle sees it: the error it leaves. */
  method PushLastError(errors: ErrorState, text: seq<char>)
    requires errors.Valid()
    modifies errors.errors
    ensures errors.Valid() && errors.LastError() == Text(Formatted(text))
  {
    PushError(errors, text);
  }

  /**
   * The window part of InitPlatform (final_platform_layer.hpp:4420-4444,
   * 4500-4512): gdi32.dll must load, then the window must come up; on a
   * failure of the window the step's own error is pushed and then
   * InitPlatform's, which is the one left.
   */
  method StartWindow(state: Win32State, errors: ErrorState, os: OsAnswers) returns (ok: bool, queue: Queue?)
    requires state.Valid() && state.software.pixels == null && state.window.settings == state.initSettings.window
    requires errors.Valid()
    requires WindowSizeFits(state.initSettings, os)
    modifies state, state.window, state.software, errors.errors
    ensures state.Valid() && errors.Valid()
    ensures state.initFlags == old(state.initFlags) && state.initSettings == old(state.initSettings)
    ensures ok <==> os.gdiLoaded && WindowOpens(state.initSettings.video.driverType, os)
    ensures ok ==> errors.errors[..] == old(errors.errors[..])
    ensures !ok ==> errors.LastError() == Text(Formatted(InitError(os)))
    ensures ok ==>
      (state.isRunning && queue != null && state.videoDriverType == state.initSettings.video.driverType &&
       Consistent(state.window.View()))
    ensures queue != null <==> os.gdiLoaded && os.classRegistered && os.queueAllocated
    ensures queue != null ==> fresh(queue) && fresh(queue.events) && queue.Valid()
  {
    if !os.gdiLoaded {
      PushLastError(errors, ERROR_LOAD_LIBRARY);
      return false, null;
    }
    var failure;
    failure, queue := state.InitWindow(os);
    if failure.Some? {
      PushLastError(errors, failure.value);
      PushLastError(errors, ERROR_INIT_WINDOW);
      return false, queue;
    }
    ok := true;
  }

  /**
   * The states a first InitPlatform builds (final_platform_layer.hpp:4464-4519):
   * the Win32 state with the flags (Video bringing Window along) and the
   * settings, the error state, and, with a window, gdi32.dll and the window
   * with its event queue. `ok` is InitPlatform's answer.
   */
  method InitStates(initFlags: Flags, initSettings: AppSettings, os: OsAnswers, errorBase: nat)
    returns (ok: bool, state: Win32State, errors: ErrorState, queue: Queue?)
    requires WindowSizeFits(initSettings, os)
    ensures fresh(state) && fresh(state.software) && fresh(errors) && fresh(errors.errors)
    ensures state.Valid() && errors.Valid()
    ensures state.initFlags == EffectiveFlags(initFlags) && state.initSettings == initSettings
    ensures ok <==> InitSucceeds(initFlags, initSettings.video.driverType, os)
    ensures ok ==> errors.LastError() == []
    ensures !ok ==> errors.LastError() == Text(Formatted(InitError(os)))
    ensures ok && Has(EffectiveFlags(initFlags), INIT_WINDOW) ==>
      (state.isRunning && queue != null && state.videoDriverType == initSettings.video.driverType &&
       Consistent(state.window.View()))
    ensures queue != null <==> QueueAllocated(initFlags, os)
    ensures queue != null ==> fresh(queue) && queue.Valid()
  {
    state := new Win32State(initFlags, initSettings);
    errors := AllocateErrorState(errorBase);
    queue := null;
    if Has(state.initFlags, INIT_VIDEO) {
      state.initFlags := Union(state.initFlags, INIT_WINDOW);
    }
    ok := true;
    if Has(state.initFlags, INIT_WINDOW) {
      ok, queue := StartWindow(state, errors, os);
    }
  }

  /** The platform's globals. */
  class Platform {
    var isInitialized: bool
    var win32State: Win32State?
    var errorState: ErrorState?
    var queue: Queue?
    const threads: ThreadTable

    ghost predicate Valid()
      reads this, win32State, errorState, threads
      reads if win32State != null then {win32State.software} else {}
      reads if errorState != null then {errorState.errors} else {}
    {
      (isInitialized ==> win32State != null && errorState != null) &&
      (win32State == null ==> queue == null) &&
      (win32State != null ==> win32State.Valid()) &&
      (errorState != null ==> errorState.Valid()) &&
      threads.Valid()
    }

    /**
     * InitPlatform may be called: the platform is initialized (and the call
     * will refuse), or no state is left over (the assertion at
     * final_platform_layer.hpp:4465).
     */
    predicate CanInitialize()
      reads this
    {
      isInitialized || win32State == null
    }

    /** The zero-initialised globals at program start. */
    constructor()
      ensures Valid() && !isInitialized && CanInitialize()
      ensures errorState == null && queue == null && fresh(threads)
    {
      isInitialized := false;
      win32State := null;
      errorState := null;
      queue := null;
      threads := new ThreadTable();
    }

    /**
     * InitPlatform (final_platform_layer.hpp:4454-4521). The error state is
     * allocated at `errorBase` by the corrected aligned allocator; the main
     * thread's id and handle are what Windows reports. A second call while
     * initialized refuses with an error.
     */
    method InitPlatform(initFlags: Flags, initSettings: AppSettings, os: OsAnswers, errorBase: nat,
                        mainThreadId: nat, mainThreadHandle: nat) returns (result: bool)
      requires Valid() && CanInitialize()
      requires WindowSizeFits(initSettings, os)
      modifies this, threads, if errorState != null then {errorState.errors} else {}
      ensures Valid()
      ensures old(isInitialized) ==>
        (!result && isInitialized && win32State == old(win32State) && errorState == old(errorState) &&
         queue == old(queue) && threads.mainThread == old(threads.mainThread) &&
         threads.View() == old(threads.View()) &&
         errorState.LastError() == Text(Formatted(ERROR_ALREADY_INITIALIZED)))
      ensures !old(isInitialized) ==> Initialized(initFlags, initSettings, os, mainThreadId, mainThreadHandle, result)
    {
      if isInitialized {
        PushLastError(errorState, ERROR_ALREADY_INITIALIZED);
        return false;
      }
      result := InitFresh(initFlags, initSettings, os, errorBase, mainThreadId, mainThreadHandle);
    }

    /**
     * The state a first InitPlatform leaves: fresh Win32 and error states
     * holding the flags (Video bringing Window along) and the settings, the
     * main thread running; success exactly when every step that runs
     * succeeds, with no error left, and otherwise the failing step's error
     * and a state that blocks another InitPlatform. With a window, a
     * successful call leaves it running with its video driver and an event
     * queue.
     */
    ghost predicate Initialized(initFlags: Flags, initSettings: AppSettings, os: OsAnswers,
                                mainThreadId: nat, mainThreadHandle: nat, result: bool)
      reads this, win32State, errorState, threads, queue
      reads if win32State != null then {win32State.window} else {}
      reads if errorState != null then {errorState.errors} else {}
    {
      win32State != null && errorState != null && errorState.Valid() &&
      win32State.initFlags == EffectiveFlags(initFlags) && win32State.initSettings == initSettings &&
      threads.mainThread == ThreadContext(mainThreadId, 0, 0, mainThreadHandle, Running) &&
      (result <==> InitSucceeds(initFlags, initSettings.video.driverType, os)) &&
      (queue != null <==> QueueAllocated(initFlags, os)) &&
      isInitialized == result &&
      (result ==> errorState.LastError() == []) &&
      (!result ==> errorState.LastError() == Text(Formatted(InitError(os))) && !CanInitialize()) &&
      (result && Has(EffectiveFlags(initFlags), INIT_WINDOW) ==>
        win32State.isRunning && queue != null && queue.Valid() &&
        win32State.videoDriverType == initSettings.video.driverType &&
        Consistent(win32State.window.View()))
    }

    /** InitPlatform on a platform that is not initialized. */
    method InitFresh(initFlags: Flags, initSettings: AppSettings, os: OsAnswers, errorBase: nat,
                     mainThreadId: nat, mainThreadHandle: nat) returns (result: bool)
      requires Valid() && !isInitialized && win32State == null
      requires WindowSizeFits(initSettings, os)
      modifies this, threads
      ensures Valid() && fresh(win32State) && fresh(errorState)
      ensures Initialized(initFlags, initSettings, os, mainThreadId, mainThreadHandle, result)
    {
      var state, errors, created;
      result, state, errors, created := InitStates(initFlags, initSettings, os, errorBase);
      win32State := state;
      errorState := errors;
      threads.mainThread := ThreadContext(mainThreadId, 0, 0, mainThreadHandle, Running);
      queue := created;
      isInitialized := result;
    }

    /**
     * ReleasePlatform (final_platform_layer.hpp:4523-4563): leaves
     * fullscreen, releases the video context, the window and its event
     * queue, then frees the error state and the Win32 state. `reset` is what
     * CDS_RESET answers. The queue is freed only when there is one: as
     * written the source frees it unconditionally (ReleaseFreeAssertion).
     */
    method ReleasePlatform(reset: bool) returns (freedQueue: bool)
      requires Valid() && isInitialized
      modifies this, win32State, win32State.window, win32State.software
      ensures freedQueue <==> old(queue) != null
      ensures Valid() && !isInitialized && CanInitialize()
      ensures win32State == null && errorState == null && queue == null
      ensures !old(win32State).window.settings.isFullscreen
      ensures old(win32State).software.pixels == null
    {
      var state := win32State;
      if state.window.settings.isFullscreen {
        var _ := state.window.LeaveFullscreen(reset);
      }
      if state.videoDriverType == Software {
        state.software.Release();
      }
      freedQueue := queue != null;
      queue := null;
      errorState := null;
      win32State := null;
      isInitialized := false;
    }

    /** GetVideoBackBuffer (final_platform_layer.hpp:3276-3286): the buffer only under the Software driver. */
    method GetVideoBackBuffer() returns (r: Option<VideoBackBuffer>)
      requires Valid() && win32State != null
      ensures r.Some? <==> win32State.videoDriverType == Software
      ensures r.Some? ==> r.value == win32State.software && r.value.pixels != null
    {
      if win32State.videoDriverType == Software {
        r := Some(win32State.software);
      } else {
        r := None;
      }
    }

    /**
     * ResizeVideoBackBuffer (final_platform_layer.hpp:3288-3298): under the
     * Software driver the buffer is released and created anew at the size;
     * otherwise nothing happens and the answer is false. The new size must be
     * allocatable: with a zero side the allocator's assertion fails
     * (final_platform_layer.hpp:1825), and a wrapping byte size overruns the
     * block.
     */
    method ResizeVideoBackBuffer(width: nat, height: nat) returns (result: bool)
      requires Valid() && win32State != null
      requires width < U32 && height < U32
      requires win32State.videoDriverType == Software ==> Allocatable(width, height)
      modifies win32State.software
      ensures Valid()
      ensures result <==> win32State.videoDriverType == Software
      ensures result ==> (win32State.software.width == width && win32State.software.height == height &&
                          win32State.software.pixels != null && AllPixels(win32State.software.pixels[..], OPAQUE_BLACK))
      ensures !result ==> win32State.software.pixels == old(win32State.software.pixels)
    {
      result := false;
      if win32State.videoDriverType == Software {
        win32State.RecreateBackBuffer(width, height);
        result := true;
      }
    }

    /**
     * Win32MessageProc_Internal applied to the platform: the event it
     * produces is pushed, isRunning takes its new value, and WM_SIZE under
     * the Software driver with auto-size recreates the back buffer at the new
     * size when the size changed. A new size with a zero side, which a
     * minimised window reports, keeps the buffer: as written the source asks
     * the allocator for an empty buffer (Input.MinimizedSizeAsksForEmptyBuffer).
     */
    method WindowProc(msg: Message, wParam: nat, lParam: nat, keysDown: set<nat>) returns (h: Handled)
      requires Valid() && win32State != null && queue != null && queue.Valid()
      modifies win32State, win32State.software, queue, queue.events
      ensures Valid() && queue.Valid()
      ensures h == HandleMessage(old(win32State.ProcState()), msg, wParam, lParam, keysDown)
      ensures win32State.isRunning == h.isRunning
      ensures win32State.initFlags == old(win32State.initFlags) && win32State.initSettings == old(win32State.initSettings)
      ensures win32State.currentVideo == old(win32State.currentVideo)
      ensures win32State.videoDriverType == old(win32State.videoDriverType)
      ensures queue.View() == if h.pushed.Some? then Push(old(queue.View()), h.pushed.value) else old(queue.View())
      ensures RecreatesBuffer(h) ==>
        (win32State.software.width == h.recreate.value.0 && win32State.software.height == h.recreate.value.1 &&
         win32State.software.pixels != null && AllPixels(win32State.software.pixels[..], OPAQUE_BLACK))
      ensures !RecreatesBuffer(h) ==>
        win32State.software.pixels == old(win32State.software.pixels) &&
        win32State.software.width == old(win32State.software.width) &&
        win32State.software.height == old(win32State.software.height)
    {
      h := HandleMessage(win32State.ProcState(), msg, wParam, lParam, keysDown);
      if RecreatesBuffer(h) {
        WordSizeAllocatable(h.recreate.value.0, h.recreate.value.1);
        win32State.RecreateBackBuffer(h.recreate.value.0, h.recreate.value.1);
      }
      if h.pushed.Some? {
        queue.PushEvent(h.pushed.value);
      }
      win32State.isRunning := h.isRunning;
    }
  }
}
