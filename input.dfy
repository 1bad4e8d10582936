// Input translation (final_platform_layer.hpp): the window message
// procedure's decoding of key, size, focus, close and mouse messages, and the
// per-controller gamepad connect / state / disconnect machine.
module Input {
  import opened Common
  import opened Flags
  import opened Events
  import opened EventQueue

  // Win32 virtual-key codes the message procedure reads.
  const VK_MENU: nat := 0x12
  const VK_F4: nat := 0x73
  const VK_LSHIFT: nat := 0xA0
  const VK_LCONTROL: nat := 0xA2
  const VK_LMENU: nat := 0xA4

  /** LOWORD and HIWORD of a message parameter. */
  function LowWord(lParam: nat): (w: nat)
    ensures w < 0x1_0000
  {
    lParam % 0x1_0000
  }

  function HighWord(lParam: nat): (w: nat)
    ensures w < 0x1_0000
  {
    (lParam / 0x1_0000) % 0x1_0000
  }

  /** A 16-bit word read as a signed `short` (GET_X_LPARAM, GET_Y_LPARAM). */
  function Signed16(w: nat): (v: int)
    requires w < 0x1_0000
    ensures -0x8000 <= v < 0x8000
    ensures (v + 0x1_0000) % 0x1_0000 == w
  {
    if w < 0x8000 then w else w - 0x1_0000
  }

  /** `lParam & (1 << 30)`: the key was already down before this message. */
  predicate WasDown(lParam: nat)
  {
    (lParam / 0x4000_0000) % 2 == 1
  }

  /**
   * `(lParam & (1 << 31)) == 0`: the key is down. `1 << 31` is a negative
   * `int`, so widened to the 64-bit LPARAM it tests bit 31 and every bit
   * above it; for the 32-bit key-message parameter that is bit 31 alone.
   */
  predicate IsDown(lParam: nat)
  {
    lParam < 0x8000_0000
  }

  /**
   * The modifier flags of a key message (final_platform_layer.hpp:4095-4114),
   * from the set of virtual keys GetAsyncKeyState reports as down: Alt from
   * VK_MENU, Shift from VK_LSHIFT, Ctrl from VK_LCONTROL and Super from
   * VK_LMENU, the left Alt key.
   */
  function KeyModifiers(keysDown: set<nat>): (m: Flags)
    ensures MOD_ALT in m <==> VK_MENU in keysDown
    ensures MOD_SHIFT in m <==> VK_LSHIFT in keysDown
    ensures MOD_CTRL in m <==> VK_LCONTROL in keysDown
    ensures MOD_SUPER in m <==> VK_LMENU in keysDown
    ensures m <= {MOD_ALT, MOD_CTRL, MOD_SHIFT, MOD_SUPER}
  {
    Union(Union(Union(Union(NONE,
      FlagIf(VK_MENU in keysDown, MOD_ALT)),
      FlagIf(VK_LSHIFT in keysDown, MOD_SHIFT)),
      FlagIf(VK_LCONTROL in keysDown, MOD_CTRL)),
      FlagIf(VK_LMENU in keysDown, MOD_SUPER))
  }

  /** `flags |= bit` when the condition holds. */
  function FlagIf(condition: bool, b: Bit): Flags
  {
    if condition then {b} else NONE
  }

  /** The right-hand Shift and Ctrl keys alone never show as modifiers. */
  lemma RightHandModifiersIgnored(keysDown: set<nat>)
    requires keysDown <= {0xA1, 0xA3}
    ensures KeyModifiers(keysDown) == NONE
  {
    var m := KeyModifiers(keysDown);
    forall b | b in m ensures false {
    }
  }

  /** The window messages the procedure tells apart. */
  datatype Message =
    | Destroy | Close | Size | Activate
    | KeyDownMessage | KeyUpMessage | SysKeyDown | SysKeyUp | CharMessage
    | LButtonDown | LButtonUp | RButtonDown | RButtonUp | MButtonDown | MButtonUp
    | MouseMove | MouseWheel
    | OtherMessage

  predicate IsKeyMessage(msg: Message)
  {
    msg == KeyDownMessage || msg == KeyUpMessage || msg == SysKeyDown || msg == SysKeyUp
  }

  /** The window state the procedure reads and changes. */
  datatype WindowState = WindowState(
    hasWindow: bool,
    isRunning: bool,
    softwareDriver: bool,   // videoDriverType == Software
    autoSize: bool,         // initSettings.video.isAutoSize
    bufferWidth: nat,       // the software back buffer's size
    bufferHeight: nat)

  /**
   * What one message does: the event pushed (if any), the new isRunning
   * flag, and the size the software back buffer is recreated with (if any).
   */
  datatype Handled = Handled(pushed: Option<Event>, isRunning: bool, recreate: Option<(nat, nat)>)

  /** Alt+F4: the F4 key goes down, not repeating, while Alt is held. */
  predicate AltF4(keyCode: nat, lParam: nat, keysDown: set<nat>)
  {
    WasDown(lParam) != IsDown(lParam) && IsDown(lParam) && keyCode == VK_F4 && VK_MENU in keysDown
  }

  /** Win32PushMouseEvent_Internal: position from the signed words of lParam. */
  function MouseAt(mouseType: MouseEventType, button: MouseButtonType, lParam: nat): (e: Event)
    ensures e.MouseEvent? && e.mouseType == mouseType && e.mouseButton == button
    ensures (e.mouseX + 0x1_0000) % 0x1_0000 == LowWord(lParam)
    ensures (e.mouseY + 0x1_0000) % 0x1_0000 == HighWord(lParam)
  {
    MouseEvent(mouseType, button, Signed16(LowWord(lParam)), Signed16(HighWord(lParam)))
  }

  /**
   * Win32MessageProc_Internal (final_platform_layer.hpp:4047-4227), for one
   * message, given the keys GetAsyncKeyState reports as down. Without a window
   * handle the message goes straight to the default procedure.
   */
  function HandleMessage(s: WindowState, msg: Message, wParam: nat, lParam: nat, keysDown: set<nat>): (h: Handled)
    ensures h.isRunning ==> s.isRunning
    ensures h.pushed.None? <==> !s.hasWindow || msg == Destroy || msg == Close || msg == OtherMessage
    ensures h.recreate.Some? ==>
      s.hasWindow && msg == Size && s.softwareDriver && s.autoSize &&
      h.recreate.value != (s.bufferWidth, s.bufferHeight) &&
      h.recreate.value.0 < 0x1_0000 && h.recreate.value.1 < 0x1_0000
  {
    if !s.hasWindow then Handled(None, s.isRunning, None)
    else match msg
      case Destroy => Handled(None, false, None)
      case Close => Handled(None, false, None)
      case Size =>
        var w := LowWord(lParam);
        var ht := HighWord(lParam);
        var recreate :=
          if s.softwareDriver && s.autoSize && (w != s.bufferWidth || ht != s.bufferHeight)
          then Some((w, ht)) else None;
        Handled(Some(WindowEvent(Resized, w, ht)), s.isRunning, recreate)
      case Activate =>
        Handled(Some(WindowEvent(if wParam == 0 then LostFocus else GotFocus, 0, 0)), s.isRunning, None)
      case CharMessage =>
        Handled(Some(KeyboardEvent(Char, wParam, MapVirtualKey(wParam), NONE)), s.isRunning, None)
      case LButtonDown => Handled(Some(MouseAt(ButtonDown, LeftButton, lParam)), s.isRunning, None)
      case LButtonUp => Handled(Some(MouseAt(ButtonUp, LeftButton, lParam)), s.isRunning, None)
      case RButtonDown => Handled(Some(MouseAt(ButtonDown, RightButton, lParam)), s.isRunning, None)
      case RButtonUp => Handled(Some(MouseAt(ButtonUp, RightButton, lParam)), s.isRunning, None)
      case MButtonDown => Handled(Some(MouseAt(ButtonDown, MiddleButton, lParam)), s.isRunning, None)
      case MButtonUp => Handled(Some(MouseAt(ButtonUp, MiddleButton, lParam)), s.isRunning, None)
      case MouseMove => Handled(Some(MouseAt(Move, NoMouseButton, lParam)), s.isRunning, None)
      case MouseWheel => Handled(Some(MouseAt(Wheel, NoMouseButton, lParam)), s.isRunning, None)
      case OtherMessage => Handled(None, s.isRunning, None)
      case _ =>
        // WM_KEYDOWN, WM_KEYUP, WM_SYSKEYDOWN, WM_SYSKEYUP
        var keyType := if IsDown(lParam) then KeyDown else KeyUp;
        var ev := KeyboardEvent(keyType, wParam, MapVirtualKey(wParam), KeyModifiers(keysDown));
        Handled(Some(ev), s.isRunning && !AltF4(wParam, lParam, keysDown), None)
  }

  /**
   * The procedure only ever clears isRunning, and it does so exactly on
   * WM_DESTROY, WM_CLOSE and the Alt+F4 press.
   */
  lemma StopsOnlyOnCloseOrAltF4(s: WindowState, msg: Message, wParam: nat, lParam: nat, keysDown: set<nat>)
    requires s.hasWindow && s.isRunning
    ensures var h := HandleMessage(s, msg, wParam, lParam, keysDown);
      !h.isRunning <==>
        msg == Destroy || msg == Close || (IsKeyMessage(msg) && AltF4(wParam, lParam, keysDown))
  {
  }

  /** Without a window handle nothing happens. */
  lemma NoWindowNoEffect(s: WindowState, msg: Message, wParam: nat, lParam: nat, keysDown: set<nat>)
    requires !s.hasWindow
    ensures HandleMessage(s, msg, wParam, lParam, keysDown) == Handled(None, s.isRunning, None)
  {
  }

  /** A repeated key-down (bit 30 set) never closes the window, even for Alt+F4. */
  lemma AutoRepeatKeepsRunning(s: WindowState, msg: Message, lParam: nat, keysDown: set<nat>)
    requires s.isRunning && IsKeyMessage(msg) && WasDown(lParam) && IsDown(lParam)
    ensures HandleMessage(s, msg, VK_F4, lParam, keysDown).isRunning
  {
  }

  /**
   * A key message is decoded into one keyboard event: KeyDown exactly when
   * bit 31 of lParam is clear, whatever the message type said, carrying the
   * raw code, its mapped Key and the modifiers.
   */
  lemma KeyMessageDecoded(s: WindowState, msg: Message, wParam: nat, lParam: nat, keysDown: set<nat>)
    requires s.hasWindow && IsKeyMessage(msg)
    ensures var h := HandleMessage(s, msg, wParam, lParam, keysDown);
      h.pushed.Some? && h.pushed.value.KeyboardEvent? && h.recreate == None &&
      (h.pushed.value.keyboardType == KeyDown <==> lParam < 0x8000_0000) &&
      h.pushed.value.keyboardType != Char &&
      h.pushed.value.keyCode == wParam &&
      h.pushed.value.mappedKey == MapVirtualKey(wParam) &&
      (MOD_SUPER in h.pushed.value.modifiers <==> VK_LMENU in keysDown)
  {
  }

  /**
   * WM_SIZE always reports the new size as a Resized event, and recreates the
   * software back buffer only for the software driver with auto-size on and
   * only when the size differs from the buffer's.
   */
  lemma SizeMessage(s: WindowState, wParam: nat, lParam: nat, keysDown: set<nat>)
    requires s.hasWindow
    ensures var h := HandleMessage(s, Size, wParam, lParam, keysDown);
      h.pushed == Some(WindowEvent(Resized, LowWord(lParam), HighWord(lParam))) &&
      h.isRunning == s.isRunning &&
      (h.recreate.Some? <==>
         s.softwareDriver && s.autoSize &&
         (LowWord(lParam), HighWord(lParam)) != (s.bufferWidth, s.bufferHeight)) &&
      (h.recreate.Some? ==> h.recreate.value == (LowWord(lParam), HighWord(lParam)))
  {
  }

  /**
   * A minimised window gets WM_SIZE with both words of lParam zero
   * (final_platform_layer.hpp:4064-4072); the procedure as written then asks
   * for a back buffer of size 0x0, whose allocation asserts against a zero
   * size (final_platform_layer.hpp:1825, 3249).
   */
  lemma MinimizedSizeAsksForEmptyBuffer(s: WindowState, wParam: nat, keysDown: set<nat>)
    requires s.hasWindow && s.softwareDriver && s.autoSize
    requires (s.bufferWidth, s.bufferHeight) != (0, 0)
    ensures HandleMessage(s, Size, wParam, 0, keysDown).recreate == Some((0, 0))
  {
    SizeMessage(s, wParam, 0, keysDown);
  }

  /** WM_ACTIVATE: focus is lost exactly when wParam is WA_INACTIVE (0). */
  lemma ActivateMessage(s: WindowState, wParam: nat, lParam: nat, keysDown: set<nat>)
    requires s.hasWindow
    ensures var h := HandleMessage(s, Activate, wParam, lParam, keysDown);
      h.pushed.Some? && h.pushed.value.WindowEvent? &&
      (h.pushed.value.windowType == LostFocus <==> wParam == 0) &&
      h.pushed.value.windowType != Resized
  {
  }

  // -------------------------------------------------------------------
  // Gamepads (final_platform_layer.hpp:3439-3521), polled through XInput for
  // controllers 0 to XUSER_MAX_COUNT - 1. A poll's result is the controller's
  // wButtons word when XInputGetState succeeded, and None when it failed.

  const MAX_CONTROLLER_COUNT: nat := 4

  // XINPUT_GAMEPAD button bits of the wButtons word.
  const XINPUT_DPAD_UP: Bit := 0
  const XINPUT_DPAD_DOWN: Bit := 1
  const XINPUT_DPAD_LEFT: Bit := 2
  const XINPUT_DPAD_RIGHT: Bit := 3
  const XINPUT_START: Bit := 4
  const XINPUT_BACK: Bit := 5
  const XINPUT_LEFT_THUMB: Bit := 6
  const XINPUT_RIGHT_THUMB: Bit := 7
  const XINPUT_LEFT_SHOULDER: Bit := 8
  const XINPUT_RIGHT_SHOULDER: Bit := 9
  const XINPUT_A: Bit := 12
  const XINPUT_B: Bit := 13
  const XINPUT_X: Bit := 14
  const XINPUT_Y: Bit := 15

  /** The wButtons bit belonging to each entry of the button array. */
  function XInputBit(button: nat): Bit
    requires button < GAMEPAD_BUTTON_COUNT
  {
    match button
    case 0 => XINPUT_DPAD_UP
    case 1 => XINPUT_DPAD_RIGHT
    case 2 => XINPUT_DPAD_DOWN
    case 3 => XINPUT_DPAD_LEFT
    case 4 => XINPUT_A
    case 5 => XINPUT_B
    case 6 => XINPUT_X
    case 7 => XINPUT_Y
    case 8 => XINPUT_START
    case 9 => XINPUT_BACK
    case 10 => XINPUT_LEFT_THUMB
    case 11 => XINPUT_RIGHT_THUMB
    case 12 => XINPUT_LEFT_SHOULDER
    case _ => XINPUT_RIGHT_SHOULDER
  }

  /** The digital buttons of a StateChanged event, from the wButtons word. */
  function PadButtons(wButtons: Flags): Buttons
  {
    [XINPUT_DPAD_UP in wButtons, XINPUT_DPAD_RIGHT in wButtons,
     XINPUT_DPAD_DOWN in wButtons, XINPUT_DPAD_LEFT in wButtons,
     XINPUT_A in wButtons, XINPUT_B in wButtons, XINPUT_X in wButtons, XINPUT_Y in wButtons,
     XINPUT_START in wButtons, XINPUT_BACK in wButtons,
     false, false,
     XINPUT_LEFT_SHOULDER in wButtons, XINPUT_RIGHT_SHOULDER in wButtons]
  }

  /**
   * Each digital button is set from its own wButtons bit, except the two
   * thumb buttons, which are never set.
   */
  lemma PadButtonsMeaning(wButtons: Flags)
    ensures forall i :: 0 <= i < GAMEPAD_BUTTON_COUNT ==>
      (PadButtons(wButtons)[i] <==> i != LEFT_THUMB && i != RIGHT_THUMB && XInputBit(i) in wButtons)
  {
    var b := PadButtons(wButtons);
    forall i | 0 <= i < GAMEPAD_BUTTON_COUNT
      ensures b[i] <==> i != LEFT_THUMB && i != RIGHT_THUMB && XInputBit(i) in wButtons
    {
      if i < 7 {
        assert i == 0 || i == 1 || i == 2 || i == 3 || i == 4 || i == 5 || i == 6;
      } else {
        assert i == 7 || i == 8 || i == 9 || i == 10 || i == 11 || i == 12 || i == 13;
      }
    }
  }

  /** One controller's step: its new connection flag and the events it pushes. */
  function ControllerStep(wasConnected: bool, index: nat, poll: Option<Flags>): (r: (bool, seq<Event>))
    ensures r.0 <==> poll.Some?
    ensures |r.1| <= 1
    ensures r.1 == [] <==> !wasConnected && poll.None?
    ensures forall e | e in r.1 :: e.GamepadEvent? && e.deviceIndex == index
  {
    if poll.Some? then
      if !wasConnected then (true, [GamepadEvent(Connected, index, NO_BUTTONS)])
      else (true, [GamepadEvent(StateChanged, index, PadButtons(poll.value))])
    else
      if wasConnected then (false, [GamepadEvent(Disconnected, index, NO_BUTTONS)])
      else (false, [])
  }

  /** The events of controllers 0 .. n-1, in controller order. */
  function ControllerEvents(connected: seq<bool>, polls: seq<Option<Flags>>, n: nat): (events: seq<Event>)
    requires n <= |connected| && n <= |polls|
    ensures |events| <= n
    ensures forall e | e in events :: e.GamepadEvent? && e.deviceIndex < n
  {
    if n == 0 then []
    else ControllerEvents(connected, polls, n - 1) + ControllerStep(connected[n - 1], n - 1, polls[n - 1]).1
  }

  /**
   * Connected is reported exactly on the poll that first succeeds, and
   * Disconnected exactly on the first that fails; while a controller stays
   * connected every poll reports StateChanged, with the thumb buttons clear.
   */
  lemma {:induction false} ControllerEventsMeaning(connected: seq<bool>, polls: seq<Option<Flags>>, n: nat)
    requires n <= |connected| && n <= |polls|
    ensures forall e | e in ControllerEvents(connected, polls, n) ::
      e.GamepadEvent? && e.deviceIndex < n &&
      (e.gamepadType == Connected <==> !connected[e.deviceIndex] && polls[e.deviceIndex].Some?) &&
      (e.gamepadType == Disconnected <==> connected[e.deviceIndex] && polls[e.deviceIndex].None?) &&
      (e.gamepadType == StateChanged <==> connected[e.deviceIndex] && polls[e.deviceIndex].Some?) &&
      !e.buttons[LEFT_THUMB] && !e.buttons[RIGHT_THUMB]
    ensures |ControllerEvents(connected, polls, n)| <= n
  {
    if n > 0 {
      ControllerEventsMeaning(connected, polls, n - 1);
      var step := ControllerStep(connected[n - 1], n - 1, polls[n - 1]).1;
      forall e | e in step
        ensures !e.buttons[LEFT_THUMB] && !e.buttons[RIGHT_THUMB]
      {
        if polls[n - 1].Some? && connected[n - 1] {
          PadButtonsMeaning(polls[n - 1].value);
        }
      }
    }
  }

  /** One controller's turn in the loop of Win32PollControllers_Internal. */
  method PollController(isConnected: array<bool>, index: nat, poll: Option<Flags>, queue: Queue)
    requires index < isConnected.Length && queue.Valid()
    modifies isConnected, queue, queue.events
    ensures queue.Valid() && queue.events == old(queue.events)
    ensures isConnected[..] == old(isConnected[..])[index := poll.Some?]
    ensures queue.View() == PushAll(old(queue.View()), ControllerStep(old(isConnected[index]), index, poll).1)
  {
    var step := ControllerStep(isConnected[index], index, poll);
    isConnected[index] := step.0;
    if step.1 != [] {
      queue.PushEvent(step.1[0]);
      assert step.1 == [step.1[0]];
    }
  }

  /** The connection flags once controllers 0 .. k-1 have been polled. */
  function ConnectedAfter(before: seq<bool>, polls: seq<Option<Flags>>, k: nat): (r: seq<bool>)
    requires |polls| == |before| && k <= |before|
    ensures |r| == |before|
  {
    seq(|before|, i requires 0 <= i < |before| => if i < k then polls[i].Some? else before[i])
  }

  lemma ConnectedAfterStep(before: seq<bool>, polls: seq<Option<Flags>>, k: nat)
    requires |polls| == |before| && k < |before|
    ensures ConnectedAfter(before, polls, k)[k := polls[k].Some?] == ConnectedAfter(before, polls, k + 1)
  {
  }

  /**
   * Win32PollControllers_Internal: polls every controller in turn, updates
   * its connection flag and pushes its event onto the queue.
   */
  method PollControllers(isConnected: array<bool>, polls: seq<Option<Flags>>, queue: Queue)
    requires isConnected.Length == MAX_CONTROLLER_COUNT && |polls| == MAX_CONTROLLER_COUNT
    requires queue.Valid()
    modifies isConnected, queue, queue.events
    ensures queue.Valid() && queue.events == old(queue.events)
    ensures forall i :: 0 <= i < MAX_CONTROLLER_COUNT ==> isConnected[i] == polls[i].Some?
    ensures queue.View() == PushAll(old(queue.View()), ControllerEvents(old(isConnected[..]), polls, MAX_CONTROLLER_COUNT))
  {
    ghost var connected0 := isConnected[..];
    ghost var q0 := queue.View();
    var controllerIndex := 0;
    while controllerIndex < MAX_CONTROLLER_COUNT
      invariant controllerIndex <= MAX_CONTROLLER_COUNT
      invariant queue.Valid() && queue.events == old(queue.events)
      invariant isConnected[..] == ConnectedAfter(connected0, polls, controllerIndex)
      invariant queue.View() == PushAll(q0, ControllerEvents(connected0, polls, controllerIndex))
    {
      ghost var done := ControllerEvents(connected0, polls, controllerIndex);
      assert isConnected[controllerIndex] == connected0[controllerIndex];
      PollController(isConnected, controllerIndex, polls[controllerIndex], queue);
      ConnectedAfterStep(connected0, polls, controllerIndex);
      PushAllConcat(q0, done, ControllerStep(connected0[controllerIndex], controllerIndex, polls[controllerIndex]).1);
      controllerIndex := controllerIndex + 1;
    }
    assert forall i :: 0 <= i < MAX_CONTROLLER_COUNT ==> isConnected[..][i] == isConnected[i];
  }
}
