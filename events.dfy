// Window events and keys (final_platform_layer.hpp, namespace window).
// The event record is a tagged union; its float fields (mouse wheel delta,
// stick and trigger positions) are not part of this model.
module Events {
  import opened Flags

  /**
   * The Key enum (final_platform_layer.hpp:1120-1271) gives every key an
   * explicit number, the Win32 virtual-key code it stands for; a Key is
   * modelled as that number.
   */
  predicate IsKey(v: nat)
  {
    match v
    case 0x00 => true
    case 0x08 => true
    case 0x09 => true
    case 0x0C => true
    case 0x0D => true
    case 0x10 => true
    case 0x11 => true
    case 0x12 => true
    case 0x13 => true
    case 0x14 => true
    case 0x1B => true
    case 0x20 => true
    case 0x21 => true
    case 0x22 => true
    case 0x23 => true
    case 0x24 => true
    case 0x25 => true
    case 0x26 => true
    case 0x27 => true
    case 0x28 => true
    case 0x29 => true
    case 0x2A => true
    case 0x2B => true
    case 0x2C => true
    case 0x2D => true
    case 0x2E => true
    case 0x2F => true
    case 0x30 => true
    case 0x31 => true
    case 0x32 => true
    case 0x33 => true
    case 0x34 => true
    case 0x35 => true
    case 0x36 => true
    case 0x37 => true
    case 0x38 => true
    case 0x39 => true
    case 0x41 => true
    case 0x42 => true
    case 0x43 => true
    case 0x44 => true
    case 0x45 => true
    case 0x46 => true
    case 0x47 => true
    case 0x48 => true
    case 0x49 => true
    case 0x4A => true
    case 0x4B => true
    case 0x4C => true
    case 0x4D => true
    case 0x4E => true
    case 0x4F => true
    case 0x50 => true
    case 0x51 => true
    case 0x52 => true
    case 0x53 => true
    case 0x54 => true
    case 0x55 => true
    case 0x56 => true
    case 0x57 => true
    case 0x58 => true
    case 0x59 => true
    case 0x5A => true
    case 0x5B => true
    case 0x5C => true
    case 0x5D => true
    case 0x5F => true
    case 0x60 => true
    case 0x61 => true
    case 0x62 => true
    case 0x63 => true
    case 0x64 => true
    case 0x65 => true
    case 0x66 => true
    case 0x67 => true
    case 0x68 => true
    case 0x69 => true
    case 0x6A => true
    case 0x6B => true
    case 0x6C => true
    case 0x6D => true
    case 0x6E => true
    case 0x6F => true
    case 0x70 => true
    case 0x71 => true
    case 0x72 => true
    case 0x73 => true
    case 0x74 => true
    case 0x75 => true
    case 0x76 => true
    case 0x77 => true
    case 0x78 => true
    case 0x79 => true
    case 0x7A => true
    case 0x7B => true
    case 0x7C => true
    case 0x7D => true
    case 0x7E => true
    case 0x7F => true
    case 0x80 => true
    case 0x81 => true
    case 0x82 => true
    case 0x83 => true
    case 0x84 => true
    case 0x85 => true
    case 0x86 => true
    case 0x87 => true
    case 0x90 => true
    case 0x91 => true
    case 0xA0 => true
    case 0xA1 => true
    case 0xA2 => true
    case 0xA3 => true
    case 0xA4 => true
    case 0xA5 => true
    case _ => false
  }

  type Key = v: nat | IsKey(v)

  const Key_None: Key := 0x00
  const Key_Backspace: Key := 0x08
  const Key_Tab: Key := 0x09
  const Key_Clear: Key := 0x0C
  const Key_Enter: Key := 0x0D
  const Key_Shift: Key := 0x10
  const Key_Control: Key := 0x11
  const Key_Alt: Key := 0x12
  const Key_Pause: Key := 0x13
  const Key_CapsLock: Key := 0x14
  const Key_Escape: Key := 0x1B
  const Key_Space: Key := 0x20
  const Key_PageUp: Key := 0x21
  const Key_PageDown: Key := 0x22
  const Key_End: Key := 0x23
  const Key_Home: Key := 0x24
  const Key_Left: Key := 0x25
  const Key_Up: Key := 0x26
  const Key_Right: Key := 0x27
  const Key_Down: Key := 0x28
  const Key_Select: Key := 0x29
  const Key_Print: Key := 0x2A
  const Key_Execute: Key := 0x2B
  const Key_Snapshot: Key := 0x2C
  const Key_Insert: Key := 0x2D
  const Key_Delete: Key := 0x2E
  const Key_Help: Key := 0x2F
  const Key_0: Key := 0x30
  const Key_1: Key := 0x31
  const Key_2: Key := 0x32
  const Key_3: Key := 0x33
  const Key_4: Key := 0x34
  const Key_5: Key := 0x35
  const Key_6: Key := 0x36
  const Key_7: Key := 0x37
  const Key_8: Key := 0x38
  const Key_9: Key := 0x39
  const Key_A: Key := 0x41
  const Key_B: Key := 0x42
  const Key_C: Key := 0x43
  const Key_D: Key := 0x44
  const Key_E: Key := 0x45
  const Key_F: Key := 0x46
  const Key_G: Key := 0x47
  const Key_H: Key := 0x48
  const Key_I: Key := 0x49
  const Key_J: Key := 0x4A
  const Key_K: Key := 0x4B
  const Key_L: Key := 0x4C
  const Key_M: Key := 0x4D
  const Key_N: Key := 0x4E
  const Key_O: Key := 0x4F
  const Key_P: Key := 0x50
  const Key_Q: Key := 0x51
  const Key_R: Key := 0x52
  const Key_S: Key := 0x53
  const Key_T: Key := 0x54
  const Key_U: Key := 0x55
  const Key_V: Key := 0x56
  const Key_W: Key := 0x57
  const Key_X: Key := 0x58
  const Key_Y: Key := 0x59
  const Key_Z: Key := 0x5A
  const Key_LeftWin: Key := 0x5B
  const Key_RightWin: Key := 0x5C
  const Key_Apps: Key := 0x5D
  const Key_Sleep: Key := 0x5F
  const Key_NumPad0: Key := 0x60
  const Key_NumPad1: Key := 0x61
  const Key_NumPad2: Key := 0x62
  const Key_NumPad3: Key := 0x63
  const Key_NumPad4: Key := 0x64
  const Key_NumPad5: Key := 0x65
  const Key_NumPad6: Key := 0x66
  const Key_NumPad7: Key := 0x67
  const Key_NumPad8: Key := 0x68
  const Key_NumPad9: Key := 0x69
  const Key_Multiply: Key := 0x6A
  const Key_Add: Key := 0x6B
  const Key_Separator: Key := 0x6C
  const Key_Substract: Key := 0x6D
  const Key_Decimal: Key := 0x6E
  const Key_Divide: Key := 0x6F
  const Key_F1: Key := 0x70
  const Key_F2: Key := 0x71
  const Key_F3: Key := 0x72
  const Key_F4: Key := 0x73
  const Key_F5: Key := 0x74
  const Key_F6: Key := 0x75
  const Key_F7: Key := 0x76
  const Key_F8: Key := 0x77
  const Key_F9: Key := 0x78
  const Key_F10: Key := 0x79
  const Key_F11: Key := 0x7A
  const Key_F12: Key := 0x7B
  const Key_F13: Key := 0x7C
  const Key_F14: Key := 0x7D
  const Key_F15: Key := 0x7E
  const Key_F16: Key := 0x7F
  const Key_F17: Key := 0x80
  const Key_F18: Key := 0x81
  const Key_F19: Key := 0x82
  const Key_F20: Key := 0x83
  const Key_F21: Key := 0x84
  const Key_F22: Key := 0x85
  const Key_F23: Key := 0x86
  const Key_F24: Key := 0x87
  const Key_NumLock: Key := 0x90
  const Key_Scroll: Key := 0x91
  const Key_LeftShift: Key := 0xA0
  const Key_RightShift: Key := 0xA1
  const Key_LeftControl: Key := 0xA2
  const Key_RightControl: Key := 0xA3
  const Key_LeftAlt: Key := 0xA4
  const Key_RightAlt: Key := 0xA5

  /**
   * Win32MapVirtualKey_Internal (final_platform_layer.hpp:3537-3775): each
   * listed virtual-key code maps to the Key of the same value; every other
   * code, NumLock (0x90) and Scroll (0x91) among them, maps to Key_None.
   * The one switch is written here as four, one per range of codes.
   */
  function MapVirtualKey(keyCode: nat): (k: Key)
    ensures k == Key_None || k == keyCode
  {
    if keyCode < 0x30 then MapControlKey(keyCode)
    else if keyCode < 0x60 then MapCharacterKey(keyCode)
    else if keyCode < 0x88 then MapNumPadOrFunctionKey(keyCode)
    else MapSideKey(keyCode)
  }

  /** The switch's cases for the control and navigation keys, below 0x30. */
  function MapControlKey(keyCode: nat): (k: Key)
    ensures k == Key_None || k == keyCode
  {
    match keyCode
    case 0x08 => Key_Backspace
    case 0x09 => Key_Tab
    case 0x0C => Key_Clear
    case 0x0D => Key_Enter
    case 0x10 => Key_Shift
    case 0x11 => Key_Control
    case 0x12 => Key_Alt
    case 0x13 => Key_Pause
    case 0x14 => Key_CapsLock
    case 0x1B => Key_Escape
    case 0x20 => Key_Space
    case 0x21 => Key_PageUp
    case 0x22 => Key_PageDown
    case 0x23 => Key_End
    case 0x24 => Key_Home
    case 0x25 => Key_Left
    case 0x26 => Key_Up
    case 0x27 => Key_Right
    case 0x28 => Key_Down
    case 0x29 => Key_Select
    case 0x2A => Key_Print
    case 0x2B => Key_Execute
    case 0x2C => Key_Snapshot
    case 0x2D => Key_Insert
    case 0x2E => Key_Delete
    case 0x2F => Key_Help
    case _ => Key_None
  }

  /** The switch's cases for the digits, letters and the Windows keys, 0x30 to 0x5F. */
  function MapCharacterKey(keyCode: nat): (k: Key)
    ensures k == Key_None || k == keyCode
  {
    match keyCode
    case 0x30 => Key_0
    case 0x31 => Key_1
    case 0x32 => Key_2
    case 0x33 => Key_3
    case 0x34 => Key_4
    case 0x35 => Key_5
    case 0x36 => Key_6
    case 0x37 => Key_7
    case 0x38 => Key_8
    case 0x39 => Key_9
    case 0x41 => Key_A
    case 0x42 => Key_B
    case 0x43 => Key_C
    case 0x44 => Key_D
    case 0x45 => Key_E
    case 0x46 => Key_F
    case 0x47 => Key_G
    case 0x48 => Key_H
    case 0x49 => Key_I
    case 0x4A => Key_J
    case 0x4B => Key_K
    case 0x4C => Key_L
    case 0x4D => Key_M
    case 0x4E => Key_N
    case 0x4F => Key_O
    case 0x50 => Key_P
    case 0x51 => Key_Q
    case 0x52 => Key_R
    case 0x53 => Key_S
    case 0x54 => Key_T
    case 0x55 => Key_U
    case 0x56 => Key_V
    case 0x57 => Key_W
    case 0x58 => Key_X
    case 0x59 => Key_Y
    case 0x5A => Key_Z
    case 0x5B => Key_LeftWin
    case 0x5C => Key_RightWin
    case 0x5D => Key_Apps
    case 0x5F => Key_Sleep
    case _ => Key_None
  }

  /** The switch's cases for the numeric pad and function keys, 0x60 to 0x87. */
  function MapNumPadOrFunctionKey(keyCode: nat): (k: Key)
    ensures k == Key_None || k == keyCode
  {
    match keyCode
    case 0x60 => Key_NumPad0
    case 0x61 => Key_NumPad1
    case 0x62 => Key_NumPad2
    case 0x63 => Key_NumPad3
    case 0x64 => Key_NumPad4
    case 0x65 => Key_NumPad5
    case 0x66 => Key_NumPad6
    case 0x67 => Key_NumPad7
    case 0x68 => Key_NumPad8
    case 0x69 => Key_NumPad9
    case 0x6A => Key_Multiply
    case 0x6B => Key_Add
    case 0x6C => Key_Separator
    case 0x6D => Key_Substract
    case 0x6E => Key_Decimal
    case 0x6F => Key_Divide
    case 0x70 => Key_F1
    case 0x71 => Key_F2
    case 0x72 => Key_F3
    case 0x73 => Key_F4
    case 0x74 => Key_F5
    case 0x75 => Key_F6
    case 0x76 => Key_F7
    case 0x77 => Key_F8
    case 0x78 => Key_F9
    case 0x79 => Key_F10
    case 0x7A => Key_F11
    case 0x7B => Key_F12
    case 0x7C => Key_F13
    case 0x7D => Key_F14
    case 0x7E => Key_F15
    case 0x7F => Key_F16
    case 0x80 => Key_F17
    case 0x81 => Key_F18
    case 0x82 => Key_F19
    case 0x83 => Key_F20
    case 0x84 => Key_F21
    case 0x85 => Key_F22
    case 0x86 => Key_F23
    case 0x87 => Key_F24
    case _ => Key_None
  }

  /** The switch's cases for the left and right shift, control and alt, from 0x88 on. */
  function MapSideKey(keyCode: nat): (k: Key)
    ensures k == Key_None || k == keyCode
  {
    match keyCode
    case 0xA0 => Key_LeftShift
    case 0xA1 => Key_RightShift
    case 0xA2 => Key_LeftControl
    case 0xA3 => Key_RightControl
    case 0xA4 => Key_LeftAlt
    case 0xA5 => Key_RightAlt
    case _ => Key_None
  }

  /**
   * The switch is the identity on every Key's own code, except that NumLock
   * and Scroll are missing from it; every code that is not a Key maps to
   * Key_None.
   */
  lemma MapVirtualKeyIdentity(keyCode: nat)
    ensures MapVirtualKey(keyCode) ==
      if IsKey(keyCode) && keyCode != Key_NumLock && keyCode != Key_Scroll then keyCode else Key_None
  {
    match keyCode
    case 0x00 =>
    case 0x08 =>
    case 0x09 =>
    case 0x0C =>
    case 0x0D =>
    case 0x10 =>
    case 0x11 =>
    case 0x12 =>
    case 0x13 =>
    case 0x14 =>
    case 0x1B =>
    case 0x20 =>
    case 0x21 =>
    case 0x22 =>
    case 0x23 =>
    case 0x24 =>
    case 0x25 =>
    case 0x26 =>
    case 0x27 =>
    case 0x28 =>
    case 0x29 =>
    case 0x2A =>
    case 0x2B =>
    case 0x2C =>
    case 0x2D =>
    case 0x2E =>
    case 0x2F =>
    case 0x30 =>
    case 0x31 =>
    case 0x32 =>
    case 0x33 =>
    case 0x34 =>
    case 0x35 =>
    case 0x36 =>
    case 0x37 =>
    case 0x38 =>
    case 0x39 =>
    case 0x41 =>
    case 0x42 =>
    case 0x43 =>
    case 0x44 =>
    case 0x45 =>
    case 0x46 =>
    case 0x47 =>
    case 0x48 =>
    case 0x49 =>
    case 0x4A =>
    case 0x4B =>
    case 0x4C =>
    case 0x4D =>
    case 0x4E =>
    case 0x4F =>
    case 0x50 =>
    case 0x51 =>
    case 0x52 =>
    case 0x53 =>
    case 0x54 =>
    case 0x55 =>
    case 0x56 =>
    case 0x57 =>
    case 0x58 =>
    case 0x59 =>
    case 0x5A =>
    case 0x5B =>
    case 0x5C =>
    case 0x5D =>
    case 0x5F =>
    case 0x60 =>
    case 0x61 =>
    case 0x62 =>
    case 0x63 =>
    case 0x64 =>
    case 0x65 =>
    case 0x66 =>
    case 0x67 =>
    case 0x68 =>
    case 0x69 =>
    case 0x6A =>
    case 0x6B =>
    case 0x6C =>
    case 0x6D =>
    case 0x6E =>
    case 0x6F =>
    case 0x70 =>
    case 0x71 =>
    case 0x72 =>
    case 0x73 =>
    case 0x74 =>
    case 0x75 =>
    case 0x76 =>
    case 0x77 =>
    case 0x78 =>
    case 0x79 =>
    case 0x7A =>
    case 0x7B =>
    case 0x7C =>
    case 0x7D =>
    case 0x7E =>
    case 0x7F =>
    case 0x80 =>
    case 0x81 =>
    case 0x82 =>
    case 0x83 =>
    case 0x84 =>
    case 0x85 =>
    case 0x86 =>
    case 0x87 =>
    case 0x90 =>
    case 0x91 =>
    case 0xA0 =>
    case 0xA1 =>
    case 0xA2 =>
    case 0xA3 =>
    case 0xA4 =>
    case 0xA5 =>
    case _ =>
  }

  /** The mapping is one-to-one on the codes it maps. */
  lemma MappingInjective(c1: nat, c2: nat)
    requires MapVirtualKey(c1) != Key_None
    ensures MapVirtualKey(c1) == MapVirtualKey(c2) ==> c1 == c2
  {
    MapVirtualKeyIdentity(c1);
    MapVirtualKeyIdentity(c2);
  }

  // -------------------------------------------------------------------
  // The event record (final_platform_layer.hpp:1280-1480).

  /** WindowEventType: Resized = 1, GotFocus = 2, LostFocus = 3. */
  datatype WindowEventType = Resized | GotFocus | LostFocus

  /** KeyboardEventType: KeyDown = 1, KeyUp = 2, Char = 3. */
  datatype KeyboardEventType = KeyDown | KeyUp | Char

  /** KeyboardModifierFlags: Alt = 1 << 0, Ctrl = 1 << 1, Shift = 1 << 2, Super = 1 << 3. */
  const MOD_ALT: Bit := 0
  const MOD_CTRL: Bit := 1
  const MOD_SHIFT: Bit := 2
  const MOD_SUPER: Bit := 3

  /** MouseEventType: Move = 1, ButtonDown, ButtonUp, Wheel. */
  datatype MouseEventType = Move | ButtonDown | ButtonUp | Wheel

  /** MouseButtonType: None = -1, Left = 0, Right = 1, Middle = 2. */
  datatype MouseButtonType = NoMouseButton | LeftButton | RightButton | MiddleButton

  /** GamepadEventType: None, Connected, Disconnected, StateChanged. */
  datatype GamepadEventType = NoGamepadEvent | Connected | Disconnected | StateChanged

  /**
   * The fourteen digital buttons of a GamepadState, in the order of its
   * button array: dpad up, right, down, left, A, B, X, Y, start, back,
   * left thumb, right thumb, left shoulder, right shoulder.
   */
  const GAMEPAD_BUTTON_COUNT := 14
  type Buttons = b: seq<bool> | |b| == GAMEPAD_BUTTON_COUNT
    witness [false, false, false, false, false, false, false, false, false, false, false, false, false, false]

  const DPAD_UP := 0
  const DPAD_RIGHT := 1
  const DPAD_DOWN := 2
  const DPAD_LEFT := 3
  const ACTION_A := 4
  const ACTION_B := 5
  const ACTION_X := 6
  const ACTION_Y := 7
  const START := 8
  const BACK := 9
  const LEFT_THUMB := 10
  const RIGHT_THUMB := 11
  const LEFT_SHOULDER := 12
  const RIGHT_SHOULDER := 13

  const NO_BUTTONS: Buttons :=
    [false, false, false, false, false, false, false, false, false, false, false, false, false, false]

  /**
   * Event: the type tag selects which payload is meaningful. `Zeroed` stands
   * for an event slot that was never written (zero-filled memory, tag 0).
   */
  datatype Event =
    | Zeroed
    | WindowEvent(windowType: WindowEventType, width: nat, height: nat)
    | KeyboardEvent(keyboardType: KeyboardEventType, keyCode: nat, mappedKey: Key, modifiers: Flags)
    | MouseEvent(mouseType: MouseEventType, mouseButton: MouseButtonType, mouseX: int, mouseY: int)
    | GamepadEvent(gamepadType: GamepadEventType, deviceIndex: nat, buttons: Buttons)
}
