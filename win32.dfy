/**
 * The subset of the Win32 message API that the SDL shim emulates: message
 * codes, mouse-key flags, PeekMessage removal modes, virtual-key codes and the
 * MSG record. The numeric values are those of Microsoft's "Virtual-Key Codes"
 * and WinUser.h tables, which the shim's DVL_-prefixed names mirror.
 */
module Win32 {

  // Message codes (the MSG.message field).
  const WM_QUERYENDSESSION: nat := 0x0011
  const WM_QUIT: nat := 0x0012
  const WM_KEYDOWN: nat := 0x0100
  const WM_KEYUP: nat := 0x0101
  const WM_CHAR: nat := 0x0102
  const WM_MOUSEMOVE: nat := 0x0200
  const WM_LBUTTONDOWN: nat := 0x0201
  const WM_LBUTTONUP: nat := 0x0202
  const WM_RBUTTONDOWN: nat := 0x0204
  const WM_RBUTTONUP: nat := 0x0205

  // Mouse-key flags carried in wParam of mouse messages.
  const MK_LBUTTON: nat := 0x0001
  const MK_RBUTTON: nat := 0x0002
  const MK_SHIFT: nat := 0x0004

  // Removal modes of PeekMessage.
  const PM_NOREMOVE: nat := 0x0000
  const PM_REMOVE: nat := 0x0001

  // Virtual-key codes. Letters and digits have no names: their codes are the
  // ASCII codes of 'A'..'Z' and '0'..'9'.
  const VK_BACK := 0x08
  const VK_TAB := 0x09
  const VK_RETURN := 0x0D
  const VK_MENU := 0x12
  const VK_PAUSE := 0x13
  const VK_CAPITAL := 0x14
  const VK_ESCAPE := 0x1B
  const VK_SPACE := 0x20
  const VK_PRIOR := 0x21
  const VK_NEXT := 0x22
  const VK_END := 0x23
  const VK_HOME := 0x24
  const VK_LEFT := 0x25
  const VK_UP := 0x26
  const VK_RIGHT := 0x27
  const VK_DOWN := 0x28
  const VK_SNAPSHOT := 0x2C
  const VK_INSERT := 0x2D
  const VK_DELETE := 0x2E
  const VK_LWIN := 0x5B
  const VK_RWIN := 0x5C
  const VK_NUMPAD0 := 0x60
  const VK_NUMPAD1 := 0x61
  const VK_NUMPAD2 := 0x62
  const VK_NUMPAD3 := 0x63
  const VK_NUMPAD4 := 0x64
  const VK_NUMPAD5 := 0x65
  const VK_NUMPAD6 := 0x66
  const VK_NUMPAD7 := 0x67
  const VK_NUMPAD8 := 0x68
  const VK_NUMPAD9 := 0x69
  const VK_MULTIPLY := 0x6A
  const VK_ADD := 0x6B
  const VK_SUBTRACT := 0x6D
  const VK_DECIMAL := 0x6E
  const VK_DIVIDE := 0x6F
  const VK_F1 := 0x70
  const VK_F2 := 0x71
  const VK_F3 := 0x72
  const VK_F4 := 0x73
  const VK_F5 := 0x74
  const VK_F6 := 0x75
  const VK_F7 := 0x76
  const VK_F8 := 0x77
  const VK_F9 := 0x78
  const VK_F10 := 0x79
  const VK_F11 := 0x7A
  const VK_F12 := 0x7B
  const VK_NUMLOCK := 0x90
  const VK_SCROLL := 0x91
  const VK_LSHIFT := 0xA0
  const VK_RSHIFT := 0xA1
  const VK_LCONTROL := 0xA2
  const VK_RCONTROL := 0xA3
  const VK_LMENU := 0xA4
  const VK_RMENU := 0xA5
  const VK_OEM_1 := 0xBA
  const VK_OEM_PLUS := 0xBB
  const VK_OEM_COMMA := 0xBC
  const VK_OEM_MINUS := 0xBD
  const VK_OEM_PERIOD := 0xBE
  const VK_OEM_2 := 0xBF
  const VK_OEM_3 := 0xC0
  const VK_OEM_4 := 0xDB
  const VK_OEM_5 := 0xDC
  const VK_OEM_6 := 0xDD
  const VK_OEM_7 := 0xDE

  /** The letter and digit codes: 'A'..'Z' and '0'..'9'. */
  predicate IsLetterOrDigitCode(vk: int) {
    'A' as int <= vk <= 'Z' as int || '0' as int <= vk <= '9' as int
  }

  /** Every virtual-key code this model names, letters and digits included. */
  predicate IsVirtualKey(vk: int) {
    IsLetterOrDigitCode(vk) ||
    vk in {VK_BACK, VK_TAB, VK_RETURN, VK_MENU, VK_PAUSE, VK_CAPITAL, VK_ESCAPE,
           VK_SPACE, VK_PRIOR, VK_NEXT, VK_END, VK_HOME, VK_LEFT, VK_UP, VK_RIGHT,
           VK_DOWN, VK_SNAPSHOT, VK_INSERT, VK_DELETE, VK_LWIN, VK_RWIN,
           VK_NUMPAD0, VK_NUMPAD1, VK_NUMPAD2, VK_NUMPAD3, VK_NUMPAD4, VK_NUMPAD5,
           VK_NUMPAD6, VK_NUMPAD7, VK_NUMPAD8, VK_NUMPAD9, VK_MULTIPLY, VK_ADD,
           VK_SUBTRACT, VK_DECIMAL, VK_DIVIDE, VK_F1, VK_F2, VK_F3, VK_F4, VK_F5,
           VK_F6, VK_F7, VK_F8, VK_F9, VK_F10, VK_F11, VK_F12, VK_NUMLOCK,
           VK_SCROLL, VK_LSHIFT, VK_RSHIFT, VK_LCONTROL, VK_RCONTROL, VK_LMENU,
           VK_RMENU, VK_OEM_1, VK_OEM_PLUS, VK_OEM_COMMA, VK_OEM_MINUS,
           VK_OEM_PERIOD, VK_OEM_2, VK_OEM_3, VK_OEM_4, VK_OEM_5, VK_OEM_6,
           VK_OEM_7}
  }

  /**
   * A Win32 MSG record. hwnd is the window handle (0 is NULL; the shim emulates
   * one implicit window). wParam is an unsigned machine word holding a key code,
   * a character or mouse-key flags. lParam is held as the unsigned value of its
   * low 32 bits, which is all the shim writes into it (a 64-bit LPARAM is their
   * sign extension) and all it reads back ((DWORD)lParam).
   */
  datatype Msg = Msg(hwnd: nat, message: nat, wParam: nat, lParam: nat)

  /** The mouse-key flags the shim produces. */
  predicate IsMouseKeyFlag(flag: nat) {
    flag == MK_LBUTTON || flag == MK_RBUTTON || flag == MK_SHIFT
  }

  /**
   * `(w & flag) != 0` for one of the mouse-key flags, bits 0, 1 and 2: the bit
   * is set when the part of w below the next bit up reaches the flag's value.
   */
  predicate HasFlag(w: nat, flag: nat)
    requires IsMouseKeyFlag(flag)
  {
    if flag == MK_LBUTTON then w % 2 >= 1
    else if flag == MK_RBUTTON then w % 4 >= 2
    else w % 8 >= 4
  }

  /** `w | flag` for one of the mouse-key flags. */
  function WithFlag(w: nat, flag: nat): nat
    requires IsMouseKeyFlag(flag)
  {
    if HasFlag(w, flag) then w else w + flag
  }
}
