/**
 * The SDL 2 vocabulary the message pump consumes: keycodes (SDL_Keycode values),
 * modifier bits (SDL_Keymod), mouse-button ids, and the host event as a tagged
 * union. Keycodes of printable keys are their ASCII codes; the others are
 * SDL scancodes with bit 30 (SDLK_SCANCODE_MASK) set.
 */
module Sdl {

  const SDLK_BACKSPACE := 0x08
  const SDLK_TAB := 0x09
  const SDLK_RETURN := 0x0D
  const SDLK_ESCAPE := 0x1B
  const SDLK_SPACE := 0x20
  const SDLK_QUOTE := 0x27
  const SDLK_COMMA := 0x2C
  const SDLK_MINUS := 0x2D
  const SDLK_PERIOD := 0x2E
  const SDLK_SLASH := 0x2F
  const SDLK_0 := 0x30
  const SDLK_9 := 0x39
  const SDLK_SEMICOLON := 0x3B
  const SDLK_EQUALS := 0x3D
  const SDLK_LEFTBRACKET := 0x5B
  const SDLK_BACKSLASH := 0x5C
  const SDLK_RIGHTBRACKET := 0x5D
  const SDLK_BACKQUOTE := 0x60
  const SDLK_a := 0x61
  const SDLK_z := 0x7A
  const SDLK_DELETE := 0x7F

  const SDLK_CAPSLOCK := 0x4000_0039
  const SDLK_F1 := 0x4000_003A
  const SDLK_F2 := 0x4000_003B
  const SDLK_F3 := 0x4000_003C
  const SDLK_F4 := 0x4000_003D
  const SDLK_F5 := 0x4000_003E
  const SDLK_F6 := 0x4000_003F
  const SDLK_F7 := 0x4000_0040
  const SDLK_F8 := 0x4000_0041
  const SDLK_F9 := 0x4000_0042
  const SDLK_F10 := 0x4000_0043
  const SDLK_F11 := 0x4000_0044
  const SDLK_F12 := 0x4000_0045
  const SDLK_PRINTSCREEN := 0x4000_0046
  const SDLK_SCROLLLOCK := 0x4000_0047
  const SDLK_PAUSE := 0x4000_0048
  const SDLK_INSERT := 0x4000_0049
  const SDLK_HOME := 0x4000_004A
  const SDLK_PAGEUP := 0x4000_004B
  const SDLK_END := 0x4000_004D
  const SDLK_PAGEDOWN := 0x4000_004E
  const SDLK_RIGHT := 0x4000_004F
  const SDLK_LEFT := 0x4000_0050
  const SDLK_DOWN := 0x4000_0051
  const SDLK_UP := 0x4000_0052
  const SDLK_NUMLOCKCLEAR := 0x4000_0053
  const SDLK_KP_DIVIDE := 0x4000_0054
  const SDLK_KP_MULTIPLY := 0x4000_0055
  const SDLK_KP_MINUS := 0x4000_0056
  const SDLK_KP_PLUS := 0x4000_0057
  const SDLK_KP_ENTER := 0x4000_0058
  const SDLK_KP_1 := 0x4000_0059
  const SDLK_KP_2 := 0x4000_005A
  const SDLK_KP_3 := 0x4000_005B
  const SDLK_KP_4 := 0x4000_005C
  const SDLK_KP_5 := 0x4000_005D
  const SDLK_KP_6 := 0x4000_005E
  const SDLK_KP_7 := 0x4000_005F
  const SDLK_KP_8 := 0x4000_0060
  const SDLK_KP_9 := 0x4000_0061
  const SDLK_KP_0 := 0x4000_0062
  const SDLK_KP_PERIOD := 0x4000_0063
  const SDLK_MENU := 0x4000_0076
  const SDLK_KP_COMMA := 0x4000_0085
  const SDLK_LCTRL := 0x4000_00E0
  const SDLK_LSHIFT := 0x4000_00E1
  const SDLK_LALT := 0x4000_00E2
  const SDLK_LGUI := 0x4000_00E3
  const SDLK_RCTRL := 0x4000_00E4
  const SDLK_RSHIFT := 0x4000_00E5
  const SDLK_RALT := 0x4000_00E6
  const SDLK_RGUI := 0x4000_00E7

  /** The keycodes the translator names one by one (its explicit cases). */
  predicate IsNamedKeycode(sym: int) {
    sym in {SDLK_BACKSPACE, SDLK_TAB, SDLK_RETURN, SDLK_ESCAPE, SDLK_SPACE,
            SDLK_QUOTE, SDLK_COMMA, SDLK_MINUS, SDLK_PERIOD, SDLK_SLASH,
            SDLK_SEMICOLON, SDLK_EQUALS, SDLK_LEFTBRACKET, SDLK_BACKSLASH,
            SDLK_RIGHTBRACKET, SDLK_BACKQUOTE, SDLK_DELETE, SDLK_CAPSLOCK,
            SDLK_F1, SDLK_F2, SDLK_F3, SDLK_F4, SDLK_F5, SDLK_F6, SDLK_F7,
            SDLK_F8, SDLK_F9, SDLK_F10, SDLK_F11, SDLK_F12, SDLK_PRINTSCREEN,
            SDLK_SCROLLLOCK, SDLK_PAUSE, SDLK_INSERT, SDLK_HOME, SDLK_PAGEUP,
            SDLK_END, SDLK_PAGEDOWN, SDLK_RIGHT, SDLK_LEFT, SDLK_DOWN, SDLK_UP,
            SDLK_NUMLOCKCLEAR, SDLK_KP_DIVIDE, SDLK_KP_MULTIPLY, SDLK_KP_MINUS,
            SDLK_KP_PLUS, SDLK_KP_ENTER, SDLK_KP_1, SDLK_KP_2, SDLK_KP_3,
            SDLK_KP_4, SDLK_KP_5, SDLK_KP_6, SDLK_KP_7, SDLK_KP_8, SDLK_KP_9,
            SDLK_KP_0, SDLK_KP_PERIOD, SDLK_MENU, SDLK_KP_COMMA, SDLK_LCTRL,
            SDLK_LSHIFT, SDLK_LALT, SDLK_LGUI, SDLK_RCTRL, SDLK_RSHIFT,
            SDLK_RALT, SDLK_RGUI}
  }

  predicate IsLetterKeycode(sym: int) { SDLK_a <= sym <= SDLK_z }
  predicate IsDigitKeycode(sym: int) { SDLK_0 <= sym <= SDLK_9 }
  predicate IsFunctionKeycode(sym: int) { SDLK_F1 <= sym <= SDLK_F12 }

  /** SDL's Uint16, the type of a modifier mask. */
  type Uint16 = x: int | 0 <= x < 0x1_0000

  // Modifier bits of SDL_Keymod. KMOD_SHIFT is the two shift bits together.
  const KMOD_LSHIFT: nat := 0x0001
  const KMOD_RSHIFT: nat := 0x0002
  const KMOD_SHIFT: nat := 0x0003
  const KMOD_CAPS: nat := 0x2000

  /** `(mod & KMOD_SHIFT) != 0`: one of the two low bits is set, either shift key is held. */
  predicate ShiftIn(mod: nat) {
    mod % 4 != 0
  }

  /** `(mod & KMOD_CAPS) != 0`: bit 13 is set, caps lock is on. */
  predicate CapsIn(mod: nat) {
    mod % 0x4000 >= 0x2000
  }

  // Mouse-button ids of SDL_MouseButtonEvent.button.
  const SDL_BUTTON_LEFT := 1
  const SDL_BUTTON_MIDDLE := 2
  const SDL_BUTTON_RIGHT := 3

  // SDL_WindowEventID of a request to close the window.
  const SDL_WINDOWEVENT_CLOSE := 14

  /**
   * One host event, as SDL_PollEvent delivers it. Keyboard events carry the
   * keycode and the 16-bit modifier mask; mouse coordinates are SDL's signed
   * Sint32 values. The kinds the pump swallows are named; any other event type
   * is Other.
   */
  datatype Event =
    | Quit
    | KeyDown(sym: int, mod: Uint16)
    | KeyUp(sym: int, mod: Uint16)
    | MouseMotion(x: int, y: int)
    | MouseButtonDown(button: int, x: int, y: int)
    | MouseButtonUp(button: int, x: int, y: int)
    | WindowEvent(windowEvent: int)
    | TextEditing
    | TextInput
    | AudioDeviceAdded
    | AudioDeviceRemoved
    | KeymapChanged
    | Other(eventType: int)

  /** The game-controller buttons of the handheld port (SDL_JOYBUTTON_*). */
  datatype JoyButton =
    | Circle
    | Cross      // SDL_JOYBUTTON_X
    | Square
    | Triangle
    | Start
    | Select
    | DpadLeft
    | DpadRight
    | DpadUp
    | DpadDown
    | LShoulder  // SDL_JOYBUTTON_L
    | RShoulder  // SDL_JOYBUTTON_R
    | OtherButton(id: nat)
}
