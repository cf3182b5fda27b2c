/**
 * Key-code translation: SDL keycodes to Win32 virtual-key codes
 * (translate_sdl_key), and the handheld port's controller-button mapping
 * (translate_controller_button_to_key).
 */
module KeyCodes {
  import opened Win32
  import opened Sdl

  /**
   * The virtual-key code of an SDL keycode, or -1 for a key the shim does not
   * know. Named keys are explicit cases; letters, digits and F1..F12 also fall
   * back to range arithmetic. Keypad minus, plus, enter and comma deliberately
   * share the codes of their main-keyboard counterparts.
   */
  function TranslateSdlKey(sym: int): (vk: int)
    ensures vk == -1 || IsVirtualKey(vk)
    ensures vk == -1 <==>
      !IsNamedKeycode(sym) && !IsLetterKeycode(sym) && !IsDigitKeycode(sym) && !IsFunctionKeycode(sym)
    ensures IsLetterKeycode(sym) ==> vk == 'A' as int + (sym - SDLK_a)
    ensures IsDigitKeycode(sym) ==> vk == '0' as int + (sym - SDLK_0)
    ensures IsFunctionKeycode(sym) ==> vk == VK_F1 + (sym - SDLK_F1)
  {
    if sym == SDLK_BACKSPACE then VK_BACK
    else if sym == SDLK_TAB then VK_TAB
    else if sym == SDLK_RETURN then VK_RETURN
    else if sym == SDLK_ESCAPE then VK_ESCAPE
    else if sym == SDLK_SPACE then VK_SPACE
    else if sym == SDLK_QUOTE then VK_OEM_7
    else if sym == SDLK_COMMA then VK_OEM_COMMA
    else if sym == SDLK_MINUS then VK_OEM_MINUS
    else if sym == SDLK_PERIOD then VK_OEM_PERIOD
    else if sym == SDLK_SLASH then VK_OEM_2
    else if sym == SDLK_SEMICOLON then VK_OEM_1
    else if sym == SDLK_EQUALS then VK_OEM_PLUS
    else if sym == SDLK_LEFTBRACKET then VK_OEM_4
    else if sym == SDLK_BACKSLASH then VK_OEM_5
    else if sym == SDLK_RIGHTBRACKET then VK_OEM_6
    else if sym == SDLK_BACKQUOTE then VK_OEM_3
    else if sym == SDLK_DELETE then VK_DELETE
    else if sym == SDLK_CAPSLOCK then VK_CAPITAL
    else if sym == SDLK_F1 then VK_F1
    else if sym == SDLK_F2 then VK_F2
    else if sym == SDLK_F3 then VK_F3
    else if sym == SDLK_F4 then VK_F4
    else if sym == SDLK_F5 then VK_F5
    else if sym == SDLK_F6 then VK_F6
    else if sym == SDLK_F7 then VK_F7
    else if sym == SDLK_F8 then VK_F8
    else if sym == SDLK_F9 then VK_F9
    else if sym == SDLK_F10 then VK_F10
    else if sym == SDLK_F11 then VK_F11
    else if sym == SDLK_F12 then VK_F12
    else if sym == SDLK_PRINTSCREEN then VK_SNAPSHOT
    else if sym == SDLK_SCROLLLOCK then VK_SCROLL
    else if sym == SDLK_PAUSE then VK_PAUSE
    else if sym == SDLK_INSERT then VK_INSERT
    else if sym == SDLK_HOME then VK_HOME
    else if sym == SDLK_PAGEUP then VK_PRIOR
    else if sym == SDLK_END then VK_END
    else if sym == SDLK_PAGEDOWN then VK_NEXT
    else if sym == SDLK_RIGHT then VK_RIGHT
    else if sym == SDLK_LEFT then VK_LEFT
    else if sym == SDLK_DOWN then VK_DOWN
    else if sym == SDLK_UP then VK_UP
    else if sym == SDLK_NUMLOCKCLEAR then VK_NUMLOCK
    else if sym == SDLK_KP_DIVIDE then VK_DIVIDE
    else if sym == SDLK_KP_MULTIPLY then VK_MULTIPLY
    else if sym == SDLK_KP_MINUS then VK_OEM_MINUS
    else if sym == SDLK_KP_PLUS then VK_OEM_PLUS
    else if sym == SDLK_KP_ENTER then VK_RETURN
    else if sym == SDLK_KP_1 then VK_NUMPAD1
    else if sym == SDLK_KP_2 then VK_NUMPAD2
    else if sym == SDLK_KP_3 then VK_NUMPAD3
    else if sym == SDLK_KP_4 then VK_NUMPAD4
    else if sym == SDLK_KP_5 then VK_NUMPAD5
    else if sym == SDLK_KP_6 then VK_NUMPAD6
    else if sym == SDLK_KP_7 then VK_NUMPAD7
    else if sym == SDLK_KP_8 then VK_NUMPAD8
    else if sym == SDLK_KP_9 then VK_NUMPAD9
    else if sym == SDLK_KP_0 then VK_NUMPAD0
    else if sym == SDLK_KP_PERIOD then VK_DECIMAL
    else if sym == SDLK_MENU then VK_MENU
    else if sym == SDLK_KP_COMMA then VK_OEM_COMMA
    else if sym == SDLK_LCTRL then VK_LCONTROL
    else if sym == SDLK_LSHIFT then VK_LSHIFT
    else if sym == SDLK_LALT then VK_LMENU
    else if sym == SDLK_LGUI then VK_LWIN
    else if sym == SDLK_RCTRL then VK_RCONTROL
    else if sym == SDLK_RSHIFT then VK_RSHIFT
    else if sym == SDLK_RALT then VK_RMENU
    else if sym == SDLK_RGUI then VK_RWIN
    else if SDLK_a <= sym <= SDLK_z then 'A' as int + (sym - SDLK_a)
    else if SDLK_0 <= sym <= SDLK_9 then '0' as int + (sym - SDLK_0)
    else if SDLK_F1 <= sym <= SDLK_F12 then VK_F1 + (sym - SDLK_F1)
    else -1  // the shim logs "unknown key" here
  }

  /** The keypad keys that the translator aliases to a main-keyboard key. */
  function MainKeyboardKey(sym: int): int {
    if sym == SDLK_KP_MINUS then SDLK_MINUS
    else if sym == SDLK_KP_PLUS then SDLK_EQUALS
    else if sym == SDLK_KP_ENTER then SDLK_RETURN
    else if sym == SDLK_KP_COMMA then SDLK_COMMA
    else sym
  }

  /**
   * The main-keyboard SDL keycode whose translation is vk, or -1 when no key
   * translates to vk: the inverse of TranslateSdlKey up to the keypad aliases.
   */
  function KeycodeOf(vk: int): int {
    if vk == VK_BACK then SDLK_BACKSPACE
    else if vk == VK_TAB then SDLK_TAB
    else if vk == VK_RETURN then SDLK_RETURN
    else if vk == VK_ESCAPE then SDLK_ESCAPE
    else if vk == VK_SPACE then SDLK_SPACE
    else if vk == VK_OEM_7 then SDLK_QUOTE
    else if vk == VK_OEM_COMMA then SDLK_COMMA
    else if vk == VK_OEM_MINUS then SDLK_MINUS
    else if vk == VK_OEM_PERIOD then SDLK_PERIOD
    else if vk == VK_OEM_2 then SDLK_SLASH
    else if vk == VK_OEM_1 then SDLK_SEMICOLON
    else if vk == VK_OEM_PLUS then SDLK_EQUALS
    else if vk == VK_OEM_4 then SDLK_LEFTBRACKET
    else if vk == VK_OEM_5 then SDLK_BACKSLASH
    else if vk == VK_OEM_6 then SDLK_RIGHTBRACKET
    else if vk == VK_OEM_3 then SDLK_BACKQUOTE
    else if vk == VK_DELETE then SDLK_DELETE
    else if vk == VK_CAPITAL then SDLK_CAPSLOCK
    else if vk == VK_F1 then SDLK_F1
    else if vk == VK_F2 then SDLK_F2
    else if vk == VK_F3 then SDLK_F3
    else if vk == VK_F4 then SDLK_F4
    else if vk == VK_F5 then SDLK_F5
    else if vk == VK_F6 then SDLK_F6
    else if vk == VK_F7 then SDLK_F7
    else if vk == VK_F8 then SDLK_F8
    else if vk == VK_F9 then SDLK_F9
    else if vk == VK_F10 then SDLK_F10
    else if vk == VK_F11 then SDLK_F11
    else if vk == VK_F12 then SDLK_F12
    else if vk == VK_SNAPSHOT then SDLK_PRINTSCREEN
    else if vk == VK_SCROLL then SDLK_SCROLLLOCK
    else if vk == VK_PAUSE then SDLK_PAUSE
    else if vk == VK_INSERT then SDLK_INSERT
    else if vk == VK_HOME then SDLK_HOME
    else if vk == VK_PRIOR then SDLK_PAGEUP
    else if vk == VK_END then SDLK_END
    else if vk == VK_NEXT then SDLK_PAGEDOWN
    else if vk == VK_RIGHT then SDLK_RIGHT
    else if vk == VK_LEFT then SDLK_LEFT
    else if vk == VK_DOWN then SDLK_DOWN
    else if vk == VK_UP then SDLK_UP
    else if vk == VK_NUMLOCK then SDLK_NUMLOCKCLEAR
    else if vk == VK_DIVIDE then SDLK_KP_DIVIDE
    else if vk == VK_MULTIPLY then SDLK_KP_MULTIPLY
    else if vk == VK_NUMPAD1 then SDLK_KP_1
    else if vk == VK_NUMPAD2 then SDLK_KP_2
    else if vk == VK_NUMPAD3 then SDLK_KP_3
    else if vk == VK_NUMPAD4 then SDLK_KP_4
    else if vk == VK_NUMPAD5 then SDLK_KP_5
    else if vk == VK_NUMPAD6 then SDLK_KP_6
    else if vk == VK_NUMPAD7 then SDLK_KP_7
    else if vk == VK_NUMPAD8 then SDLK_KP_8
    else if vk == VK_NUMPAD9 then SDLK_KP_9
    else if vk == VK_NUMPAD0 then SDLK_KP_0
    else if vk == VK_DECIMAL then SDLK_KP_PERIOD
    else if vk == VK_MENU then SDLK_MENU
    else if vk == VK_LCONTROL then SDLK_LCTRL
    else if vk == VK_LSHIFT then SDLK_LSHIFT
    else if vk == VK_LMENU then SDLK_LALT
    else if vk == VK_LWIN then SDLK_LGUI
    else if vk == VK_RCONTROL then SDLK_RCTRL
    else if vk == VK_RSHIFT then SDLK_RSHIFT
    else if vk == VK_RMENU then SDLK_RALT
    else if vk == VK_RWIN then SDLK_RGUI
    else if 'A' as int <= vk <= 'Z' as int then SDLK_a + (vk - 'A' as int)
    else if '0' as int <= vk <= '9' as int then SDLK_0 + (vk - '0' as int)
    else -1
  }

  /** Every recognised key is recovered from its code, up to the keypad aliases. */
  lemma KeycodeOfInvertsTranslation(sym: int)
    requires TranslateSdlKey(sym) != -1
    ensures KeycodeOf(TranslateSdlKey(sym)) == MainKeyboardKey(sym)
  {
  }

  /** Every code KeycodeOf recovers a key for is the translation of that key. */
  lemma TranslationInvertsKeycodeOf(vk: int)
    requires KeycodeOf(vk) != -1
    ensures TranslateSdlKey(KeycodeOf(vk)) == vk
  {
  }

  /**
   * Two keys share a virtual-key code only when they are the same key or a
   * keypad key and its main-keyboard counterpart.
   */
  lemma SharedCodesAreKeypadAliases(s1: int, s2: int)
    requires TranslateSdlKey(s1) != -1 && TranslateSdlKey(s1) == TranslateSdlKey(s2)
    ensures MainKeyboardKey(s1) == MainKeyboardKey(s2)
  {
    KeycodeOfInvertsTranslation(s1);
    KeycodeOfInvertsTranslation(s2);
  }

  /** Keypad minus, plus, enter and comma produce the main-keyboard codes. */
  lemma KeypadAliases()
    ensures TranslateSdlKey(SDLK_KP_MINUS) == TranslateSdlKey(SDLK_MINUS) == VK_OEM_MINUS
    ensures TranslateSdlKey(SDLK_KP_PLUS) == TranslateSdlKey(SDLK_EQUALS) == VK_OEM_PLUS
    ensures TranslateSdlKey(SDLK_KP_ENTER) == TranslateSdlKey(SDLK_RETURN) == VK_RETURN
    ensures TranslateSdlKey(SDLK_KP_COMMA) == TranslateSdlKey(SDLK_COMMA) == VK_OEM_COMMA
  {
  }

  /** The controller's direction pad. */
  predicate IsDirection(button: JoyButton) {
    button.DpadLeft? || button.DpadRight? || button.DpadUp? || button.DpadDown?
  }

  /**
   * The key a controller button stands for. Face buttons, Start and Select are
   * fixed keys. Inside a menu or dialog (inMenu, the game's
   * directionMustBeKeys()) the pad gives arrow keys; in play it gives the
   * movement digits '1'..'4', or '5'..'8' while the left trigger is held.
   * Every other button gives 0.
   */
  function ControllerButtonToKey(button: JoyButton, inMenu: bool, lTriggerPressed: bool): (key: int)
    ensures key == 0 <==> !IsDirection(button) && !button.Circle? && !button.Cross? &&
                          !button.Square? && !button.Triangle? && !button.Start? && !button.Select?
    ensures key != 0 ==> IsVirtualKey(key)
  {
    match button
    case Circle => 'H' as int
    case Cross => VK_SPACE
    case Square => 'X' as int
    case Triangle => 'I' as int
    case Start => VK_ESCAPE
    case Select => VK_TAB
    case _ =>
      if !inMenu then
        if !lTriggerPressed then
          match button
          case DpadLeft => '1' as int
          case DpadRight => '4' as int
          case DpadUp => '2' as int
          case DpadDown => '3' as int
          case _ => 0
        else
          match button
          case DpadLeft => '5' as int
          case DpadRight => '8' as int
          case DpadUp => '6' as int
          case DpadDown => '7' as int
          case _ => 0
      else
        match button
        case DpadLeft => VK_LEFT
        case DpadRight => VK_RIGHT
        case DpadUp => VK_UP
        case DpadDown => VK_DOWN
        case _ => 0
  }

  /** Only the direction pad depends on the menu and trigger state. */
  lemma ControllerContextOnlyAffectsDirections(button: JoyButton, m1: bool, t1: bool, m2: bool, t2: bool)
    requires !IsDirection(button)
    ensures ControllerButtonToKey(button, m1, t1) == ControllerButtonToKey(button, m2, t2)
  {
  }

  /** In a menu the pad gives the arrow key of its own direction. */
  lemma MenuDirectionsAreArrows(t: bool)
    ensures ControllerButtonToKey(DpadLeft, true, t) == VK_LEFT
    ensures ControllerButtonToKey(DpadRight, true, t) == VK_RIGHT
    ensures ControllerButtonToKey(DpadUp, true, t) == VK_UP
    ensures ControllerButtonToKey(DpadDown, true, t) == VK_DOWN
  {
  }

  /**
   * In play the pad gives a movement digit in '1'..'4', the four directions
   * distinct, and holding the left trigger moves each to the digit four higher.
   */
  lemma PlayDirectionsAreDigits(b1: JoyButton, b2: JoyButton)
    requires IsDirection(b1) && IsDirection(b2)
    ensures '1' as int <= ControllerButtonToKey(b1, false, false) <= '4' as int
    ensures ControllerButtonToKey(b1, false, true) == ControllerButtonToKey(b1, false, false) + 4
    ensures ControllerButtonToKey(b1, false, false) == ControllerButtonToKey(b2, false, false) ==> b1 == b2
  {
  }
}
