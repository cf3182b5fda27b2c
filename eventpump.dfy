/**
 * Classification of one host event into at most one Win32 message: the
 * event switch of PeekMessageA on the desktop (non-handheld) build, with its
 * helpers keystate_for_mouse and the lParam packings.
 */
module EventPump {
  import opened Wrappers
  import opened Win32
  import opened Sdl
  import opened KeyCodes

  /**
   * keystate_for_mouse: the mouse-key flags ret, plus MK_SHIFT when the
   * current modifier state modState (SDL_GetModState()) holds a shift key.
   * No other MK_ flag is synthesised.
   */
  function KeystateForMouse(ret: nat, modState: Uint16): (w: nat)
    ensures HasFlag(w, MK_SHIFT) <==> ShiftIn(modState) || HasFlag(ret, MK_SHIFT)
    ensures HasFlag(w, MK_LBUTTON) == HasFlag(ret, MK_LBUTTON)
    ensures HasFlag(w, MK_RBUTTON) == HasFlag(ret, MK_RBUTTON)
    ensures w - w % 8 == ret - ret % 8  // bits 3 and up are those of ret
    ensures !ShiftIn(modState) ==> w == ret
  {
    if ShiftIn(modState) then
      ShiftFlagKeepsButtons(ret);
      WithFlag(ret, MK_SHIFT)
    else ret
  }

  /**
   * Setting MK_SHIFT sets that bit and leaves the two button bits and every
   * bit above it alone.
   */
  lemma ShiftFlagKeepsButtons(w: nat)
    ensures HasFlag(WithFlag(w, MK_SHIFT), MK_SHIFT)
    ensures HasFlag(WithFlag(w, MK_SHIFT), MK_LBUTTON) == HasFlag(w, MK_LBUTTON)
    ensures HasFlag(WithFlag(w, MK_SHIFT), MK_RBUTTON) == HasFlag(w, MK_RBUTTON)
    ensures WithFlag(w, MK_SHIFT) - WithFlag(w, MK_SHIFT) % 8 == w - w % 8
  {
    if !HasFlag(w, MK_SHIFT) {
      // Bit 2 is clear, so adding 4 carries into no higher bit.
      assert (w + 4) % 8 == w % 8 + 4;
      assert (w + 4) % 4 == w % 4;
      assert (w + 4) % 2 == w % 2;
    }
  }

  /**
   * The lParam of a key message, `mod << 16`: the modifier mask rides in the
   * high half, the low half is zero.
   */
  function KeyLParam(mod: Uint16): (l: nat)
    ensures l < 0x1_0000_0000
    ensures l / 0x1_0000 == mod && l % 0x1_0000 == 0
  {
    mod * 0x1_0000
  }

  /**
   * The lParam of a mouse message, `(y << 16) | (x & 0xFFFF)` on the signed
   * coordinates: the low half is the low 16 bits of x, the high half the low
   * 16 bits of y (two's complement, so -1 gives 0xFFFF).
   */
  function PackCoords(x: int, y: int): (l: nat)
    ensures l < 0x1_0000_0000
    ensures l % 0x1_0000 == x % 0x1_0000
    ensures l / 0x1_0000 == y % 0x1_0000
  {
    (y % 0x1_0000) * 0x1_0000 + x % 0x1_0000
  }

  /** A half of lParam read back as a signed 16-bit value (a `short` cast). */
  function SignedHalf(h: nat): (v: int)
    requires h < 0x1_0000
    ensures -0x8000 <= v < 0x8000
    ensures v % 0x1_0000 == h
  {
    if h < 0x8000 then h else h - 0x1_0000
  }

  /**
   * Coordinates that fit a signed 16-bit value come back exactly when the two
   * halves are read as shorts.
   */
  lemma PackCoordsSignedRoundTrip(x: int, y: int)
    requires -0x8000 <= x < 0x8000 && -0x8000 <= y < 0x8000
    ensures SignedHalf(PackCoords(x, y) % 0x1_0000) == x
    ensures SignedHalf(PackCoords(x, y) / 0x1_0000) == y
  {
  }

  /**
   * With x in [0, 2^16) and y in [0, 2^15) the halves are x and y themselves
   * and the packed value is non-negative as a signed 32-bit LPARAM.
   */
  lemma PackCoordsRoundTrip(x: int, y: int)
    requires 0 <= x < 0x1_0000 && 0 <= y < 0x8000
    ensures PackCoords(x, y) % 0x1_0000 == x
    ensures PackCoords(x, y) / 0x1_0000 == y
    ensures PackCoords(x, y) < 0x8000_0000
  {
  }

  /**
   * The message, with all its fields, that a mouse button event yields: for
   * the left and right buttons the press or release message of that button,
   * the packed coordinates, and as wParam the button's own flag on a press
   * plus MK_SHIFT when shift is held; nothing for any other button.
   */
  function MouseButtonMessage(down: bool, button: int, x: int, y: int, modState: Uint16): (r: Option<Msg>)
    ensures r.Some? <==> button == SDL_BUTTON_LEFT || button == SDL_BUTTON_RIGHT
    ensures r.Some? ==>
      r.value.hwnd == 0 && r.value.lParam == PackCoords(x, y) &&
      r.value.message == (if button == SDL_BUTTON_LEFT then (if down then WM_LBUTTONDOWN else WM_LBUTTONUP)
                          else (if down then WM_RBUTTONDOWN else WM_RBUTTONUP)) &&
      r.value.wParam == (if !down then 0 else if button == SDL_BUTTON_LEFT then MK_LBUTTON else MK_RBUTTON) +
                        (if ShiftIn(modState) then MK_SHIFT else 0)
  {
    if button == SDL_BUTTON_LEFT then
      Some(Msg(0, if down then WM_LBUTTONDOWN else WM_LBUTTONUP,
               KeystateForMouse(if down then MK_LBUTTON else 0, modState), PackCoords(x, y)))
    else if button == SDL_BUTTON_RIGHT then
      Some(Msg(0, if down then WM_RBUTTONDOWN else WM_RBUTTONUP,
               KeystateForMouse(if down then MK_RBUTTON else 0, modState), PackCoords(x, y)))
    else None
  }

  /**
   * The events for which the pump reports "no message" although it consumed
   * one: unknown keys, mouse buttons other than left and right, window events
   * other than close, text and device housekeeping, and unknown event types.
   */
  predicate Swallowed(e: Event) {
    match e
    case KeyDown(sym, _) => TranslateSdlKey(sym) == -1
    case KeyUp(sym, _) => TranslateSdlKey(sym) == -1
    case MouseButtonDown(button, _, _) => button != SDL_BUTTON_LEFT && button != SDL_BUTTON_RIGHT
    case MouseButtonUp(button, _, _) => button != SDL_BUTTON_LEFT && button != SDL_BUTTON_RIGHT
    case WindowEvent(id) => id != SDL_WINDOWEVENT_CLOSE
    case Quit => false
    case MouseMotion(_, _) => false
    case _ => true
  }

  /** The message codes the pump can produce. */
  predicate IsPumpMessage(message: nat) {
    message in {WM_QUIT, WM_KEYDOWN, WM_KEYUP, WM_MOUSEMOVE, WM_LBUTTONDOWN,
                WM_LBUTTONUP, WM_RBUTTONDOWN, WM_RBUTTONUP, WM_QUERYENDSESSION}
  }

  /**
   * The message one polled event yields, or None when the pump answers
   * "no message available" for it. modState is the modifier state the mouse
   * cases read through keystate_for_mouse.
   */
  function Classify(e: Event, modState: Uint16): (r: Option<Msg>)
    ensures r.None? <==> Swallowed(e)
    ensures r.Some? ==> r.value.hwnd == 0 && IsPumpMessage(r.value.message)
  {
    match e
    case Quit => Some(Msg(0, WM_QUIT, 0, 0))
    case KeyDown(sym, mod) =>
      var key := TranslateSdlKey(sym);
      if key == -1 then None else Some(Msg(0, WM_KEYDOWN, key, KeyLParam(mod)))
    case KeyUp(sym, mod) =>
      var key := TranslateSdlKey(sym);
      if key == -1 then None else Some(Msg(0, WM_KEYUP, key, KeyLParam(mod)))
    case MouseMotion(x, y) => Some(Msg(0, WM_MOUSEMOVE, KeystateForMouse(0, modState), PackCoords(x, y)))
    case MouseButtonDown(button, x, y) => MouseButtonMessage(true, button, x, y, modState)
    case MouseButtonUp(button, x, y) => MouseButtonMessage(false, button, x, y, modState)
    case WindowEvent(id) =>
      if id == SDL_WINDOWEVENT_CLOSE then Some(Msg(0, WM_QUERYENDSESSION, 0, 0)) else None
    case _ => None
  }

  /**
   * A recognised key event becomes WM_KEYDOWN or WM_KEYUP with the virtual-key
   * code in wParam and the modifier mask recoverable from lParam >> 16.
   */
  lemma KeyEventMessage(sym: int, mod: Uint16, down: bool, modState: Uint16)
    requires TranslateSdlKey(sym) != -1
    ensures var r := Classify(if down then KeyDown(sym, mod) else KeyUp(sym, mod), modState);
      r.Some? && r.value.message == (if down then WM_KEYDOWN else WM_KEYUP) &&
      r.value.wParam == TranslateSdlKey(sym) &&
      r.value.lParam / 0x1_0000 == mod && r.value.lParam % 0x1_0000 == 0
  {
  }

  /** Quitting the application gives WM_QUIT with zero parameters. */
  lemma QuitMessage(modState: Uint16)
    ensures Classify(Quit, modState) == Some(Msg(0, WM_QUIT, 0, 0))
  {
  }

  /** Closing the window gives WM_QUERYENDSESSION with zero parameters. */
  lemma WindowCloseMessage(modState: Uint16)
    ensures Classify(WindowEvent(SDL_WINDOWEVENT_CLOSE), modState) == Some(Msg(0, WM_QUERYENDSESSION, 0, 0))
  {
  }

  /** Mouse motion packs the coordinates into lParam; wParam holds only the shift flag. */
  lemma MouseMotionMessage(x: int, y: int, modState: Uint16)
    ensures var r := Classify(MouseMotion(x, y), modState);
      r.Some? && r.value.hwnd == 0 && r.value.message == WM_MOUSEMOVE &&
      r.value.lParam % 0x1_0000 == x % 0x1_0000 && r.value.lParam / 0x1_0000 == y % 0x1_0000 &&
      r.value.wParam == (if ShiftIn(modState) then MK_SHIFT else 0) &&
      (HasFlag(r.value.wParam, MK_SHIFT) <==> ShiftIn(modState)) &&
      !HasFlag(r.value.wParam, MK_LBUTTON) && !HasFlag(r.value.wParam, MK_RBUTTON)
  {
  }

  /** A left or right button event packs the coordinates into lParam. */
  lemma MouseButtonEventCoords(down: bool, button: int, x: int, y: int, modState: Uint16)
    requires button == SDL_BUTTON_LEFT || button == SDL_BUTTON_RIGHT
    ensures var r := Classify(if down then MouseButtonDown(button, x, y) else MouseButtonUp(button, x, y), modState);
      r.Some? && r.value.lParam == PackCoords(x, y) &&
      r.value.lParam % 0x1_0000 == x % 0x1_0000 && r.value.lParam / 0x1_0000 == y % 0x1_0000
  {
  }

  /**
   * The message of a left or right button event: the press or release message
   * of that button, and as wParam exactly the button's own flag on a press,
   * no button flag on a release, and MK_SHIFT exactly when shift is held.
   */
  lemma MouseButtonEventMessage(down: bool, button: int, x: int, y: int, modState: Uint16)
    requires button == SDL_BUTTON_LEFT || button == SDL_BUTTON_RIGHT
    ensures var r := Classify(if down then MouseButtonDown(button, x, y) else MouseButtonUp(button, x, y), modState);
      r.Some? && r.value.hwnd == 0 &&
      r.value.message == (if button == SDL_BUTTON_LEFT then (if down then WM_LBUTTONDOWN else WM_LBUTTONUP)
                          else (if down then WM_RBUTTONDOWN else WM_RBUTTONUP)) &&
      r.value.wParam == (if !down then 0 else if button == SDL_BUTTON_LEFT then MK_LBUTTON else MK_RBUTTON) +
                        (if ShiftIn(modState) then MK_SHIFT else 0) &&
      (HasFlag(r.value.wParam, MK_SHIFT) <==> ShiftIn(modState)) &&
      (HasFlag(r.value.wParam, MK_LBUTTON) <==> down && button == SDL_BUTTON_LEFT) &&
      (HasFlag(r.value.wParam, MK_RBUTTON) <==> down && button == SDL_BUTTON_RIGHT)
  {
    var ret := if !down then 0 else if button == SDL_BUTTON_LEFT then MK_LBUTTON else MK_RBUTTON;
    assert Classify(if down then MouseButtonDown(button, x, y) else MouseButtonUp(button, x, y), modState).value.wParam
      == KeystateForMouse(ret, modState);
  }
}
