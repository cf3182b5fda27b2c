/**
 * The pump, the character translator and the queue together: what a client
 * loop of PeekMessageA / TranslateMessage observes.
 */
module Scenarios {
  import opened Wrappers
  import opened Win32
  import opened Sdl
  import opened KeyCodes
  import opened EventPump
  import opened CharTranslation
  import opened MessageQueue

  /**
   * The modifier side channel is lossless: the character TranslateMessage
   * computes from a key-down message is the one for the event's own virtual-key
   * code and modifier mask.
   */
  lemma KeyDownCharacter(sym: int, mod: Uint16, modState: Uint16)
    requires TranslateSdlKey(sym) != -1
    ensures CharFor(Classify(KeyDown(sym, mod), modState).value) ==
            TranslateKey(TranslateSdlKey(sym), mod)
  {
    var vk := TranslateSdlKey(sym);
    assert 0 <= vk < 0x100;
    assert KeyOf(vk) == vk;
  }

  /**
   * The modifier mask the pump stores in a key message's lParam is the one
   * TranslateMessage reads back.
   */
  lemma ModifierSideChannel(mod: Uint16)
    ensures ModOf(KeyLParam(mod)) == mod
  {
  }

  /**
   * Every key-down the pump produces is one TranslateMessage can handle: the
   * pump only yields virtual-key codes, and none of them is an OEM code in
   * VK_OEM_1..VK_OEM_7 without a character, so the UNIMPLEMENTED fault is
   * unreachable from pumped messages.
   */
  lemma PumpedKeysNeverFault(sym: int, mod: Uint16, modState: Uint16)
    requires TranslateSdlKey(sym) != -1
    ensures CharFor(Classify(KeyDown(sym, mod), modState).value) != Unimplemented
  {
    KeyDownCharacter(sym, mod, modState);
  }

  /** Key-up messages never produce a character. */
  lemma KeyUpHasNoCharacter(sym: int, mod: Uint16, modState: Uint16)
    requires TranslateSdlKey(sym) != -1
    ensures CharFor(Classify(KeyUp(sym, mod), modState).value) == NoChar
  {
  }

  /**
   * The keys whose SDL keycode is a printable or control ASCII character the
   * translator handles: letters, digits, punctuation, space, backspace, tab,
   * return and escape.
   */
  predicate IsTypedAscii(sym: int) {
    IsLetterKeycode(sym) || IsDigitKeycode(sym) ||
    sym in {SDLK_BACKSPACE, SDLK_TAB, SDLK_RETURN, SDLK_ESCAPE, SDLK_SPACE, SDLK_QUOTE,
            SDLK_COMMA, SDLK_MINUS, SDLK_PERIOD, SDLK_SLASH, SDLK_SEMICOLON, SDLK_EQUALS,
            SDLK_LEFTBRACKET, SDLK_BACKSLASH, SDLK_RIGHTBRACKET, SDLK_BACKQUOTE}
  }

  /**
   * Round trip through the whole pipeline: typing such a key with no modifier
   * yields, as WM_CHAR, the very character SDL reported as the keycode.
   */
  lemma UnmodifiedTypingEchoesKeycode(sym: int, modState: Uint16)
    requires IsTypedAscii(sym)
    ensures TranslateSdlKey(sym) != -1
    ensures CharFor(Classify(KeyDown(sym, 0), modState).value) == Char(sym)
  {
    KeyDownCharacter(sym, 0, modState);
  }

  /** With caps lock on and no shift, letters come out upper-case. */
  lemma CapsLockTypingUppercase(sym: int, modState: Uint16)
    requires IsLetterKeycode(sym)
    ensures CharFor(Classify(KeyDown(sym, KMOD_CAPS), modState).value) ==
            Char(sym - SDLK_a + 'A' as int)
  {
    KeyDownCharacter(sym, KMOD_CAPS, modState);
    LetterCase(TranslateSdlKey(sym), KMOD_CAPS);
  }

  /**
   * With shift and caps lock both on, letters still come out upper-case: the
   * shim's "upper" test is an or, not an exclusive or.
   */
  lemma ShiftAndCapsTypingUppercase(sym: int, modState: Uint16)
    requires IsLetterKeycode(sym)
    ensures CharFor(Classify(KeyDown(sym, KMOD_LSHIFT + KMOD_CAPS), modState).value) ==
            Char(sym - SDLK_a + 'A' as int)
  {
    KeyDownCharacter(sym, KMOD_LSHIFT + KMOD_CAPS, modState);
    LetterCase(TranslateSdlKey(sym), KMOD_LSHIFT + KMOD_CAPS);
  }

  /** Three posts then three removing peeks return the three messages in order. */
  method PostThreeTakeThree(m1: Msg, m2: Msg, m3: Msg) returns (r1: Msg, r2: Msg, r3: Msg, left: seq<Msg>)
    requires m1.hwnd == 0 && m2.hwnd == 0 && m3.hwnd == 0
    ensures r1 == m1 && r2 == m2 && r3 == m3 && left == []
  {
    var q := new MessageQueue();
    var lp := new MsgRecord();
    var _ := q.PostMessage(m1.hwnd, m1.message, m1.wParam, m1.lParam);
    var _ := q.PostMessage(m2.hwnd, m2.message, m2.wParam, m2.lParam);
    var _ := q.PostMessage(m3.hwnd, m3.message, m3.wParam, m3.lParam);
    var a1 := q.PeekMessage(lp, 0, 0, 0, PM_REMOVE, None, 0);
    r1 := lp.Value();
    var a2 := q.PeekMessage(lp, 0, 0, 0, PM_REMOVE, None, 0);
    r2 := lp.Value();
    var a3 := q.PeekMessage(lp, 0, 0, 0, PM_REMOVE, None, 0);
    r3 := lp.Value();
    left := q.queue;
  }

  /**
   * A queued message is delivered before the host is polled, and a peek
   * without removal leaves it in place.
   */
  method QueueBeforeHost(m: Msg, e: Event) returns (peeked: bool, first: Msg, left: seq<Msg>)
    requires m.hwnd == 0
    ensures peeked && first == m && left == []
  {
    var q := new MessageQueue();
    var lp := new MsgRecord();
    var _ := q.PostMessage(m.hwnd, m.message, m.wParam, m.lParam);
    peeked := q.PeekMessage(lp, 0, 0, 0, PM_NOREMOVE, Some(e), 0);
    var got := q.PeekMessage(lp, 0, 0, 0, PM_REMOVE, Some(e), 0);
    first := lp.Value();
    left := q.queue;
  }

  /**
   * Key 'a' pressed with no modifier: the pump returns WM_KEYDOWN for 'A';
   * TranslateMessage queues WM_CHAR 'a', which the next peek returns.
   */
  method TypeLetterA() returns (down: Msg, ch: Msg)
    ensures down == Msg(0, WM_KEYDOWN, 'A' as int, 0)
    ensures ch == Msg(0, WM_CHAR, 'a' as int, 0)
  {
    var q := new MessageQueue();
    var lp := new MsgRecord();
    var got := q.PeekMessage(lp, 0, 0, 0, PM_REMOVE, Some(KeyDown(SDLK_a, 0)), 0);
    down := lp.Value();
    var ok := q.TranslateMessage(down);
    got := q.PeekMessage(lp, 0, 0, 0, PM_REMOVE, None, 0);
    ch := lp.Value();
  }

  /** Key '9' pressed with left shift gives WM_CHAR ')' through the 0x10 offset. */
  method TypeShiftedNine() returns (ch: Msg)
    ensures ch == Msg(0, WM_CHAR, ')' as int, 0)
  {
    var q := new MessageQueue();
    var lp := new MsgRecord();
    var got := q.PeekMessage(lp, 0, 0, 0, PM_REMOVE, Some(KeyDown(SDLK_9, KMOD_LSHIFT)), 0);
    var down := lp.Value();
    assert ModOf(down.lParam) == KMOD_LSHIFT;
    var ok := q.TranslateMessage(down);
    got := q.PeekMessage(lp, 0, 0, 0, PM_REMOVE, None, 0);
    ch := lp.Value();
  }

  /** Left button pressed at (100, 50), no shift: lParam (50 << 16) | 100, wParam MK_LBUTTON. */
  method LeftClick() returns (avail: bool, m: Msg)
    ensures avail && m == Msg(0, WM_LBUTTONDOWN, MK_LBUTTON, 50 * 0x1_0000 + 100)
  {
    var q := new MessageQueue();
    var lp := new MsgRecord();
    avail := q.PeekMessage(lp, 0, 0, 0, PM_REMOVE, Some(MouseButtonDown(SDL_BUTTON_LEFT, 100, 50)), 0);
    m := lp.Value();
  }

  /** Closing the window asks to end the session. */
  method CloseWindow() returns (avail: bool, m: Msg)
    ensures avail && m == Msg(0, WM_QUERYENDSESSION, 0, 0)
  {
    var q := new MessageQueue();
    var lp := new MsgRecord();
    avail := q.PeekMessage(lp, 0, 0, 0, PM_REMOVE, Some(WindowEvent(SDL_WINDOWEVENT_CLOSE)), 0);
    m := lp.Value();
  }

  /** A middle-button press is consumed without a message. */
  method MiddleClickSwallowed() returns (avail: bool, left: seq<Msg>)
    ensures !avail && left == []
  {
    var q := new MessageQueue();
    var lp := new MsgRecord();
    avail := q.PeekMessage(lp, 0, 0, 0, PM_REMOVE, Some(MouseButtonDown(SDL_BUTTON_MIDDLE, 1, 2)), 0);
    left := q.queue;
  }
}
