/**
 * The emulated Win32 message queue (the process-wide std::deque<MSG>) and the
 * three entry points that touch it: PostMessageA, PeekMessageA and
 * TranslateMessage.
 */
module MessageQueue {
  import opened Wrappers
  import opened Win32
  import opened Sdl
  import opened KeyCodes
  import opened EventPump
  import opened CharTranslation

  /** The caller's MSG that PeekMessageA fills in field by field (lpMsg). */
  class MsgRecord {
    var hwnd: nat
    var message: nat
    var wParam: nat
    var lParam: nat

    constructor ()
      ensures Value() == Msg(0, 0, 0, 0)
    {
      hwnd, message, wParam, lParam := 0, 0, 0, 0;
    }

    function Value(): Msg
      reads this
    {
      Msg(hwnd, message, wParam, lParam)
    }
  }

  /**
   * What lpMsg holds after PeekMessageA polled the host with an empty queue:
   * untouched when no event was pending; the event's message when it has one;
   * otherwise hwnd, wParam and lParam cleared and the old message code kept,
   * since the pump clears those three fields before it classifies the event.
   */
  function PolledRecord(prev: Msg, pending: Option<Event>, modState: Uint16): (r: Msg)
    ensures pending.None? ==> r == prev
    ensures pending.Some? && !Swallowed(pending.value) ==> r == Classify(pending.value, modState).value
    ensures pending.Some? && Swallowed(pending.value) ==>
      r.hwnd == 0 && r.wParam == 0 && r.lParam == 0 && r.message == prev.message
  {
    match pending
    case None => prev
    case Some(e) =>
      match Classify(e, modState)
      case Some(m) => m
      case None => Msg(0, prev.message, 0, 0)
  }

  /**
   * The WM_CHAR messages TranslateMessage posts for m: one 7-bit character for
   * a WM_KEYDOWN of a control, letter, digit or OEM key, none otherwise.
   */
  function CharMessages(m: Msg): (r: seq<Msg>)
    ensures |r| <= 1
    ensures CharFor(m) != Unimplemented ==>
      (r != [] <==> m.message == WM_KEYDOWN &&
                    var key := KeyOf(m.wParam);
                    IsControl(key) || IsAlpha(key) || IsNumeric(key) || IsOem(key))
    ensures r != [] ==> r[0].hwnd == 0 && r[0].message == WM_CHAR && r[0].lParam == 0 && 0 < r[0].wParam < 0x80
  {
    match CharFor(m)
    case Char(c) => [Msg(0, WM_CHAR, c, 0)]
    case _ => []
  }

  class MessageQueue {
    /** The queued messages, front first. */
    var queue: seq<Msg>

    constructor ()
      ensures queue == []
    {
      queue := [];
    }

    /** PostMessageA: append one message at the back. Never fails. */
    method PostMessage(hWnd: nat, message: nat, wParam: nat, lParam: nat) returns (ok: bool)
      requires hWnd == 0
      modifies this
      ensures ok
      ensures queue == old(queue) + [Msg(hWnd, message, wParam, lParam)]
    {
      var msg := Msg(hWnd, message, wParam, lParam);
      queue := queue + [msg];
      ok := true;
    }

    /**
     * PeekMessageA on the desktop build. pending is what SDL_PollEvent would
     * deliver next (None: the host has no event) and modState the host's
     * current modifier state. PM_NOREMOVE only reports whether a message or
     * event is available. PM_REMOVE takes the front of the queue, and only when
     * the queue is empty consumes the pending event and classifies it.
     * Filters, a window handle and other modes are unimplemented in the shim.
     */
    method PeekMessage(lpMsg: MsgRecord, hWnd: nat, filterMin: nat, filterMax: nat, removeMode: nat,
                       pending: Option<Event>, modState: Uint16) returns (avail: bool)
      requires filterMin == 0 && filterMax == 0 && hWnd == 0
      requires removeMode == PM_NOREMOVE || removeMode == PM_REMOVE
      modifies this, lpMsg
      ensures removeMode == PM_NOREMOVE ==>
        avail == (old(queue) != [] || pending.Some?) &&
        queue == old(queue) && lpMsg.Value() == old(lpMsg.Value())
      ensures removeMode == PM_REMOVE && old(queue) != [] ==>
        avail && lpMsg.Value() == old(queue[0]) && queue == old(queue[1..])
      ensures removeMode == PM_REMOVE && old(queue) == [] ==>
        queue == [] &&
        avail == (pending.Some? && Classify(pending.value, modState).Some?) &&
        lpMsg.Value() == PolledRecord(old(lpMsg.Value()), pending, modState)
    {
      if removeMode == PM_NOREMOVE {
        // lpMsg is not filled in: the engine never reads it in this mode.
        return queue != [] || pending.Some?;
      }

      if queue != [] {
        var front := queue[0];
        lpMsg.hwnd, lpMsg.message, lpMsg.wParam, lpMsg.lParam := front.hwnd, front.message, front.wParam, front.lParam;
        queue := queue[1..];
        return true;
      }

      if pending.None? {
        return false;
      }
      avail := FillFromEvent(lpMsg, hWnd, pending.value, modState);
    }

    /**
     * The part of PeekMessageA after SDL_PollEvent delivered e: clear hwnd,
     * wParam and lParam of lpMsg, then fill in the message e yields, or report
     * "no message available" for an event the shim swallows.
     */
    static method FillFromEvent(lpMsg: MsgRecord, hWnd: nat, e: Event, modState: Uint16) returns (avail: bool)
      requires hWnd == 0
      modifies lpMsg
      ensures avail == Classify(e, modState).Some?
      ensures lpMsg.Value() == PolledRecord(old(lpMsg.Value()), Some(e), modState)
    {
      lpMsg.hwnd := hWnd;
      lpMsg.lParam := 0;
      lpMsg.wParam := 0;

      match e {
        case Quit =>
          lpMsg.message := WM_QUIT;
        case KeyDown(sym, mod) =>
          avail := FillKeyMessage(lpMsg, true, sym, mod);
          return;
        case KeyUp(sym, mod) =>
          avail := FillKeyMessage(lpMsg, false, sym, mod);
          return;
        case MouseMotion(x, y) =>
          lpMsg.message := WM_MOUSEMOVE;
          lpMsg.lParam := PackCoords(x, y);
          lpMsg.wParam := KeystateForMouse(0, modState);
        case MouseButtonDown(button, x, y) =>
          avail := FillMouseButtonMessage(lpMsg, true, button, x, y, modState);
          return;
        case MouseButtonUp(button, x, y) =>
          avail := FillMouseButtonMessage(lpMsg, false, button, x, y, modState);
          return;
        case WindowEvent(id) =>
          if id == SDL_WINDOWEVENT_CLOSE {
            lpMsg.message := WM_QUERYENDSESSION;
          } else {
            return false;
          }
        case _ =>
          // text input, device hotplug, keymap change and unknown event types
          return false;
      }
      return true;
    }


    /**
     * The SDL_KEYDOWN / SDL_KEYUP case: the virtual-key code in wParam and the
     * modifier mask in the high half of lParam, or "no message" for an
     * unknown key (wParam and lParam stay cleared).
     */
    static method FillKeyMessage(lpMsg: MsgRecord, down: bool, sym: int, mod: Uint16) returns (avail: bool)
      requires lpMsg.hwnd == 0 && lpMsg.wParam == 0 && lpMsg.lParam == 0
      modifies lpMsg
      ensures var r := Classify(if down then KeyDown(sym, mod) else KeyUp(sym, mod), 0);
        avail == r.Some? &&
        lpMsg.Value() == if avail then r.value else old(lpMsg.Value())
    {
      var key := TranslateSdlKey(sym);
      if key == -1 {
        return false;
      }
      lpMsg.message := if down then WM_KEYDOWN else WM_KEYUP;
      lpMsg.wParam := key;
      // The modifiers ride in lParam for TranslateMessage to read back.
      lpMsg.lParam := KeyLParam(mod);
      return true;
    }

    /**
     * The SDL_MOUSEBUTTONDOWN / SDL_MOUSEBUTTONUP case: left and right buttons
     * give their message with packed coordinates and mouse-key flags; other
     * buttons give "no message".
     */
    static method FillMouseButtonMessage(lpMsg: MsgRecord, down: bool, button: int, x: int, y: int, modState: Uint16)
      returns (avail: bool)
      requires lpMsg.hwnd == 0 && lpMsg.wParam == 0 && lpMsg.lParam == 0
      modifies lpMsg
      ensures var r := MouseButtonMessage(down, button, x, y, modState);
        avail == r.Some? &&
        lpMsg.Value() == if avail then r.value else old(lpMsg.Value())
    {
      if button == SDL_BUTTON_LEFT {
        lpMsg.message := if down then WM_LBUTTONDOWN else WM_LBUTTONUP;
        lpMsg.lParam := PackCoords(x, y);
        lpMsg.wParam := KeystateForMouse(if down then MK_LBUTTON else 0, modState);
      } else if button == SDL_BUTTON_RIGHT {
        lpMsg.message := if down then WM_RBUTTONDOWN else WM_RBUTTONUP;
        lpMsg.lParam := PackCoords(x, y);
        lpMsg.wParam := KeystateForMouse(if down then MK_RBUTTON else 0, modState);
      } else {
        return false;
      }
      return true;
    }

    /**
     * TranslateMessage: for a WM_KEYDOWN of a control, letter, digit or OEM
     * key, post the WM_CHAR of its US-layout character behind everything
     * already queued. The shim asserts a NULL window and faults on an OEM code
     * it has no character for.
     */
    method TranslateMessage(m: Msg) returns (ok: bool)
      requires m.hwnd == 0
      requires CharFor(m) != Unimplemented
      modifies this
      ensures ok
      ensures queue == old(queue) + CharMessages(m)
    {
      if m.message == WM_KEYDOWN {
        var key := KeyOf(m.wParam);
        var mod := ModOf(m.lParam);

        var shift := ShiftIn(mod);
        var upper := UpperOf(mod);

        var isAlpha := IsAlpha(key);
        var isNumeric := IsNumeric(key);
        var isControl := IsControl(key);
        var isOem := IsOem(key);

        if isControl || isAlpha || isNumeric || isOem {
          if !upper && isAlpha {
            key := key + ('a' as int - 'A' as int);
          } else if shift && isNumeric {
            key := if key == '0' as int then ')' as int else key - 0x10;
          } else if isOem {
            match OemChar(key, shift) {
              case Some(c) => key := c;
              case None => assert false;
            }
          }
          var _ := PostMessage(m.hwnd, WM_CHAR, key, 0);
        }
      }
      ok := true;
    }
  }

  /** The queue after posting each of ms in turn. */
  function PostAll(q: seq<Msg>, ms: seq<Msg>): (r: seq<Msg>)
    ensures |r| == |q| + |ms|
    decreases |ms|
  {
    if ms == [] then q else PostAll(q + [ms[0]], ms[1..])
  }

  /**
   * The messages n removing peeks return from q, front first, and the queue
   * left behind.
   */
  function TakeN(q: seq<Msg>, n: nat): (r: (seq<Msg>, seq<Msg>))
    requires n <= |q|
    ensures |r.0| == n && r.0 + r.1 == q
  {
    if n == 0 then ([], q)
    else
      var (taken, rest) := TakeN(q[1..], n - 1);
      ([q[0]] + taken, rest)
  }

  /** Posting appends at the back, in posting order. */
  lemma {:induction false} PostAllAppends(q: seq<Msg>, ms: seq<Msg>)
    ensures PostAll(q, ms) == q + ms
    decreases |ms|
  {
    if ms != [] {
      PostAllAppends(q + [ms[0]], ms[1..]);
      assert q + [ms[0]] + ms[1..] == q + ms;
    }
  }

  /** Removing peeks deliver from the front. */
  lemma {:induction false} TakeNFromFront(q: seq<Msg>, n: nat)
    requires n <= |q|
    ensures TakeN(q, n) == (q[..n], q[n..])
  {
    if n > 0 {
      TakeNFromFront(q[1..], n - 1);
      assert [q[0]] + q[1..][..n - 1] == q[..n];
      assert q[1..][n - 1..] == q[n..];
    }
  }

  /**
   * FIFO: after posting ms behind the messages already queued, removing peeks
   * return the old messages first and then ms in posting order, and leave the
   * queue empty.
   */
  lemma FifoOrder(q: seq<Msg>, ms: seq<Msg>)
    ensures TakeN(PostAll(q, ms), |q| + |ms|) == (q + ms, [])
  {
    var all := q + ms;
    PostAllAppends(q, ms);
    TakeNFromFront(all, |all|);
    assert all[..|all|] == all;
    assert all[|all|..] == [];
  }

  /** A client posting each of ms in turn through PostMessageA. */
  method PostEach(q: MessageQueue, ms: seq<Msg>)
    requires forall i :: 0 <= i < |ms| ==> ms[i].hwnd == 0
    modifies q
    ensures q.queue == PostAll(old(q.queue), ms)
  {
    var i := 0;
    while i < |ms|
      invariant 0 <= i <= |ms|
      invariant q.queue == old(q.queue) + ms[..i]
    {
      var m := ms[i];
      var _ := q.PostMessage(m.hwnd, m.message, m.wParam, m.lParam);
      assert ms[..i + 1] == ms[..i] + [m];
      i := i + 1;
    }
    assert ms[..i] == ms;
    PostAllAppends(old(q.queue), ms);
  }

  /**
   * A client calling PeekMessageA with PM_REMOVE n times while the queue
   * still holds at least n messages, collecting what each call returns.
   */
  method DrainN(q: MessageQueue, lp: MsgRecord, n: nat) returns (taken: seq<Msg>)
    requires n <= |q.queue|
    modifies q, lp
    ensures (taken, q.queue) == TakeN(old(q.queue), n)
  {
    ghost var q0 := q.queue;
    taken := [];
    var i := 0;
    while i < n
      invariant 0 <= i <= n
      invariant taken == q0[..i] && q.queue == q0[i..]
    {
      var got := q.PeekMessage(lp, 0, 0, 0, PM_REMOVE, None, 0);
      assert q0[..i + 1] == q0[..i] + [q0[i]];
      taken := taken + [lp.Value()];
      i := i + 1;
    }
    TakeNFromFront(q0, n);
  }

  /**
   * FIFO through the class: after posting ms behind the queued messages,
   * draining the queue returns the old messages and then ms in posting
   * order, and leaves the queue empty.
   */
  method PostThenDrain(q: MessageQueue, lp: MsgRecord, ms: seq<Msg>) returns (taken: seq<Msg>)
    requires forall i :: 0 <= i < |ms| ==> ms[i].hwnd == 0
    modifies q, lp
    ensures taken == old(q.queue) + ms && q.queue == []
  {
    ghost var q0 := q.queue;
    PostEach(q, ms);
    taken := DrainN(q, lp, |q.queue|);
    FifoOrder(q0, ms);
  }
}
