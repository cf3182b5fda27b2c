# Win32 message emulation of devilutionX's SDL shim

devilutionX runs the original Diablo engine on SDL. The engine was written
against the Win32 message API. `SourceX/miniwin/misc_msg.cpp` emulates the
part of that API the engine uses:

- a process-wide queue of `MSG` records;
- `PostMessageA`, which appends to the queue;
- `PeekMessageA`, which drains the queue first and otherwise polls one SDL
  event and turns it into at most one message;
- `TranslateMessage`, which turns a key-down message into a `WM_CHAR`
  character message for a US keyboard layout.

Supporting these are:

- `translate_sdl_key`, a table from SDL keycodes to Windows virtual-key
  codes;
- `keystate_for_mouse`, which adds the shift flag to a mouse message's
  key-state word;
- `translate_controller_button_to_key`, the handheld port's controller-button
  table.

This project models the desktop SDL 2 build of that file. It does not model
the SDL 1 build or the handheld build.

The modules follow the file's parts:

- `Win32` holds the message, flag and virtual-key constants and the `MSG`
  record.
- `Sdl` holds the SDL keycodes, modifier bits and the host event.
- `KeyCodes` holds the two key tables.
- `EventPump` holds the classification of one polled event.
- `CharTranslation` holds the character rules.
- `MessageQueue` holds the queue as a class with its three entry points, and
  the caller's `MSG` as a class whose fields `PeekMessage` fills in one by one.
- `Scenarios` composes them: queue order, typing, clicking and closing the
  window.

Modelling choices:

- **Constants.** The numeric constants are the published values. Keycodes and
  modifier bits come from SDL 2's `SDL_keycode.h`. Printable keys are their
  ASCII codes; the other keys are their scancode with bit 30 set. Virtual-key,
  `WM_`, `MK_` and `PM_` values come from Microsoft's Virtual-Key Codes table
  and `WinUser.h`. The shim's `DVL_`-prefixed names mirror those tables.
- **Integers, not bit-vectors.** `wParam` is an unbounded natural.
  - `lParam` is an unbounded natural too. Every `lParam` the event pump writes
    is a 32-bit value, and `(DWORD)lParam` is all `TranslateMessage` reads
    back. `PostMessageA` stores whatever the caller passes; a negative
    `LPARAM` is outside the model (see "Left out").
  - `x << 16` on a 16-bit field is `x * 0x10000`, and `x & 0xFFFF` is
    `x % 0x10000`. Dafny's `%` is Euclidean, so `-1 % 0x10000 == 0xFFFF`, the
    two's-complement low half.
  - A single-bit test `w & FLAG` is a remainder comparison with a literal
    modulus, for example `w % 8 >= 4` for bit 2.
- **Host inputs are parameters.** The event `SDL_PollEvent` would deliver is
  an `Option<Event>` argument of `PeekMessage`. The modifier state
  `SDL_GetModState` would return is an argument too.
- **Caller faults are preconditions.** The shim calls `UNIMPLEMENTED()` for
  non-zero filters, a non-NULL window and unknown remove modes, and asserts a
  NULL window. These are preconditions of the methods.
  - An OEM key with no character faults inside `TranslateMessage`. The pure
    `TranslateKey` reports that case as the `Unimplemented` outcome, and
    `TranslateMessage` requires that the outcome is not `Unimplemented`.

Two behaviours of the code are kept as written (misc_msg.cpp:629 and :640):

- **Shift and caps lock.** `upper` is computed as `shift != (mod & KMOD_CAPS)`.
  The bool is promoted to 0 or 1 and compared with 0 or 0x2000. So letters are
  upper-case when shift **or** caps lock is on, including both at once. It is
  not an exclusive or. `UpperOf` and `ShiftAndCapsTypingUppercase` state this.
- **Shifted digits.** They are `key - 0x10`: '2' gives '"', '6' gives '&', and
  '9' and '0' both give ')'. `ShiftedDigitRow` spells this out.

## Model

| member | source | states |
|---|---|---|
| KeyCodes.TranslateSdlKey | SourceX/miniwin/misc_msg.cpp:49-212 | The result is -1 exactly when the keycode is none of the listed keys, letters, digits or F1..F12; otherwise it is a virtual-key code. Letters map to 'A' + offset, digits to '0' + offset and F-keys to VK_F1 + offset. |
| KeyCodes.KeycodeOfInvertsTranslation | SourceX/miniwin/misc_msg.cpp:54-200 | Against an independent inverse table: every recognised keycode maps back to its main-keyboard keycode, with the keypad aliases resolved to their main key. |
| KeyCodes.TranslationInvertsKeycodeOf | SourceX/miniwin/misc_msg.cpp:54-210 | Every virtual-key code in the inverse table is produced by translating its keycode, so the table is onto those codes. |
| KeyCodes.SharedCodesAreKeypadAliases | SourceX/miniwin/misc_msg.cpp:145-156 | Two keycodes with the same virtual-key code are the same key or a keypad alias of one main key. These aliases are the only ones. |
| KeyCodes.KeypadAliases | SourceX/miniwin/misc_msg.cpp:145-156 | Keypad minus, plus, enter and comma give the same codes as main-keyboard minus, equals, return and comma. These are VK_OEM_MINUS, VK_OEM_PLUS, VK_RETURN and VK_OEM_COMMA. |
| KeyCodes.ControllerButtonToKey | SourceX/miniwin/misc_msg.cpp:227-280 | The result is 0 exactly for the buttons outside the table: not one of the six face, start and select buttons, and not a direction. Every other result is a virtual-key code. |
| KeyCodes.ControllerContextOnlyAffectsDirections | SourceX/miniwin/misc_msg.cpp:229-242 | Face, start and select buttons map the same whatever the menu and trigger state. |
| KeyCodes.MenuDirectionsAreArrows | SourceX/miniwin/misc_msg.cpp:267-277 | In a menu the four directions are the arrow keys, whatever the trigger state. |
| KeyCodes.PlayDirectionsAreDigits | SourceX/miniwin/misc_msg.cpp:243-266 | Outside menus a direction is a belt digit in '1'..'4'. Holding the left trigger adds 4. Distinct directions give distinct digits. |
| EventPump.KeystateForMouse | SourceX/miniwin/misc_msg.cpp:283-288 | MK_SHIFT is set in the result exactly when shift is held or it was already set. The MK_LBUTTON and MK_RBUTTON bits and every bit from 3 up are those of the input, so only MK_SHIFT can change. Without shift the word is returned as is. |
| EventPump.KeyLParam | SourceX/miniwin/misc_msg.cpp:550 | `mod << 16` fits 32 bits. Its high half is the modifier mask and its low half is zero. |
| EventPump.PackCoords | SourceX/miniwin/misc_msg.cpp:560 | The packing of y above the low 16 bits of x fits 32 bits. Its low half is x's low 16 bits and its high half is y's low 16 bits. |
| EventPump.PackCoordsSignedRoundTrip | SourceX/miniwin/misc_msg.cpp:560 | For coordinates that fit a signed 16-bit value, reading the halves back as shorts recovers x and y exactly. |
| EventPump.PackCoordsRoundTrip | SourceX/miniwin/misc_msg.cpp:567-571 | For 0 <= x < 2^16 and 0 <= y < 2^15 the halves are x and y themselves, and the packed value is a non-negative 32-bit LPARAM. |
| EventPump.Classify | SourceX/miniwin/misc_msg.cpp:539-618 | An event yields no message exactly when the shim swallows it: an unknown key, a button other than left and right, a non-close window event, text or device housekeeping, or an unknown type. Any message it yields is one of the nine pump messages, with a NULL window. |
| EventPump.KeyEventMessage | SourceX/miniwin/misc_msg.cpp:542-551 | A recognised key gives WM_KEYDOWN or WM_KEYUP. wParam is the virtual-key code, and lParam carries the modifier mask in its high half and zero in its low half. |
| EventPump.MouseMotionMessage | SourceX/miniwin/misc_msg.cpp:552-562 | Mouse motion gives WM_MOUSEMOVE to the NULL window with the packed coordinates. wParam is exactly MK_SHIFT when shift is held and 0 otherwise. |
| EventPump.QuitMessage | SourceX/miniwin/misc_msg.cpp:539-541 | A quit event gives exactly WM_QUIT with a NULL window and zero wParam and lParam. |
| EventPump.WindowCloseMessage | SourceX/miniwin/misc_msg.cpp:600-602 | The window's close event gives exactly WM_QUERYENDSESSION with a NULL window and zero wParam and lParam. |
| EventPump.MouseButtonMessage | SourceX/miniwin/misc_msg.cpp:563-590 | A message results exactly for the left and right buttons. It is WM_LBUTTONDOWN, WM_LBUTTONUP, WM_RBUTTONDOWN or WM_RBUTTONUP by button and direction, to the NULL window, with the packed coordinates. wParam is the pressed button's flag, or 0 on release, plus MK_SHIFT when shift is held. |
| EventPump.MouseButtonEventCoords | SourceX/miniwin/misc_msg.cpp:563-590 | A left or right button press or release carries the packed coordinates. |
| EventPump.MouseButtonEventMessage | SourceX/miniwin/misc_msg.cpp:563-590 | A pumped left or right button event has the message code for its button and direction and a NULL window. wParam is exactly the pressed button's flag, or 0 on release, plus MK_SHIFT when shift is held. So a press has its own flag and no other, and a release none. |
| CharTranslation.KeyOf | SourceX/miniwin/misc_msg.cpp:625 | `int key = wParam` is the signed 32-bit value congruent to wParam modulo 2^32. |
| CharTranslation.ModOf | SourceX/miniwin/misc_msg.cpp:626 | `(DWORD)lParam >> 16` is below 2^16. For a 32-bit lParam it is the high half. |
| CharTranslation.OemChar | SourceX/miniwin/misc_msg.cpp:643-677 | The table gives characters only for OEM codes, and only printable ASCII characters. |
| CharTranslation.TranslateKey | SourceX/miniwin/misc_msg.cpp:628-690 | A character or a fault results exactly for control, letter, digit and OEM keys. A fault results exactly for OEM codes outside the table. Every character is 7-bit. |
| CharTranslation.UpperOf | SourceX/miniwin/misc_msg.cpp:628-629 | `shift != (mod & KMOD_CAPS)` holds exactly when shift or caps lock is on. |
| CharTranslation.CharFor | SourceX/miniwin/misc_msg.cpp:624-626 | Only WM_KEYDOWN is translated. For a key code below 2^31 and a 32-bit lParam, the translation is that of wParam itself under the high half of lParam. |
| CharTranslation.LetterCase | SourceX/miniwin/misc_msg.cpp:637-638 | A letter stays upper-case under shift or caps lock and is lower-cased otherwise. |
| CharTranslation.DigitChar | SourceX/miniwin/misc_msg.cpp:639-640 | An unshifted digit passes through. A shifted '0' gives ')' and other shifted digits drop by 0x10. |
| CharTranslation.ControlChar | SourceX/miniwin/misc_msg.cpp:633-636 | Space, backspace, escape, tab and return pass through unchanged. |
| CharTranslation.OemCharTable | SourceX/miniwin/misc_msg.cpp:641-677 | An OEM key in the table gives its table character for the shift state. |
| CharTranslation.ShiftedDigitRow | SourceX/miniwin/misc_msg.cpp:639-640 | The shifted digit row '1'..'0' is `!"#$%&'())`. |
| CharTranslation.OnlyKeyDownTranslates | SourceX/miniwin/misc_msg.cpp:624 | A message other than WM_KEYDOWN yields no character. |
| MessageQueue.PolledRecord | SourceX/miniwin/misc_msg.cpp:328-339 | With no pending event the record is left as it was. A pending event that yields a message leaves exactly that message. A swallowed one leaves hwnd, wParam and lParam zero and the old message code. |
| MessageQueue.CharMessages | SourceX/miniwin/misc_msg.cpp:624-693 | At most one message is posted, and one is posted exactly for a WM_KEYDOWN of a control, letter, digit or OEM key. It is a WM_CHAR with a NULL window, zero lParam and a 7-bit character. |
| MessageQueue.MessageQueue.PostMessage | SourceX/miniwin/misc_msg.cpp:749-762 | Appends exactly one message, with the given fields, at the back of the queue, and returns true. |
| MessageQueue.MessageQueue.PeekMessage | SourceX/miniwin/misc_msg.cpp:296-332 | PM_NOREMOVE reports whether a message or an event is available and changes nothing. PM_REMOVE on a non-empty queue returns true, fills in the front message and drops it. PM_REMOVE on an empty queue fills in what the polled event yields; it returns true exactly when an event was pending and yields a message. |
| MessageQueue.MessageQueue.FillFromEvent | SourceX/miniwin/misc_msg.cpp:334-618 | After clearing hwnd, wParam and lParam, the record holds the event's message, or only the cleared fields when the event is swallowed. It reports availability exactly when the event yields a message. |
| MessageQueue.MessageQueue.FillKeyMessage | SourceX/miniwin/misc_msg.cpp:542-551 | The record gets the key message the classification gives, or stays cleared for an unknown key. |
| MessageQueue.MessageQueue.FillMouseButtonMessage | SourceX/miniwin/misc_msg.cpp:563-590 | The record gets the button message the classification gives, or stays cleared for other buttons. |
| MessageQueue.MessageQueue.TranslateMessage | SourceX/miniwin/misc_msg.cpp:621-696 | Appends the message's character messages, none or one, behind everything already queued, and returns true. |
| MessageQueue.PostAll | SourceX/miniwin/misc_msg.cpp:749-762 | The queue after posting a sequence of messages one at a time grows by their number. |
| MessageQueue.TakeN | SourceX/miniwin/misc_msg.cpp:322-326 | n removing peeks take exactly n messages, and what they take followed by what is left is the old queue. |
| MessageQueue.PostAllAppends | SourceX/miniwin/misc_msg.cpp:749-762 | Posting messages one by one appends them at the back, in posting order. |
| MessageQueue.TakeNFromFront | SourceX/miniwin/misc_msg.cpp:322-326 | n removing peeks return the first n queued messages, front first, and leave the rest. |
| MessageQueue.FifoOrder | SourceX/miniwin/misc_msg.cpp:322-326 | After messages are posted behind a queue, draining it returns the old messages and then the new ones in posting order, and leaves it empty. |
| MessageQueue.PostEach | SourceX/miniwin/misc_msg.cpp:749-762 | Calling the class's PostMessage once per message leaves the queue PostAll says, so the messages are appended in posting order. |
| MessageQueue.DrainN | SourceX/miniwin/misc_msg.cpp:322-326 | n calls of the class's removing PeekMessage return, front first, the n messages TakeN takes and leave the queue TakeN leaves. |
| MessageQueue.PostThenDrain | SourceX/miniwin/misc_msg.cpp:322-326 | Posting messages through the class and then draining it through PeekMessage returns the old queue followed by the new messages in posting order, and leaves the queue empty. |
| Scenarios.KeyDownCharacter | SourceX/miniwin/misc_msg.cpp:542-690 | The character translated from a pumped key-down is the one for the event's own virtual-key code and modifier mask. |
| Scenarios.ModifierSideChannel | SourceX/miniwin/misc_msg.cpp:550-626 | The modifier mask stored as `mod << 16` is the one `(DWORD)lParam >> 16` reads back. |
| Scenarios.PumpedKeysNeverFault | SourceX/miniwin/misc_msg.cpp:679-680 | Translating a key-down the pump produced from a recognised SDL key never reaches the fault for an unknown OEM code. |
| Scenarios.KeyUpHasNoCharacter | SourceX/miniwin/misc_msg.cpp:624 | A pumped key-up never yields a character. |
| Scenarios.UnmodifiedTypingEchoesKeycode | SourceX/miniwin/misc_msg.cpp:624-690 | Typing a letter, digit, punctuation or control key with no modifier yields, as its character, the ASCII code SDL reports as the keycode. |
| Scenarios.CapsLockTypingUppercase | SourceX/miniwin/misc_msg.cpp:629-638 | With caps lock and no shift, letters come out upper-case. |
| Scenarios.ShiftAndCapsTypingUppercase | SourceX/miniwin/misc_msg.cpp:629-638 | With shift and caps lock together, letters still come out upper-case. |
| Scenarios.PostThreeTakeThree | SourceX/miniwin/misc_msg.cpp:322-326 | Posting M1, M2 and M3 and then peeking three times with removal returns M1, M2 and M3 and empties the queue. |
| Scenarios.QueueBeforeHost | SourceX/miniwin/misc_msg.cpp:313-326 | A queued message is reported by a non-removing peek, then delivered before the pending host event, even when an event is pending. |
| Scenarios.TypeLetterA | SourceX/miniwin/misc_msg.cpp:542-696 | Key 'a' with no modifier is pumped as WM_KEYDOWN 'A' and translated to WM_CHAR 'a'. |
| Scenarios.TypeShiftedNine | SourceX/miniwin/misc_msg.cpp:639-640 | Key '9' with left shift is translated to WM_CHAR ')'. |
| Scenarios.LeftClick | SourceX/miniwin/misc_msg.cpp:563-576 | A left press at (100, 50) with no shift gives WM_LBUTTONDOWN with MK_LBUTTON and lParam 50 * 0x10000 + 100. |
| Scenarios.CloseWindow | SourceX/miniwin/misc_msg.cpp:600-605 | The window's close event gives WM_QUERYENDSESSION. |
| Scenarios.MiddleClickSwallowed | SourceX/miniwin/misc_msg.cpp:563-576 | A middle-button press is consumed without a message and nothing is queued. |

## Left out

- The handheld build's paths in `PeekMessageA`: tick-based timing, touch and simulated mouse clicks, the gesture-skipping poll loop, the movie branch, and the joystick axis and button cases. They call into game code that is not part of this model.
- `ScaleJoystickAxes` and `HandleJoystickAxes`: floating-point dead-zone arithmetic on game globals.
- `directionMustBeKeys` reads a dozen game flags that are not part of this model. `ControllerButtonToKey` takes its answer as the `inMenu` parameter and `l_triggerPressed` as `lTriggerPressed`. The numeric controller-button ids are named constructors.
- `SDL_PollEvent` and `SDL_GetModState` are host calls. They become the `pending` and `modState` parameters. `SDL_PollEvent(NULL)` in the non-removing mode is "pending is present".
- `GetAsyncKeyState`: a read of SDL's keyboard-state array, outside the message core.
- `DispatchMessageA`: a call into the engine's window procedure, which is not part of this model.
- `DUMMY_PRINT` and `false_avail` have a diagnostic print as their only side effect. It is not modelled; `false_avail` is "return false".
- The SDL 1 build's keycode values and its smaller event set.
- Window-handle values other than NULL are not modelled: every entry point requires or produces hwnd 0.
- MessageQueue.MessageQueue.PostMessage: `lParam` is held as a natural number, so the model posts only non-negative LPARAMs. A negative or sign-extended 64-bit LPARAM the engine might post is not represented; the shim itself passes such a value through unchanged and `TranslateMessage` reads only its low 32 bits.
- CharTranslation.KeyOf: a `wParam` above 32 bits is truncated as the `int` conversion does. A virtual-key code of the pump always fits, so no other case arises in the model.
- EventPump.KeyLParam: `mod << 16` on a mask with bit 15 set overflows a signed `int` in C. The model takes the 32-bit pattern the compiler produces.
