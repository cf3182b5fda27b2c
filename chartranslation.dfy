/**
 * TranslateMessage's character rules: from a WM_KEYDOWN's virtual-key code and
 * the modifier mask riding in its lParam, the character of a US keyboard.
 */
module CharTranslation {
  import opened Wrappers
  import opened Win32
  import opened Sdl

  /** What TranslateMessage does with one key: no character, a character, or
      a fault (UNIMPLEMENTED) for an OEM code it has no character for. */
  datatype Translation = NoChar | Char(code: int) | Unimplemented

  /** `int key = lpMsg->wParam`: the low 32 bits of wParam as a signed int. */
  function KeyOf(wParam: nat): (key: int)
    ensures -0x8000_0000 <= key < 0x8000_0000
    ensures key % 0x1_0000_0000 == wParam % 0x1_0000_0000
  {
    var low := wParam % 0x1_0000_0000;
    if low < 0x8000_0000 then low else low - 0x1_0000_0000
  }

  /** `(DWORD)lpMsg->lParam >> 16`: the high half of lParam's low 32 bits. */
  function ModOf(lParam: nat): (mod: nat)
    ensures mod < 0x1_0000
    ensures lParam < 0x1_0000_0000 ==> mod == lParam / 0x1_0000
  {
    (lParam % 0x1_0000_0000) / 0x1_0000
  }

  /**
   * `shift != (mod & KMOD_CAPS)`: the bool shift is promoted to 0 or 1 and
   * compared with 0 or 0x2000, so this is "shift or caps", not "shift xor caps".
   */
  predicate UpperOf(mod: nat): (upper: bool)
    ensures upper <==> ShiftIn(mod) || CapsIn(mod)
  {
    (if ShiftIn(mod) then 1 else 0) != (if CapsIn(mod) then KMOD_CAPS else 0)
  }

  predicate IsAlpha(key: int) { 'A' as int <= key <= 'Z' as int }
  predicate IsNumeric(key: int) { '0' as int <= key <= '9' as int }
  predicate IsControl(key: int) {
    key == VK_SPACE || key == VK_BACK || key == VK_ESCAPE || key == VK_TAB || key == VK_RETURN
  }
  predicate IsOem(key: int) { VK_OEM_1 <= key <= VK_OEM_7 }

  /** The character of an OEM punctuation key on a US layout, if it has one. */
  function OemChar(key: int, shift: bool): (c: Option<int>)
    ensures c.Some? ==> IsOem(key) && 0x20 < c.value < 0x7F
  {
    if key == VK_OEM_1 then Some(if shift then ':' as int else ';' as int)
    else if key == VK_OEM_2 then Some(if shift then '?' as int else '/' as int)
    else if key == VK_OEM_3 then Some(if shift then '~' as int else '`' as int)
    else if key == VK_OEM_4 then Some(if shift then '{' as int else '[' as int)
    else if key == VK_OEM_5 then Some(if shift then '|' as int else '\\' as int)
    else if key == VK_OEM_6 then Some(if shift then '}' as int else ']' as int)
    else if key == VK_OEM_7 then Some(if shift then '"' as int else '\'' as int)
    else if key == VK_OEM_MINUS then Some(if shift then '_' as int else '-' as int)
    else if key == VK_OEM_PLUS then Some(if shift then '+' as int else '=' as int)
    else if key == VK_OEM_PERIOD then Some(if shift then '>' as int else '.' as int)
    else if key == VK_OEM_COMMA then Some(if shift then '<' as int else ',' as int)
    else None
  }

  /** The OEM codes inside VK_OEM_1..VK_OEM_7 that have a character. */
  predicate IsMappedOem(key: int) {
    key in {VK_OEM_1, VK_OEM_2, VK_OEM_3, VK_OEM_4, VK_OEM_5, VK_OEM_6, VK_OEM_7,
            VK_OEM_MINUS, VK_OEM_PLUS, VK_OEM_PERIOD, VK_OEM_COMMA}
  }

  /**
   * The character TranslateMessage posts for a key-down of key under the
   * modifier mask mod. Only control, letter, digit and OEM keys produce one;
   * every character is 7-bit ASCII; an OEM code outside the table faults.
   */
  function TranslateKey(key: int, mod: nat): (t: Translation)
    ensures t != NoChar <==> IsControl(key) || IsAlpha(key) || IsNumeric(key) || IsOem(key)
    ensures t == Unimplemented <==> IsOem(key) && !IsMappedOem(key)
    ensures t.Char? ==> 0 < t.code < 0x80
  {
    var shift := ShiftIn(mod);
    var upper := UpperOf(mod);
    if IsControl(key) || IsAlpha(key) || IsNumeric(key) || IsOem(key) then
      if !upper && IsAlpha(key) then Char(key + ('a' as int - 'A' as int))  // tolower
      else if shift && IsNumeric(key) then Char(if key == '0' as int then ')' as int else key - 0x10)
      else if IsOem(key) then
        match OemChar(key, shift)
        case Some(c) => Char(c)
        case None => Unimplemented
      else Char(key)
    else NoChar
  }

  /**
   * The character message a MSG yields: only WM_KEYDOWN is translated, from
   * the key code in wParam and the modifier mask in the high half of lParam.
   */
  function CharFor(m: Msg): (t: Translation)
    ensures m.message != WM_KEYDOWN ==> t == NoChar
    ensures m.message == WM_KEYDOWN && m.wParam < 0x8000_0000 && m.lParam < 0x1_0000_0000 ==>
      t == TranslateKey(m.wParam, m.lParam / 0x1_0000)
  {
    if m.message == WM_KEYDOWN then
      var key, mod := KeyOf(m.wParam), ModOf(m.lParam);
      assert m.wParam < 0x8000_0000 ==> key == m.wParam;
      TranslateKey(key, mod)
    else NoChar
  }

  /** A letter is lower-cased unless shift or caps is on. */
  lemma LetterCase(key: int, mod: nat)
    requires IsAlpha(key)
    ensures TranslateKey(key, mod) ==
      Char(if ShiftIn(mod) || CapsIn(mod) then key else key - 'A' as int + 'a' as int)
  {
  }

  /**
   * A digit passes through unshifted; under shift '0' becomes ')' and every
   * other digit drops by 0x10.
   */
  lemma DigitChar(key: int, mod: nat)
    requires IsNumeric(key)
    ensures TranslateKey(key, mod) ==
      Char(if !ShiftIn(mod) then key else if key == '0' as int then ')' as int else key - 0x10)
  {
  }

  /** Space, backspace, escape, tab and return pass through as themselves. */
  lemma ControlChar(key: int, mod: nat)
    requires IsControl(key)
    ensures TranslateKey(key, mod) == Char(key)
  {
  }

  /** An OEM key gives its table character, shifted as shift says. */
  lemma OemCharTable(key: int, mod: nat)
    requires IsMappedOem(key)
    ensures OemChar(key, ShiftIn(mod)).Some?
    ensures TranslateKey(key, mod) == Char(OemChar(key, ShiftIn(mod)).value)
  {
  }

  /**
   * The shifted digits, as the 0x10 offset makes them: the row of the ASCII
   * bit-paired layout rather than of a US keyboard, '9' and '0' both giving ')'.
   */
  lemma ShiftedDigitRow()
    ensures var shifted := KMOD_LSHIFT;
      [TranslateKey('1' as int, shifted), TranslateKey('2' as int, shifted), TranslateKey('3' as int, shifted),
       TranslateKey('4' as int, shifted), TranslateKey('5' as int, shifted), TranslateKey('6' as int, shifted),
       TranslateKey('7' as int, shifted), TranslateKey('8' as int, shifted), TranslateKey('9' as int, shifted),
       TranslateKey('0' as int, shifted)] ==
      [Char('!' as int), Char('"' as int), Char('#' as int), Char('$' as int), Char('%' as int),
       Char('&' as int), Char('\'' as int), Char('(' as int), Char(')' as int), Char(')' as int)]
  {
  }

  /** Messages other than WM_KEYDOWN never produce a character. */
  lemma OnlyKeyDownTranslates(m: Msg)
    requires m.message != WM_KEYDOWN
    ensures CharFor(m) == NoChar
  {
  }
}
