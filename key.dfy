/** The key-notation parser `Key::new`: one token of vim-like key notation
    (`a`, `A`, `<c-a>`, `<S-Tab>`, `<cr>`) to a key code and its modifiers. */
module Viks {
  import opened Code
  import opened Modifier

  /** A key: a code and the modifiers held with it, compared field by field. */
  datatype Key = Key(code: KeyCode, modifiers: KeyModifiers)

  /** The crate's error: a message. */
  datatype Error = Error(message: string)

  datatype Result<T> = Ok(value: T) | Err(error: Error)

  datatype Option<T> = None | Some(value: T)

  const UNSUPPORTED: string := "unsupported key format"
  const EMPTY: string := "format is empty"

  /** `str::is_ascii`. Once it holds, the byte length of the string is its
      number of characters, so byte offsets and character indices agree. */
  predicate IsAscii(s: string) {
    forall i :: 0 <= i < |s| ==> s[i] as int < 128
  }

  /** `char::is_ascii_uppercase`. */
  predicate IsAsciiUppercase(c: char) {
    'A' <= c <= 'Z'
  }

  /** `char::is_ascii_digit`. */
  predicate IsAsciiDigit(c: char) {
    '0' <= c <= '9'
  }

  /** `char::to_ascii_uppercase`: lower-case ASCII letters become upper case,
      every other character is kept. */
  function ToAsciiUpper(c: char): (u: char)
    ensures 'a' <= c <= 'z' ==> u as int == c as int - 32 && IsAsciiUppercase(u)
    ensures !('a' <= c <= 'z') ==> u == c
  {
    if 'a' <= c <= 'z' then (c as int - 32) as char else c
  }

  /** `char::to_ascii_lowercase`: upper-case ASCII letters become lower case,
      every other character is kept. */
  function ToAsciiLower(c: char): (l: char)
    ensures IsAsciiUppercase(c) ==> l as int == c as int + 32 && 'a' <= l <= 'z'
    ensures !IsAsciiUppercase(c) ==> l == c
  {
    if IsAsciiUppercase(c) then (c as int + 32) as char else c
  }

  /** `str::to_lowercase`, on the ASCII strings it is applied to here: each
      character lowered on its own. */
  function Lowercase(s: string): (r: string)
    ensures |r| == |s|
    ensures forall i :: 0 <= i < |s| ==> r[i] == ToAsciiLower(s[i])
  {
    if s == [] then [] else [ToAsciiLower(s[0])] + Lowercase(s[1..])
  }

  /** The punctuation marks a one-character tag may be. */
  const PUNCTUATION: set<char> := {
    '!', '"', '#', '$', '%', '&', '\'', '(', ')', '*', '+', '?', '_',
    '`', '|', '~', '{', '}', '-', '[', ']', ',', '.', '/', ':', ';',
    '>', '=', '@', '\\', '^'
  }

  /** The one-character tag `[c]`, already known to be ASCII: an upper-case
      letter holds Shift, and the code is that of the upper-cased character,
      which must be a letter, a punctuation mark from the list or a digit. */
  function ParseChar(c: char): (r: Result<Key>)
    requires c as int < 128
    ensures r.Err? ==> r.error == Error(UNSUPPORTED)
    ensures r.Ok? ==> Discriminant(r.value.code) == ToAsciiUpper(c) as int
    ensures r.Ok? ==> (r.value.modifiers.IsShift() <==> IsAsciiUppercase(c))
    ensures r.Ok? ==> !r.value.modifiers.IsCtrl() && !r.value.modifiers.IsAlt()
  {
    var modifier := if IsAsciiUppercase(c) then SHIFT else NONE;
    var tag := ToAsciiUpper(c);
    if IsAsciiUppercase(tag) || tag in PUNCTUATION || IsAsciiDigit(tag) then
      Ok(Key(FromAscii(tag as int).code, KeyModifiers(modifier)))
    else
      Err(Error(UNSUPPORTED))
  }

  /** `tag.chars().nth(2).is_some_and(|c| c == '-')`: the tag has the form
      `<X-…`. */
  predicate IsModded(tag: string)
    ensures IsModded(tag) ==> |tag| > 2 && (tag[|tag| - 1] == '>' ==> |tag| >= 4)
  {
    |tag| > 2 && tag[2] == '-'
  }

  /** The modifier a letter before the dash selects, ignoring case: `a` Alt,
      `c` Control, `s` Shift, and no modifier for any other character. */
  function ModifierLetter(c: char): (m: KeyModifier)
    ensures m == ALT <==> c == 'a' || c == 'A'
    ensures m == CONTROL <==> c == 'c' || c == 'C'
    ensures m == SHIFT <==> c == 's' || c == 'S'
    ensures m in {NONE, SHIFT, CONTROL, ALT}
  {
    match ToAsciiLower(c)
    case 'a' => ALT
    case 'c' => CONTROL
    case 's' => SHIFT
    case _ => NONE
  }

  /** The names a multi-character base may have once lowered. */
  const NAMES: set<string> := {"enter", "cr", "tab", "esc", "leader", "space", "bs", "del", "lt"}

  /** The code a multi-character base names, once lowered: Enter, Tab, Esc,
      Space, Backspace, Delete or the less-than sign, each under one or two
      names, and nothing for any other string. */
  function NamedCode(name: string): (r: Option<KeyCode>)
    ensures r.Some? <==> name in NAMES
    ensures r.Some? ==> r.value in {Enter, Tab, Esc, Space, Backspace, Delete, LessThanSign}
    ensures r == Some(Enter) <==> name == "enter" || name == "cr"
    ensures r == Some(Tab) <==> name == "tab"
    ensures r == Some(Esc) <==> name == "esc"
    ensures r == Some(Space) <==> name == "leader" || name == "space"
    ensures r == Some(Backspace) <==> name == "bs"
    ensures r == Some(Delete) <==> name == "del"
    ensures r == Some(LessThanSign) <==> name == "lt"
  {
    if name == "enter" || name == "cr" then Some(Enter)
    else if name == "tab" then Some(Tab)
    else if name == "esc" then Some(Esc)
    else if name == "leader" || name == "space" then Some(Space)
    else if name == "bs" then Some(Backspace)
    else if name == "del" then Some(Delete)
    else if name == "lt" then Some(LessThanSign)
    else None
  }

  /** The part of a bracketed tag between the modifier dash (or the opening
      bracket, when there is no dash) and the closing bracket. */
  function TagBase(tag: string): (base: string)
    requires |tag| > 2 && tag[|tag| - 1] == '>'
    ensures IsModded(tag) ==> |tag| >= 4 && base == tag[3..|tag| - 1]
    ensures !IsModded(tag) ==> base == tag[1..|tag| - 1]
  {
    if IsModded(tag) then tag[3..|tag| - 1] else tag[1..|tag| - 1]
  }

  /** `Key::new`. The rejections come in the source's order: a non-ASCII tag,
      an empty tag, a one-character tag that is no key, a longer tag that is not
      a bracketed `<…>` with something inside, and a bracketed base that is
      neither one valid character nor a known name. A one-character base is
      parsed by the one-character rule and the bracket's modifier is added to
      what that gives. */
  function New(tag: string): (r: Result<Key>)
    decreases |tag|
    ensures !IsAscii(tag) ==> r == Err(Error(UNSUPPORTED))
    ensures r.Err? ==> r.error == Error(if tag == [] then EMPTY else UNSUPPORTED)
    ensures r.Ok? ==> IsAscii(tag) && tag != []
    ensures r.Ok? && |tag| > 1 ==> |tag| > 2 && tag[0] == '<' && tag[|tag| - 1] == '>'
  {
    if !IsAscii(tag) then Err(Error(UNSUPPORTED))
    else if tag == [] then Err(Error(EMPTY))
    else if |tag| == 1 then ParseChar(tag[0])
    else
      var isSpecial := tag[0] == '<' && tag[|tag| - 1] == '>';
      if !isSpecial || |tag| == 2 then Err(Error(UNSUPPORTED))
      else
        var base := TagBase(tag);
        var modifier := if IsModded(tag) then ModifierLetter(tag[1]) else NONE;
        if |base| == 1 then
          match New(base)
          case Err(e) => Err(e)
          case Ok(key) => Ok(key.(modifiers := KeyModifiers(BitOr(key.modifiers.bits, modifier))))
        else
          match NamedCode(Lowercase(base))
          case Some(code) => Ok(Key(code, KeyModifiers(modifier)))
          case None => Err(Error(UNSUPPORTED))
  }
}
