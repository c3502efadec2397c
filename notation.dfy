/** A generative description of the key notation that `Key::new` accepts: a
    token is a bare character or a bracketed base with an optional modifier
    letter; `Spell` writes a token out and `Meaning` says which key it denotes.
    `New` is proved to accept exactly the spellings of well-formed tokens and to
    give each its meaning. */
module Notation {
  import opened Code
  import opened Modifier
  import opened Viks

  /** A character that is a key on its own: printable ASCII other than `<`,
      which always opens a bracketed token, and other than the space. */
  predicate IsKeyChar(c: char) {
    '!' <= c <= '~' && c != '<'
  }

  /** What stands between the brackets, after any modifier dash. */
  datatype Base = Single(c: char) | Named(name: string)

  /** One token of key notation. */
  datatype Token =
    | Bare(c: char)
    | Bracketed(letter: Option<char>, base: Base)

  predicate WellFormed(t: Token) {
    match t
    case Bare(c) => IsKeyChar(c)
    case Bracketed(letter, base) =>
      && (letter.Some? ==> letter.value as int < 128)
      && match base
         case Single(c) => IsKeyChar(c)
         case Named(name) => IsAscii(name) && Lowercase(name) in NAMES
  }

  /** The text of a token: `c`, `<b>` or `<m-b>`. */
  function Spell(t: Token): string {
    match t
    case Bare(c) => [c]
    case Bracketed(letter, base) =>
      var inner := match base case Single(c) => [c] case Named(name) => name;
      match letter
      case None => "<" + inner + ">"
      case Some(m) => "<" + [m] + "-" + inner + ">"
  }

  /** The key a character denotes: the variant of its upper-case form, with
      Shift exactly when it is an upper-case letter. */
  function CharKey(c: char): Key
    requires IsKeyChar(c)
  {
    var upper := if 'a' <= c <= 'z' then c as int - 32 else c as int;
    Key(upper as KeyCode, KeyModifiers(if 'A' <= c <= 'Z' then SHIFT else NONE))
  }

  /** The modifier an optional letter selects. */
  function LetterModifier(letter: Option<char>): KeyModifier {
    match letter
    case None => NONE
    case Some(m) => ModifierLetter(m)
  }

  /** The key a token denotes: a bracketed single character adds the letter's
      modifier to the character's own Shift; a name gives its code with the
      letter's modifier alone. */
  function Meaning(t: Token): Key
    requires WellFormed(t)
  {
    match t
    case Bare(c) => CharKey(c)
    case Bracketed(letter, Single(c)) =>
      var k := CharKey(c);
      Key(k.code, KeyModifiers(BitOr(k.modifiers.bits, LetterModifier(letter))))
    case Bracketed(letter, Named(name)) =>
      Key(NamedCode(Lowercase(name)).value, KeyModifiers(LetterModifier(letter)))
  }

  /** The punctuation list of the one-character rule is exactly the printable
      ASCII characters that are neither letters, digits, `<` nor the space. */
  lemma PunctuationIsKeyChars(c: char)
    ensures c in PUNCTUATION <==> IsKeyChar(c) && !('A' <= c <= 'Z') && !('a' <= c <= 'z') && !('0' <= c <= '9')
  {
  }

  /** A one-character tag is accepted exactly when its character is a key
      character, and then denotes that character's key. */
  lemma BareChar(c: char)
    ensures New([c]).Ok? <==> IsKeyChar(c)
    ensures IsKeyChar(c) ==> New([c]) == Ok(CharKey(c))
  {
    assert [c][0] == c;
    if c as int < 128 {
      PunctuationIsKeyChars(ToAsciiUpper(c));
      assert New([c]) == ParseChar(c);
    } else {
      assert !IsAscii([c]);
    }
  }

  /** Every name of the named-key table is at least two lower-case letters
      long. */
  lemma NamesAreLetters(n: string)
    requires n in NAMES
    ensures |n| >= 2 && 'a' <= n[1] <= 'z'
    ensures forall i :: 0 <= i < |n| ==> 'a' <= n[i] <= 'z'
  {
  }

  /** A table name lowers to itself and is ASCII. */
  lemma NamesAreLowercase(n: string)
    requires n in NAMES
    ensures IsAscii(n) && Lowercase(n) == n
  {
    NamesAreLetters(n);
    var lower := Lowercase(n);
    assert forall i :: 0 <= i < |n| ==> lower[i] == n[i];
  }

  /** A string that lowers to a table name is at least two characters long and
      has no dash in second place. */
  lemma NameShape(name: string)
    requires Lowercase(name) in NAMES
    ensures |name| >= 2 && name[1] != '-'
  {
    var lower := Lowercase(name);
    NamesAreLetters(lower);
    assert lower[1] == ToAsciiLower(name[1]);
  }

  /** `<c>` and `<m-c>` denote the key of `c` with the letter's modifier added. */
  lemma SoundSingle(letter: Option<char>, c: char)
    requires WellFormed(Bracketed(letter, Single(c)))
    ensures New(Spell(Bracketed(letter, Single(c)))) == Ok(Meaning(Bracketed(letter, Single(c))))
  {
    var s := Spell(Bracketed(letter, Single(c)));
    BareChar(c);
    match letter {
      case None =>
        assert s == ['<', c, '>'];
        assert TagBase(s) == [c];
      case Some(m) =>
        assert s == ['<', m, '-', c, '>'];
        assert TagBase(s) == [c];
    }
  }

  /** `<name>` denotes the named code with no modifier. */
  lemma SoundNamedPlain(name: string)
    requires WellFormed(Bracketed(None, Named(name)))
    ensures New(Spell(Bracketed(None, Named(name)))) == Ok(Meaning(Bracketed(None, Named(name))))
  {
    var s := Spell(Bracketed(None, Named(name)));
    NameShape(name);
    assert s == ['<'] + name + ['>'];
    assert s[2] == name[1];
    assert TagBase(s) == name;
  }

  /** `<m-name>` denotes the named code with the letter's modifier. */
  lemma SoundNamedModded(m: char, name: string)
    requires WellFormed(Bracketed(Some(m), Named(name)))
    ensures New(Spell(Bracketed(Some(m), Named(name)))) == Ok(Meaning(Bracketed(Some(m), Named(name))))
  {
    var s := Spell(Bracketed(Some(m), Named(name)));
    NameShape(name);
    assert s == ['<', m, '-'] + name + ['>'];
    assert TagBase(s) == name;
  }

  /** `New` gives every well-formed token's spelling that token's meaning. */
  lemma Soundness(t: Token)
    requires WellFormed(t)
    ensures New(Spell(t)) == Ok(Meaning(t))
  {
    match t
    case Bare(c) => BareChar(c);
    case Bracketed(letter, Single(c)) => SoundSingle(letter, c);
    case Bracketed(None, Named(name)) => SoundNamedPlain(name);
    case Bracketed(Some(m), Named(name)) => SoundNamedModded(m, name);
  }

  /** An accepted tag of more than one character is bracketed, and its base is
      an accepted character or a table name. */
  lemma AcceptedBracket(tag: string)
    requires New(tag).Ok? && |tag| > 1
    ensures |tag| > 2 && tag[0] == '<' && tag[|tag| - 1] == '>' && IsAscii(tag)
    ensures |TagBase(tag)| == 1 ==> New(TagBase(tag)).Ok?
    ensures |TagBase(tag)| != 1 ==> NamedCode(Lowercase(TagBase(tag))).Some?
  {
  }

  /** An accepted tag whose base is one character spells a bracketed single. */
  lemma CompleteSingle(tag: string) returns (t: Token)
    requires New(tag).Ok? && |tag| > 1 && |TagBase(tag)| == 1
    ensures WellFormed(t) && Spell(t) == tag
  {
    AcceptedBracket(tag);
    var base := TagBase(tag);
    var c := base[0];
    assert base == [c];
    BareChar(c);
    if IsModded(tag) {
      t := Bracketed(Some(tag[1]), Single(c));
      assert tag == ['<', tag[1], '-', c, '>'];
    } else {
      t := Bracketed(None, Single(c));
      assert tag == ['<', c, '>'];
    }
  }

  /** An accepted tag whose base is longer spells a bracketed name. */
  lemma CompleteNamed(tag: string) returns (t: Token)
    requires New(tag).Ok? && |tag| > 1 && |TagBase(tag)| != 1
    ensures WellFormed(t) && Spell(t) == tag
  {
    AcceptedBracket(tag);
    var base := TagBase(tag);
    assert IsAscii(base);
    var letter := if IsModded(tag) then Some(tag[1]) else None;
    t := Bracketed(letter, Named(base));
    assert WellFormed(t);
    SpellNamed(tag, letter);
  }

  /** A bracketed tag is its opening, its base and its closing bracket. */
  lemma SpellNamed(tag: string, letter: Option<char>)
    requires |tag| > 2 && tag[0] == '<' && tag[|tag| - 1] == '>'
    requires letter == if IsModded(tag) then Some(tag[1]) else None
    ensures Spell(Bracketed(letter, Named(TagBase(tag)))) == tag
  {
    var n := |tag|;
    var base := TagBase(tag);
    if IsModded(tag) {
      assert tag[..3] == ['<', tag[1], '-'] && tag[n - 1..] == ['>'];
      assert tag == tag[..3] + base + tag[n - 1..];
    } else {
      assert tag[..1] == ['<'] && tag[n - 1..] == ['>'];
      assert tag == tag[..1] + base + tag[n - 1..];
    }
  }

  /** Every tag `New` accepts is the spelling of a well-formed token, and the
      key it gives is that token's meaning. */
  lemma Completeness(tag: string)
    requires New(tag).Ok?
    ensures exists t :: WellFormed(t) && Spell(t) == tag && Meaning(t) == New(tag).value
  {
    var t: Token;
    if |tag| == 1 {
      t := Bare(tag[0]);
      BareChar(tag[0]);
      assert Spell(t) == tag;
    } else if |TagBase(tag)| == 1 {
      t := CompleteSingle(tag);
    } else {
      t := CompleteNamed(tag);
    }
    Soundness(t);
  }

  /** The tags `New` accepts are exactly the spellings of well-formed tokens. */
  lemma AcceptedLanguage(tag: string)
    ensures New(tag).Ok? <==> exists t :: WellFormed(t) && Spell(t) == tag
  {
    if New(tag).Ok? {
      Completeness(tag);
    }
    forall t | WellFormed(t) && Spell(t) == tag ensures New(tag).Ok? {
      Soundness(t);
    }
  }
}
