/** What `Key::new` promises about particular spellings: which spellings give
    equal keys, how modifiers combine, and which tags are rejected. */
module KeyProperties {
  import opened Code
  import opened Modifier
  import opened Viks
  import opened Notation

  /** For every letter, the upper-case letter, `<s-x>` with the lower-case
      letter and `<S-X>` with the upper-case one are the same key: that letter's
      code with Shift alone. */
  lemma ShiftSpellingsAgree(c: char)
    requires 'a' <= c <= 'z'
    ensures New([ToAsciiUpper(c)]) == New("<s-" + [c] + ">") == New("<S-" + [ToAsciiUpper(c)] + ">")
    ensures New([ToAsciiUpper(c)]).Ok?
    ensures var k := New([ToAsciiUpper(c)]).value;
      Discriminant(k.code) == ToAsciiUpper(c) as int && Flags(k.modifiers.bits) == {Shift}
  {
    var u := ToAsciiUpper(c);
    var bare, lower, upper := Bare(u), Bracketed(Some('s'), Single(c)), Bracketed(Some('S'), Single(u));
    assert Spell(bare) == [u];
    assert Spell(lower) == "<s-" + [c] + ">";
    assert Spell(upper) == "<S-" + [u] + ">";
    Soundness(bare);
    Soundness(lower);
    Soundness(upper);
    assert Meaning(bare) == Meaning(lower) == Meaning(upper);
  }

  /** `<c-X>` with an upper-case letter carries both Shift, from the case, and
      Control, from the letter before the dash. */
  lemma ControlWithUpperLetter(c: char)
    requires 'A' <= c <= 'Z'
    ensures New("<c-" + [c] + ">").Ok?
    ensures var k := New("<c-" + [c] + ">").value;
      Discriminant(k.code) == c as int && Flags(k.modifiers.bits) == {Shift, Control}
  {
    var t := Bracketed(Some('c'), Single(c));
    assert Spell(t) == "<c-" + [c] + ">";
    Soundness(t);
  }

  /** The recursion in `New` is one level deep: a bracketed one-character base
      is parsed by the one-character rule directly, and the bracket's modifier
      is OR'd into what that gives, its code and error left as they are. */
  lemma OneLevelOfRecursion(tag: string)
    requires IsAscii(tag) && |tag| > 2 && tag[0] == '<' && tag[|tag| - 1] == '>'
    requires |TagBase(tag)| == 1
    ensures New(TagBase(tag)) == ParseChar(TagBase(tag)[0])
    ensures var m := if IsModded(tag) then ModifierLetter(tag[1]) else NONE;
      match ParseChar(TagBase(tag)[0])
      case Err(e) => New(tag) == Err(e)
      case Ok(k) => New(tag) == Ok(Key(k.code, KeyModifiers(BitOr(k.modifiers.bits, m))))
  {
    var base := TagBase(tag);
    assert base[0] == tag[if IsModded(tag) then 3 else 1];
    assert IsAscii(base);
  }

  /** A letter before the dash other than `a`, `c` or `s` in either case is
      ignored: the tag means what its base character alone means, and is
      rejected with the same error when that character is no key. */
  lemma UnknownModifierLetterIgnored(m: char, c: char)
    requires m as int < 128 && m !in {'a', 'A', 'c', 'C', 's', 'S'}
    ensures New("<" + [m] + "-" + [c] + ">") == New([c])
  {
    var tag := "<" + [m] + "-" + [c] + ">";
    BareChar(c);
    if IsKeyChar(c) {
      var t := Bracketed(Some(m), Single(c));
      assert Spell(t) == tag;
      Soundness(t);
    } else if c as int < 128 {
      assert tag == ['<', m, '-', c, '>'];
      OneLevelOfRecursion(tag);
    } else {
      assert tag[3] == c;
      assert !IsAscii(tag);
    }
  }

  /** A named key is recognised whatever the case of its name and of its
      modifier letter. */
  lemma NamedKeysIgnoreCase(m: char, m': char, name: string, name': string)
    requires m as int < 128 && m' as int < 128 && ToAsciiLower(m) == ToAsciiLower(m')
    requires IsAscii(name) && IsAscii(name') && Lowercase(name) == Lowercase(name') && Lowercase(name) in NAMES
    ensures New("<" + name + ">") == New("<" + name' + ">")
    ensures New("<" + [m] + "-" + name + ">") == New("<" + [m'] + "-" + name' + ">")
    ensures New("<" + name + ">").Ok? && New("<" + [m] + "-" + name + ">").Ok?
  {
    Soundness(Bracketed(None, Named(name)));
    Soundness(Bracketed(None, Named(name')));
    var t, t' := Bracketed(Some(m), Named(name)), Bracketed(Some(m'), Named(name'));
    assert Spell(t) == "<" + [m] + "-" + name + ">";
    assert Spell(t') == "<" + [m'] + "-" + name' + ">";
    Soundness(t);
    Soundness(t');
  }

  /** The doc-test example: `A`, `<s-a>` and `<S-A>` are the same key, the
      letter A with Shift. */
  lemma DocTestExample()
    ensures New("A") == New("<s-a>") == New("<S-A>") == Ok(Key(A, KeyModifiers(SHIFT)))
  {
    ShiftSpellingsAgree('a');
  }

  /** `<c-A>` holds Shift and Control. */
  lemma ControlExample()
    ensures New("<c-A>") == Ok(Key(A, KeyModifiers(BitOr(SHIFT, CONTROL))))
  {
    ControlWithUpperLetter('A');
  }

  /** `<x-a>` is the plain `a`: A with no modifier. */
  lemma IgnoredLetterExample()
    ensures New("<x-a>") == New("a") == Ok(Key(A, KeyModifiers(NONE)))
  {
    UnknownModifierLetterIgnored('x', 'a');
    BareChar('a');
  }

  /** A table name written in lower case between brackets is the key it names,
      with no modifier. */
  lemma NamedKey(name: string)
    requires name in NAMES
    ensures New("<" + name + ">") == Ok(Key(NamedCode(name).value, KeyModifiers(NONE)))
  {
    NamesAreLowercase(name);
    Soundness(Bracketed(None, Named(name)));
  }

  /** `<CR>` is the Enter key: the name is lowered before it is looked up. */
  lemma CrExample()
    ensures New("<CR>") == Ok(Key(Enter, KeyModifiers(NONE)))
  {
    var lower := Lowercase("CR");
    assert lower[0] == 'c' && lower[1] == 'r';
    assert lower == "cr";
    Soundness(Bracketed(None, Named("CR")));
    assert "<" + "CR" + ">" == "<CR>";
  }

  /** `<enter>` is the Enter key too. */
  lemma EnterExample()
    ensures New("<enter>") == Ok(Key(Enter, KeyModifiers(NONE)))
  {
    NamedKey("enter");
    assert "<" + "enter" + ">" == "<enter>";
  }

  /** `<leader>` is the Space key. */
  lemma LeaderExample()
    ensures New("<leader>") == Ok(Key(Space, KeyModifiers(NONE)))
  {
    NamedKey("leader");
    assert "<" + "leader" + ">" == "<leader>";
  }

  /** `<space>` is the Space key. */
  lemma SpaceExample()
    ensures New("<space>") == Ok(Key(Space, KeyModifiers(NONE)))
  {
    NamedKey("space");
    assert "<" + "space" + ">" == "<space>";
  }

  /** `<tab>` is Tab. */
  lemma TabExample()
    ensures New("<tab>") == Ok(Key(Tab, KeyModifiers(NONE)))
  {
    NamedKey("tab");
    assert "<" + "tab" + ">" == "<tab>";
  }

  /** `<esc>` is Esc. */
  lemma EscExample()
    ensures New("<esc>") == Ok(Key(Esc, KeyModifiers(NONE)))
  {
    NamedKey("esc");
    assert "<" + "esc" + ">" == "<esc>";
  }

  /** `<del>` is Delete. */
  lemma DeleteExample()
    ensures New("<del>") == Ok(Key(Delete, KeyModifiers(NONE)))
  {
    NamedKey("del");
    assert "<" + "del" + ">" == "<del>";
  }

  /** `<bs>` is Backspace. */
  lemma BackspaceExample()
    ensures New("<bs>") == Ok(Key(Backspace, KeyModifiers(NONE)))
  {
    NamedKey("bs");
    assert "<" + "bs" + ">" == "<bs>";
  }

  /** `<lt>` is the less-than sign, which has no one-character spelling. */
  lemma LessThanExample()
    ensures New("<lt>") == Ok(Key(LessThanSign, KeyModifiers(NONE)))
    ensures New("<").Err?
  {
    NamedKey("lt");
    assert "<" + "lt" + ">" == "<lt>";
    BareChar('<');
  }

  /** Tags the parser rejects: the empty tag with its own message, and with
      the general message a doubled letter, an unknown name, an unclosed
      bracket, empty brackets, a lone `<`, a space and a non-ASCII character. */
  lemma Rejections()
    ensures New("") == Err(Error(EMPTY))
    ensures New("aa") == Err(Error(UNSUPPORTED))
    ensures New("<BOO>") == Err(Error(UNSUPPORTED))
    ensures New("<B") == Err(Error(UNSUPPORTED))
    ensures New("<>") == Err(Error(UNSUPPORTED))
    ensures New("<") == Err(Error(UNSUPPORTED))
    ensures New(" ") == Err(Error(UNSUPPORTED))
    ensures New("<s-é>") == Err(Error(UNSUPPORTED))
  {
    BareChar(' ');
    BareChar('<');
    assert !IsAscii("<s-é>") by { assert "<s-é>"[3] as int >= 128; }
  }
}
