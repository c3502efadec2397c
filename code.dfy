/** Key codes: the closed set of `KeyCode` variants. The enum is `#[repr(u8)]`
    and every discriminant is the variant's ASCII code point, so a variant is
    modelled by its discriminant: a value restricted to the 74 code points that
    have a variant, with one named constant per variant. */
module Code {

  /** An unsigned 8-bit integer, the `u8` the conversions work on. */
  type byte = x: int | 0 <= x < 256

  /** The code points that have a variant: Backspace, Tab, Enter, Esc, the range
      from Space to the grave accent, and the range from the left curly bracket
      to Delete. */
  predicate IsDiscriminant(b: int)
    ensures IsDiscriminant(b) ==> 8 <= b < 128
  {
    b == 8 || b == 9 || b == 13 || b == 27 || 32 <= b <= 96 || 123 <= b <= 127
  }

  /** A variant, as its discriminant. Two variants are equal exactly when their
      discriminants are. */
  newtype KeyCode = b: int | IsDiscriminant(b) witness 8

  // The variants, with the names (misspellings included) the enum gives them.
  const Backspace: KeyCode := 8
  const Tab: KeyCode := 9
  const Enter: KeyCode := 13
  const Esc: KeyCode := 27
  const Space: KeyCode := 32
  const ExclamationMark: KeyCode := 33
  const QuotationMark: KeyCode := 34
  const NumberSign: KeyCode := 35
  const DollarSign: KeyCode := 36
  const PercentSign: KeyCode := 37
  const Ampersand: KeyCode := 38
  const Apostrophe: KeyCode := 39
  const LeftParenthesis: KeyCode := 40
  const RightParenthesis: KeyCode := 41
  const Asterisk: KeyCode := 42
  const PlusSign: KeyCode := 43
  const Comma: KeyCode := 44
  const HyphenMinus: KeyCode := 45
  const FullStop: KeyCode := 46
  const Solidus: KeyCode := 47
  const Digit0: KeyCode := 48
  const Digit1: KeyCode := 49
  const Digit2: KeyCode := 50
  const Digit3: KeyCode := 51
  const Digit4: KeyCode := 52
  const Digit5: KeyCode := 53
  const Digit6: KeyCode := 54
  const Digit7: KeyCode := 55
  const Digit8: KeyCode := 56
  const Digit9: KeyCode := 57
  const Colon: KeyCode := 58
  const Semicolon: KeyCode := 59
  const LessThanSign: KeyCode := 60
  const EqualSign: KeyCode := 61
  const GreaterThanSign: KeyCode := 62
  const QuestionMark: KeyCode := 63
  const CommercialAt: KeyCode := 64
  const A: KeyCode := 65
  const B: KeyCode := 66
  const C: KeyCode := 67
  const D: KeyCode := 68
  const E: KeyCode := 69
  const F: KeyCode := 70
  const G: KeyCode := 71
  const H: KeyCode := 72
  const I: KeyCode := 73
  const J: KeyCode := 74
  const K: KeyCode := 75
  const L: KeyCode := 76
  const M: KeyCode := 77
  const N: KeyCode := 78
  const O: KeyCode := 79
  const P: KeyCode := 80
  const Q: KeyCode := 81
  const R: KeyCode := 82
  const S: KeyCode := 83
  const T: KeyCode := 84
  const U: KeyCode := 85
  const V: KeyCode := 86
  const W: KeyCode := 87
  const X: KeyCode := 88
  const Y: KeyCode := 89
  const Z: KeyCode := 90
  const LeftSquareBracket: KeyCode := 91
  const ReverseSolidas: KeyCode := 92
  const RightSquareBracket: KeyCode := 93
  const CircumflexAccent: KeyCode := 94
  const LowLine: KeyCode := 95
  const GraveAccent: KeyCode := 96
  const LeftCurlyBracket: KeyCode := 123
  const VirticalLine: KeyCode := 124
  const RightCurlyBracket: KeyCode := 125
  const Tilde: KeyCode := 126
  const Delete: KeyCode := 127

  /** The value `*self as u8` of a variant. */
  function Discriminant(k: KeyCode): (b: byte)
    ensures IsDiscriminant(b) && b < 128
  {
    assert IsDiscriminant(k as int);
    k as int
  }

  /** The outcome of `from_ascii`: a variant, or the panic it raises on a byte
      outside the ASCII range. */
  datatype Conversion = Converted(code: KeyCode) | NotAscii

  /** `KeyCode::from_ascii`. A byte of 128 or more panics. Any other byte is
      reinterpreted as the variant with that discriminant, which is sound only
      when there is one, so that is required of the caller. */
  function FromAscii(b: byte): (r: Conversion)
    requires b >= 128 || IsDiscriminant(b)
    ensures r.NotAscii? <==> b >= 128
    ensures r.Converted? ==> Discriminant(r.code) == b
  {
    if !(0 <= b < 128) then NotAscii else Converted(b as KeyCode)
  }

  /** `KeyCode::as_ascii`: never fails, and gives an ASCII character whose code
      point is the discriminant. */
  function AsAscii(k: KeyCode): (c: char)
    ensures c as int == Discriminant(k) && c as int < 128
  {
    Discriminant(k) as char
  }

  /** Converting a variant to its character and back gives the variant again. */
  lemma AsciiRoundTrip(k: KeyCode)
    ensures FromAscii(AsAscii(k) as int) == Converted(k)
  {
  }

  /** Distinct variants have distinct discriminants. */
  lemma DiscriminantInjective(j: KeyCode, k: KeyCode)
    ensures Discriminant(j) == Discriminant(k) <==> j == k
  {
  }

  /** A byte converts to a variant exactly when it is below 128 and one of the
      listed code points; in particular no lower-case letter and no control
      byte other than 8, 9, 13, 27 and 127 has a variant. */
  lemma ConvertibleBytes(b: byte)
    ensures (exists k: KeyCode :: Discriminant(k) == b) <==> IsDiscriminant(b)
    ensures 97 <= b <= 122 ==> !IsDiscriminant(b)
    ensures b < 32 ==> (IsDiscriminant(b) <==> b in {8, 9, 13, 27})
  {
    if IsDiscriminant(b) {
      assert Discriminant(b as KeyCode) == b;
    }
  }

  /** The letters A to Z are the contiguous code points 65 to 90 and the digits
      0 to 9 are 48 to 57. */
  lemma ContiguousLettersAndDigits()
    ensures A == 65 && Z == 90 && Digit0 == 48 && Digit9 == 57
    ensures forall b: byte :: 48 <= b <= 57 || 65 <= b <= 90 ==> IsDiscriminant(b)
  {
  }
}
