/** Key modifiers: the three-flag `KeyModifier` bitset and the `KeyModifiers`
    wrapper that answers which flags are held. */
module Modifier {

  /** The `u8` value a `KeyModifier` holds. The named variants are 0, 1, 2 and 4,
      and `|` and `&` of such values only ever produce values below 8, some of
      which (3, 5, 6, 7) are no named variant; three bits hold them all. */
  type KeyModifier = bv3

  const NONE: KeyModifier := 0
  const SHIFT: KeyModifier := 1
  const CONTROL: KeyModifier := 2
  const ALT: KeyModifier := 4

  /** The flags a modifier value can hold. */
  datatype Flag = Shift | Control | Alt

  /** The variant that holds exactly the flag `f`. */
  function Bit(f: Flag): (b: KeyModifier)
    ensures b != NONE && b & (b - 1) == 0
  {
    match f
    case Shift => SHIFT
    case Control => CONTROL
    case Alt => ALT
  }

  /** The flags a modifier value holds, listed value by value: the reference
      reading of the bit layout, against which the operators are proved. */
  function Flags(m: KeyModifier): set<Flag> {
    if m == 0 then {}
    else if m == 1 then {Shift}
    else if m == 2 then {Control}
    else if m == 3 then {Shift, Control}
    else if m == 4 then {Alt}
    else if m == 5 then {Shift, Alt}
    else if m == 6 then {Control, Alt}
    else {Shift, Control, Alt}
  }

  /** `BitAnd for KeyModifier`: the flags held by both operands. */
  function BitAnd(a: KeyModifier, b: KeyModifier): (r: KeyModifier)
    ensures Flags(r) == Flags(a) * Flags(b)
  {
    a & b
  }

  /** `BitOr for KeyModifier`: the flags held by either operand. */
  function BitOr(a: KeyModifier, b: KeyModifier): (r: KeyModifier)
    ensures Flags(r) == Flags(a) + Flags(b)
  {
    a | b
  }

  /** `KeyModifiers`: the modifier value a key carries, with its queries. */
  datatype KeyModifiers = KeyModifiers(bits: KeyModifier) {

    /** `is_shift`: the Shift bit is set. */
    predicate IsShift()
      ensures IsShift() <==> Shift in Flags(bits)
    {
      BitAnd(bits, SHIFT) == SHIFT
    }

    /** `is_ctrl`: the Control bit is set. */
    predicate IsCtrl()
      ensures IsCtrl() <==> Control in Flags(bits)
    {
      BitAnd(bits, CONTROL) == CONTROL
    }

    /** `is_alt`: the Alt bit is set. */
    predicate IsAlt()
      ensures IsAlt() <==> Alt in Flags(bits)
    {
      BitAnd(bits, ALT) == ALT
    }

    /** `is_none`: no bit is set. */
    predicate IsNone()
      ensures IsNone() <==> Flags(bits) == {}
    {
      bits == NONE
    }
  }

  /** Each flag is its own bit: the three bits are distinct and disjoint, and
      `None` holds no flag. */
  lemma FlagBitsDistinct(f: Flag, g: Flag)
    ensures Bit(f) == Bit(g) <==> f == g
    ensures f != g ==> Bit(f) & Bit(g) == NONE
    ensures Flags(Bit(f)) == {f}
    ensures Flags(NONE) == {}
  {
  }

  /** Two modifier values are equal exactly when they hold the same flags. */
  lemma EqualityIsFlagEquality(a: KeyModifier, b: KeyModifier)
    ensures a == b <==> Flags(a) == Flags(b)
  {
  }

  /** Masking with one flag's bit gives that bit when the flag is held and
      `None` otherwise, so the result is always a named variant. */
  lemma MaskWithFlag(m: KeyModifier, f: Flag)
    ensures BitAnd(m, Bit(f)) == if f in Flags(m) then Bit(f) else NONE
  {
  }

  /** `|` has `None` as identity and is idempotent, commutative and associative. */
  lemma BitOrLaws(a: KeyModifier, b: KeyModifier, c: KeyModifier)
    ensures BitOr(NONE, a) == a && BitOr(a, NONE) == a
    ensures BitOr(a, a) == a
    ensures BitOr(a, b) == BitOr(b, a)
    ensures BitOr(BitOr(a, b), c) == BitOr(a, BitOr(b, c))
  {
  }

  /** `Shift | Control` is 3, which is no named variant. */
  lemma UnionLeavesVariants()
    ensures BitOr(SHIFT, CONTROL) == 3
    ensures BitOr(SHIFT, CONTROL) !in {NONE, SHIFT, CONTROL, ALT}
  {
  }
}
