# viks key notation in Dafny

This project models the core of the Rust crate `viks`, a parser for vim-like
key notation. It covers three pieces:

- `Key::new` turns one key token into a key, or into an error carrying a message. A `Key` is a key code plus the modifiers held with it. Tokens look like `a`, `A`, `<c-a>`, `<S-Tab>` or `<cr>`.
- The closed `KeyCode` table and its byte conversions, `from_ascii` and `as_ascii`.
- The three-flag `KeyModifier` bitset, with `KeyModifiers` answering which flags are held.

`src/lib.rs` repeats `KeyCode`, `KeyModifiers` and `KeyModifier`. The copies there match
`src/code.rs` and `src/modifier.rs`, so they are modelled once and shared. The one
extra member in `src/lib.rs` is `is_none`.

Modules and files:

- `Code` (`code.dfy`): `KeyCode` is a newtype over its discriminant, which is exactly the byte values the Rust enum lists. Each of the 74 variants is a named constant, spelled as in the source (including `ReverseSolidas` and `VirticalLine`). `FromAscii` returns `Converted(code)`, or `NotAscii` for the panic on bytes of 128 and up. Its precondition says the byte is 128 or more, or else a listed discriminant. That is the condition under which the source's `transmute` is defined.
- `Modifier` (`modifier.dfy`): a `KeyModifier` is a 3-bit value. `Flags` reads a value as the set of flags it holds, listed value by value. `BitAnd` and `BitOr` are proved to be intersection and union of those sets.
- `Viks` (`key.dfy`): `Key`, `Error`, `Result`, and `New`, the model of `Key::new`. `New` checks its conditions in the same order as the source. After the ASCII check, byte offsets and character indices agree, so `chars().nth(i)` and `&tag[a..b]` become sequence indexing and slicing. Every slice is proved to be in range.
- `Notation` (`notation.dfy`): a generative description of the accepted notation: tokens, their spelling `Spell` and their meaning `Meaning`. The token structure and its spelling are independent of `New`; the leaf lookups (`NamedCode`, `Lowercase`, `ModifierLetter`, `BitOr`) are shared with it, and each of them has its own full contract. `New` is proved to accept exactly the spellings of well-formed tokens (`AcceptedLanguage`) and to give each of them its meaning (`Soundness`, `Completeness`).
- `KeyProperties` (`properties.dfy`): equal spellings, how modifiers combine, the doc-test example, the named keys and the rejections.

## Model

| member | source | states |
|---|---|---|
| Code.IsDiscriminant | src/code.rs:3-78 | the 74 values the enum lists: 8, 9, 13, 27, 32..96 and 123..127; every one is ASCII, between 8 and 127 |
| Code.Discriminant | src/code.rs:3-78 | a variant's value is one of the listed discriminants and is below 128 |
| Code.DiscriminantInjective | src/code.rs:3-78 | two variants have the same discriminant exactly when they are the same variant; with a variant modelled as its discriminant, this holds by construction |
| Code.ContiguousLettersAndDigits | src/code.rs:24-66 | `A`..`Z` are 65..90 and `Digit0`..`Digit9` are 48..57, and every byte in those two ranges is a variant |
| Code.ConvertibleBytes | src/code.rs:3-78 | a byte is some variant's discriminant exactly when it is listed; 97..122 (lower-case letters) are not; below 32 only 8, 9, 13 and 27 are |
| Code.FromAscii | src/code.rs:81-87 | a byte of 128 or more is the panic outcome and no other byte is; any other byte converts to the variant whose discriminant is that byte |
| Code.AsAscii | src/code.rs:89-91 | always succeeds with the character whose code point is the discriminant, which is below 128 |
| Code.AsciiRoundTrip | src/code.rs:81-91 | `from_ascii(as_ascii(k) as u8)` gives back `k` for every variant |
| Modifier.Bit | src/modifier.rs:20-25 | each flag's variant is a single nonzero bit |
| Modifier.BitAnd | src/modifier.rs:27-33 | the flags of `a & b` are the flags held by both operands |
| Modifier.BitOr | src/modifier.rs:35-41 | the flags of `a \| b` are the flags held by either operand |
| Modifier.KeyModifiers.IsShift | src/modifier.rs:5-7 | true exactly when Shift is among the held flags |
| Modifier.KeyModifiers.IsCtrl | src/modifier.rs:9-11 | true exactly when Control is among the held flags |
| Modifier.KeyModifiers.IsAlt | src/modifier.rs:13-15 | true exactly when Alt is among the held flags |
| Modifier.KeyModifiers.IsNone | src/lib.rs:304-306 | true exactly when no flag is held |
| Modifier.FlagBitsDistinct | src/modifier.rs:20-25 | Shift, Control and Alt are distinct, disjoint bits, each holding only its own flag, and `None` holds no flag |
| Modifier.EqualityIsFlagEquality | src/modifier.rs:1-2 | two modifier values are equal exactly when they hold the same flags |
| Modifier.MaskWithFlag | src/modifier.rs:27-33 | `m & f` for one flag `f` is `f` when `m` holds it and `None` otherwise |
| Modifier.BitOrLaws | src/modifier.rs:35-41 | `\|` has `None` as identity and is idempotent, commutative and associative |
| Modifier.UnionLeavesVariants | src/modifier.rs:35-41 | `Shift \| Control` is 3, which is none of the four named variants |
| Viks.IsAscii | src/lib.rs:109 | `str::is_ascii`: every character is below 128 |
| Viks.IsAsciiUppercase | src/lib.rs:122 | `char::is_ascii_uppercase`: the character is in `A`..`Z` |
| Viks.IsAsciiDigit | src/lib.rs:136 | `char::is_ascii_digit`: the character is in `0`..`9` |
| Viks.PUNCTUATION | src/lib.rs:132-134 | the 31 punctuation marks a one-character tag may be |
| Viks.ToAsciiUpper | src/lib.rs:128 | lower-case ASCII letters move down by 32 (`a`..`z` to `A`..`Z`); every other character is kept |
| Viks.ToAsciiLower | src/lib.rs:160 | upper-case ASCII letters move up by 32 (`A`..`Z` to `a`..`z`); every other character is kept |
| Viks.Lowercase | src/lib.rs:178 | same length, with each character lowered on its own |
| Viks.ParseChar | src/lib.rs:117-144 | a rejection carries "unsupported key format"; an accepted character gives the code of its upper-case form, Shift exactly when it is an upper-case letter, and never Control or Alt; `from_ascii` gets only discriminants |
| Viks.IsModded | src/lib.rs:153 | the character at index 2 exists and is `-`; a modded tag that ends in `>` is at least 4 long, so the slice from index 3 is in range |
| Viks.ModifierLetter | src/lib.rs:159-168 | `a`/`A` selects Alt, `c`/`C` Control, `s`/`S` Shift, and any other character no modifier |
| Viks.NAMES | src/lib.rs:178-186 | the nine names of the named-key table |
| Viks.NamedCode | src/lib.rs:178-187 | a code exists exactly for the nine names; Enter exactly for `enter` and `cr`, Tab for `tab`, Esc for `esc`, Space for `leader` and `space`, Backspace for `bs`, Delete for `del`, the less-than sign for `lt` |
| Viks.TagBase | src/lib.rs:153-158 | a modded tag is at least 4 long and its base runs from index 3 to before the last character; otherwise the base runs from index 1; both slices are in range |
| Viks.New | src/lib.rs:106-193 | a non-ASCII tag is rejected with "unsupported key format"; a rejection says "format is empty" exactly for the empty tag; an accepted tag is ASCII and non-empty, and if longer than one character it is bracketed `<…>` with something inside |
| Notation.PunctuationIsKeyChars | src/lib.rs:132-134 | the punctuation list is exactly the printable ASCII characters that are not letters, digits, `<` or the space |
| Notation.BareChar | src/lib.rs:117-144 | a one-character tag is accepted exactly when it is printable ASCII other than the space and `<`, giving that character's key |
| Notation.NamesAreLowercase | src/lib.rs:178-187 | every table name is ASCII and lowers to itself |
| Notation.NameShape | src/lib.rs:153-187 | a base that lowers to a table name is at least two long and has no dash second, so its bracketed spelling is never read as modded |
| Notation.SoundSingle | src/lib.rs:153-176 | `<c>` and `<m-c>` give the key of `c` with the letter's modifier OR'd in |
| Notation.SoundNamedPlain | src/lib.rs:178-192 | `<name>` gives the named code with no modifier |
| Notation.SoundNamedModded | src/lib.rs:153-192 | `<m-name>` gives the named code with the letter's modifier |
| Notation.Soundness | src/lib.rs:106-193 | every well-formed token's spelling is accepted with that token's meaning |
| Notation.AcceptedBracket | src/lib.rs:147-192 | an accepted tag longer than one character is bracketed and ASCII, and its base is an accepted character or a table name |
| Notation.CompleteSingle | src/lib.rs:170-176 | an accepted tag with a one-character base is the spelling of a well-formed bracketed single |
| Notation.CompleteNamed | src/lib.rs:178-192 | an accepted tag with a longer base is the spelling of a well-formed bracketed name |
| Notation.SpellNamed | src/lib.rs:153-158 | a bracketed tag is its opening, its base and its closing bracket |
| Notation.Completeness | src/lib.rs:106-193 | every accepted tag is a well-formed token's spelling, and the key it gives is that token's meaning |
| Notation.AcceptedLanguage | src/lib.rs:106-193 | a tag is accepted exactly when it is the spelling of some well-formed token |
| KeyProperties.ShiftSpellingsAgree | src/lib.rs:170-176 | for every letter, `X`, `<s-x>` and `<S-X>` give the same key: that letter's code with Shift alone |
| KeyProperties.ControlWithUpperLetter | src/lib.rs:170-176 | `<c-X>` with an upper-case letter holds exactly Shift and Control |
| KeyProperties.OneLevelOfRecursion | src/lib.rs:170-176 | a one-character base is parsed by the one-character rule directly, and only the bracket's modifier is added to the result or its error |
| KeyProperties.UnknownModifierLetterIgnored | src/lib.rs:159-176 | a modifier letter other than a, c or s in either case is silently ignored: `<x-c>` gives exactly what `c` gives, the same key when `c` is a key character and the same error otherwise |
| KeyProperties.NamedKeysIgnoreCase | src/lib.rs:160-187 | named keys are accepted whatever the case of the name and of the modifier letter |
| KeyProperties.DocTestExample | src/lib.rs:65-68 | `A`, `<s-a>` and `<S-A>` are the same key: A with Shift |
| KeyProperties.ControlExample | src/lib.rs:159-176 | `<c-A>` is A with Shift and Control |
| KeyProperties.IgnoredLetterExample | src/lib.rs:159-176 | `<x-a>` and `a` are A with no modifier |
| KeyProperties.NamedKey | src/lib.rs:178-192 | `<name>` gives the table's code with no modifier, for every table name |
| KeyProperties.CrExample | src/lib.rs:178-179 | `<CR>` is Enter |
| KeyProperties.EnterExample | src/lib.rs:178-179 | `<enter>` is Enter |
| KeyProperties.LeaderExample | src/lib.rs:182 | `<leader>` is Space |
| KeyProperties.SpaceExample | src/lib.rs:182 | `<space>` is Space |
| KeyProperties.TabExample | src/lib.rs:180 | `<tab>` is Tab |
| KeyProperties.EscExample | src/lib.rs:181 | `<esc>` is Esc |
| KeyProperties.DeleteExample | src/lib.rs:184 | `<del>` is Delete |
| KeyProperties.BackspaceExample | src/lib.rs:183 | `<bs>` is Backspace |
| KeyProperties.LessThanExample | src/lib.rs:185 | `<lt>` is the less-than sign, which `<` alone does not give |
| KeyProperties.Rejections | src/lib.rs:109-151 | the empty tag gets "format is empty"; `aa`, `<BOO>`, `<B`, `<>`, `<`, the space and a non-ASCII tag get "unsupported key format" |

## Left out

- The `Keymap` tokenizer and the `Display`/`to_string` rendering of keys and keymaps are not part of this model. The doc test at src/lib.rs:20-23 and src/serde_impl.rs use them, but their code is not among the modelled files.
- src/serde_impl.rs is glue over the external `serde` crate and is left out.
- The `Display` implementations in src/error.rs and src/lib.rs:46-52 are formatter plumbing and are left out. The error is modelled as a datatype carrying its message.
- The `transmute` mechanics and the `#[repr(u8)]` layout are not modelled. `KeyCode` is its discriminant, and `KeyModifier` is its three bits.
- The panic in `from_ascii` is not control flow in the model. It is the distinct outcome `NotAscii`.
- `Viks.ParseChar` has no branch for the failure of `char::from_str` (src/lib.rs:118-120). A one-byte ASCII string is always exactly one character, so that branch cannot be reached.
- `Viks.Lowercase` lowers ASCII letters only, where Rust's `str::to_lowercase` is Unicode-aware. The two agree on ASCII input, and `New` lowers only after the ASCII check.
- `Key` equality is structural. `Key` in src/lib.rs:57 derives no `PartialEq`, so the doc test's `assert_eq!` relies on an implementation that is not part of this model.

## Findings

| source | as written | input that shows it | evidently intended | confidence | as-written member | corrected member |
|---|---|---|---|---|---|---|
| src/modifier.rs:35-41 | `bitor` transmutes `self as u8 \| rhs as u8` back into the `KeyModifier` enum. The enum has only the variants 0, 1, 2 and 4, so `Shift \| Control` produces the value 3, which is no variant, and that transmute is undefined behaviour in Rust | `Key::new("<c-A>")`, which reaches src/lib.rs:173 with `Shift \| Control` | modifiers kept as a bitset able to hold any combination of the three flags | high; not executed | Modifier.UnionLeavesVariants | Modifier.BitOr |
