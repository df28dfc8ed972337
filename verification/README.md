# Stylish-text engine: a Dafny model

This project models the Unicode "stylish text" engine of a small web tool
(`src/services/fontStyles.ts`). The engine turns a piece of text into fifteen
decorated renderings for social-media bios. It is a fixed, ordered registry
of pure string transforms of three kinds:

- **Arithmetic remap** (`charMap`, eleven styles). An uppercase ASCII letter
  goes to code point `startCode + (c - 65)`. A lowercase one goes to
  `startCode + asciiOffset + (c - 97)`. Every other character is kept. Every
  registered style passes `asciiOffset = 26`. The start codes are sub-blocks of
  the Mathematical Alphanumeric Symbols block (U+1D400..U+1D7FF).
- **Literal tables** (bubbles, squares, small caps). Each character is replaced
  by its table entry when it has one, and kept otherwise. Small caps looks
  the character up after lowering it.
- **Substitute, then reverse** (the "reversed" flip-text style).

Modules, leaves first:

| file | module | what it holds |
|---|---|---|
| `wrappers.dfy` | `Wrappers` | `Result`, used where the original throws |
| `code_points.dfy` | `CodePoints` | ASCII classes, `String.fromCodePoint` |
| `sequences.dfy` | `Sequences` | reversal |
| `utf16.dfy` | `Utf16` | the UTF-16 code units JavaScript strings are made of |
| `char_map.dfy` | `ArithmeticRemap` | `charMap`, its inverse `Unmap` |
| `style_tables.dfy` | `StyleTables` | the four literal tables, verbatim, and what they contain |
| `substitution.dfy` | `Substitution` | the table lookup `map[c] \|\| c`, including `toLowerCase` keys |
| `font_styles.dfy` | `FontStyles` | the `Transform` datatype, the 15-entry registry, `Generate`, `ApplyAll` |
| `style_properties.dfy` | `StyleProperties` | what each registered style promises |
| `flip_text.dfy` | `FlipText` | the flip-text style on code units, as written, against the character-level model |

Modelling choices:

- Strings are sequences of Unicode scalar values (`char`), and `c as int` is
  a code point. JavaScript's `split('')` cuts text into UTF-16 code units. A
  character above U+FFFF becomes two surrogate halves. Neither half is an
  ASCII letter or a table key, so every order-keeping style passes both halves
  through and `join('')` puts them back together. On scalar sequences this is
  the same as passing the whole character through. The reversing style is the
  exception: `FlipText` models it on code units as written, and Findings
  shows where the two differ.
- `charMap` is modelled for any start code and offset, with its error path.
  `String.fromCodePoint` throws a `RangeError` for a code point below 0 or
  above U+10FFFF. Then the first letter whose target is out of range decides
  the error. A target among the surrogates U+D800..U+DFFF does not throw in
  JavaScript, but it yields a lone surrogate, which no sequence of scalars can
  hold. It is reported as a separate error, `LoneSurrogate`. No registered
  style comes near either case: `ValidTransform` rules both out, and every
  registry entry has that type.
- The tables are copied entry for entry, oddities included. A table that the
  source writes on two lines (one per case) is the union of two 26-entry maps.
  The squares table gives 'G' and 'g' the glyph U+1F13F, the same glyph as
  'P'. The intended glyph was presumably U+1F136. The model keeps the table
  as written and proves the collision (`SquaresCollision`).
- For small caps, `c.toLowerCase()` is modelled by `LowerKey`, which is exact
  as far as the lookup can tell. 'A'..'Z' lower to 'a'..'z', and U+212A KELVIN
  SIGN lowers to 'k'. Every other character lowers either to itself or to
  something that is not a single ASCII letter. Its lookup then fails, and the
  character is kept, just as when it is looked up unchanged. So the Kelvin sign
  comes out as the small capital of 'k' (`SmallCapsKelvin`).
- When the input is empty, the model's `ApplyAll` returns fifteen empty
  strings. It does not substitute a placeholder (`ApplyAllEmpty`).
- The code does blind arithmetic: it never checks whether a remapped code
  point is an assigned character. The Mathematical Alphanumeric block has
  reserved holes, for example at italic 'h' and at several script, Fraktur and
  double-struck capitals. The model does the same arithmetic and makes no
  claim about assignment.

## Model

| member | source | states |
|---|---|---|
| CodePoints.FromCodePoint | src/services/fontStyles.ts:9 | succeeds exactly on scalar code points and then yields the character with that code point; below 0 or above U+10FFFF it is a RangeError, on a surrogate a LoneSurrogate error, carrying the code point |
| ArithmeticRemap.Target | src/services/fontStyles.ts:8-14 | an uppercase letter's target lies in `[startCode, startCode+25]`, a lowercase letter's in `[startCode+asciiOffset, startCode+asciiOffset+25]` |
| ArithmeticRemap.RemapChar | src/services/fontStyles.ts:5-16 | one character: an uppercase letter becomes code point `startCode + (c - 65)`, a lowercase one `startCode + asciiOffset + (c - 97)`, any other character is kept; it fails exactly when a letter's target is not a character; the error carries that target and is a RangeError exactly when the target lies outside 0..U+10FFFF |
| ArithmeticRemap.CharMap | src/services/fontStyles.ts:4-18 | succeeds exactly when every character's step succeeds; then the output has one character per input character, at the same position, namely that character's step |
| ArithmeticRemap.CharMapFirstError | src/services/fontStyles.ts:5-17 | a failed remap reports the error `String.fromCodePoint` gives for the target of the first letter whose target is not a character (a RangeError when it lies outside 0..U+10FFFF); every earlier letter's target is a character |
| ArithmeticRemap.ValidBlockTotal | src/services/fontStyles.ts:8-15 | when both 26-letter target runs consist of characters, the remap never throws |
| ArithmeticRemap.IdentityOnLetterFree | src/services/fontStyles.ts:16 | text without ASCII letters comes back unchanged, for any start code and offset |
| ArithmeticRemap.CharMapAppend | src/services/fontStyles.ts:5-17 | the remap of a concatenation is the concatenation of the remaps |
| ArithmeticRemap.Unmap | src/services/fontStyles.ts:8-15 | the inverse of an offset-26 remap: `startCode..startCode+25` back to 'A'..'Z', `startCode+26..startCode+51` back to 'a'..'z', everything else kept, length preserved |
| ArithmeticRemap.UnmapAfterCharMap | src/services/fontStyles.ts:8-15 | unmapping a remapped text gives it back when it contains none of the 52 target code points |
| ArithmeticRemap.CharMapAfterUnmap | src/services/fontStyles.ts:8-15 | remapping an unmapped text gives it back when it contains no ASCII letter |
| ArithmeticRemap.CharMapInjective | src/services/fontStyles.ts:8-15 | two texts avoiding the 52 targets that remap to the same result are equal |
| ArithmeticRemap.CharMapRangeErrorExample | src/services/fontStyles.ts:9-14 | `charMap("Az", 0x10FFE0, 26)` throws a RangeError for the target of 'z', 0x10FFE0 + 51 |
| ArithmeticRemap.CharMapSurrogateExample | src/services/fontStyles.ts:9 | `charMap("A", 0xD800)` fails with `LoneSurrogate(0xD800)`, where JavaScript returns the lone surrogate "\uD800" without throwing (see Left out) |
| Sequences.Reverse | src/services/fontStyles.ts:116 | position `i` of the reversal is position `n-1-i` of the input, length kept |
| Sequences.ReverseInvolutive | src/services/fontStyles.ts:116 | reversing twice gives the sequence back |
| Sequences.ReverseAppend | src/services/fontStyles.ts:116 | the reversal of `a + b` is the reversal of `b` followed by the reversal of `a` |
| StyleTables.BubblesEntry | src/services/fontStyles.ts:80-83 | the circled table has exactly the 52 ASCII letters as keys, and its entry for a letter is code point U+24B6 + index for capitals and U+24D0 + index for small letters |
| StyleTables.SquaresEntry | src/services/fontStyles.ts:91-94 | the squared table has exactly the 52 letters as keys; the entry is U+1F130 plus the letter's alphabet index in either case, except U+1F13F for 'G' and 'g' |
| StyleTables.SquaresCaseBlind | src/services/fontStyles.ts:92-93 | a lowercase letter and its capital have the same squared glyph |
| StyleTables.SmallCapsEntry | src/services/fontStyles.ts:102-104 | the small-caps table has exactly 'a'..'z' as keys; 's' and 'x' map to themselves, every other entry is neither an ASCII letter nor the Kelvin sign |
| StyleTables.FlippedEntry | src/services/fontStyles.ts:112-115 | the flip table has exactly the 52 letters as keys, and every entry is a single UTF-16 code unit (below U+10000) |
| StyleTables.TablesLetterKeyed | src/services/fontStyles.ts:80-115 | all four tables are keyed by ASCII letters only |
| Substitution.LowerKey | src/services/fontStyles.ts:105 | the lookup key `c.toLowerCase()` as far as a letter-keyed table can tell: 'A'..'Z' lower to 'a'..'z' (code point + 32), U+212A KELVIN SIGN lowers to 'k', any other character is its own key |
| Substitution.SubstituteChar | src/services/fontStyles.ts:84 | the table lookup with fallback for one character: the entry of its key when the key is in the table, else the character itself; with a letter-keyed table a character that is not looked up under an ASCII letter always passes through, and a character only ever changes when its key is an ASCII letter |
| Substitution.Substitute | src/services/fontStyles.ts:84 | one output character per input character at the same position: the table entry of the character's key if it has one, else the character itself |
| Substitution.PassThrough | src/services/fontStyles.ts:84 | with a letter-keyed table, a character that is not an ASCII letter (nor the Kelvin sign when keys are lowered) is kept |
| Substitution.SubstituteAppend | src/services/fontStyles.ts:84 | the substitution of a concatenation is the concatenation of the substitutions |
| FontStyles.Generate | src/services/fontStyles.ts:20-119 | a style's output has the input's length, and every character the style keeps lands at its own position, or at the mirrored position for the flip-text style |
| FontStyles.GenerateAppend | src/services/fontStyles.ts:5-116 | an order-keeping style maps `a + b` to the image of `a` followed by that of `b`; the flip-text style to the image of `b` followed by that of `a` |
| FontStyles.GenerateLetterFree | src/services/fontStyles.ts:16-116 | text that no style may touch comes back unchanged, or reversed by the flip-text style |
| FontStyles.ApplyAll | src/components/FontGenerator.tsx:13-16 | one result per registered style, in registry order, labelled with the style's name, each as long as the input and equal to that style's output |
| StyleProperties.RegistrySize | src/services/fontStyles.ts:20-119 | the registry holds fifteen styles |
| StyleProperties.RegistryRemaps | src/services/fontStyles.ts:21-75 | the first eleven are remaps with lowercase offset 26 whose 52 targets lie in U+1D400..U+1D6A3 |
| StyleProperties.RegistryTables | src/services/fontStyles.ts:76-118 | the last four are bubbles, squares, small caps (lowered keys) and reversed (reversing), in that order, over the literal tables |
| StyleProperties.RegistryIdsDistinct | src/services/fontStyles.ts:20-119 | no two styles share an `id` |
| StyleProperties.ArithLetterImage | src/services/fontStyles.ts:8-75 | under a registered remap a capital lands in `[base, base+25]`, a small letter in `[base+26, base+51]`, and every image in U+1D400..U+1D6A3, so `fromCodePoint` cannot throw |
| StyleProperties.ArithLettersDistinct | src/services/fontStyles.ts:8-15 | distinct letters get distinct images |
| StyleProperties.ArithOutput | src/services/fontStyles.ts:4-75 | a registered remap replaces a character exactly when it is an ASCII letter, by its arithmetic image, which lies in U+1D400..U+1D6A3 |
| StyleProperties.ArithRoundTrip | src/services/fontStyles.ts:4-75 | a registered remap is undone by `Unmap` on text that avoids its 52 targets |
| StyleProperties.BoldSerifExample | src/services/fontStyles.ts:21-25 | Bold Serif turns "AZaz" into U+1D400, U+1D419, U+1D41A, U+1D433 |
| StyleProperties.BubblesIsRemap | src/services/fontStyles.ts:76-86 | the bubbles style equals `charMap(t, 0x24B6, 26)` on every input |
| StyleProperties.BubblesReplacesLetters | src/services/fontStyles.ts:84 | bubbles replaces a character exactly when it is an ASCII letter |
| StyleProperties.BubblesRoundTrip | src/services/fontStyles.ts:76-86 | bubbles is undone by `Unmap` at U+24B6 on text that avoids U+24B6..U+24E9 |
| StyleProperties.SquaresReplacesLetters | src/services/fontStyles.ts:95 | squares replaces a character exactly when it is an ASCII letter |
| StyleProperties.SquaresCaseInsensitive | src/services/fontStyles.ts:91-95 | squares gives the same output for a text and its ASCII upper-casing |
| StyleProperties.SquaresCollision | src/services/fontStyles.ts:92-93 | squares turns both "G" and "P" into U+1F13F, so it is not injective |
| StyleProperties.SmallCapsCaseInsensitive | src/services/fontStyles.ts:105 | small caps gives the same output for a text and its ASCII lower-casing |
| StyleProperties.SmallCapsKelvin | src/services/fontStyles.ts:105 | the Kelvin sign and 'k' both become U+1D0B |
| StyleProperties.SmallCapsIdempotent | src/services/fontStyles.ts:103-105 | applying small caps twice equals applying it once |
| StyleProperties.TableReversedBackwards | src/services/fontStyles.ts:116 | for any table, position `j` of a substitute-then-reverse style's output is the substitution of input position `n-1-j` |
| StyleProperties.ReversedIsFlippedBackwards | src/services/fontStyles.ts:113-116 | position `j` of the flip-text output is the substitution of input position `n-1-j` |
| StyleProperties.ReversedLetterFree | src/services/fontStyles.ts:116 | on text without ASCII letters the flip-text style is plain reversal |
| StyleProperties.ApplyAllEmpty | src/components/FontGenerator.tsx:13-16 | for empty input every style yields the empty string |
| Utf16.EncodeChar | src/services/fontStyles.ts:116 | a character below U+10000 is one code unit; any other is a high surrogate then a low surrogate that decode back to its code point |
| Utf16.Encode | src/services/fontStyles.ts:116 | a string has at least one code unit per character, exactly one each when no character is above U+FFFF |
| Utf16.EncodeWellFormed | src/services/fontStyles.ts:116 | the code units of any string are well-formed UTF-16 |
| Utf16.JoinAppend | src/services/fontStyles.ts:116 | `join('')` of two runs of pieces is the join of the first run followed by the join of the second |
| Utf16.JoinPieces | src/services/fontStyles.ts:116 | joining each character's code units gives the string's code units |
| Utf16.EncodeBmp | src/services/fontStyles.ts:116 | a string of characters below U+10000 is encoded unit for character |
| FlipText.UnitPiece | src/services/fontStyles.ts:116 | the table lookup with fallback for one code unit gives one or two code units; a surrogate half is never a key and always passes through on its own, which is what lets reversal separate a pair |
| FlipText.ReversedAsWritten | src/services/fontStyles.ts:116 | the flip-text style as written: as many code units out as in, and unit `j` of the output is the substituted input unit `j` places from the end |
| FlipText.ReversedAsWrittenSplitsPair | src/services/fontStyles.ts:116 | the flip-text style as written turns U+1F600 into the code units DE00 D83D, which are not well-formed UTF-16 |
| FlipText.AsWrittenAgreesOnBmp | src/services/fontStyles.ts:108-117 | on text without characters above U+FFFF the style as written and the character-level style give the same code units |
| FlipText.ReversesWholeCharacters | src/services/fontStyles.ts:116 | for any table, the character-level substitute-then-reverse style yields the join of the reversed code-unit pieces of whole substituted characters, not of single code units |
| FlipText.ReversedWellFormed | src/services/fontStyles.ts:116 | the flip-text instance of `ReversesWholeCharacters`; separately, its output, like that of any string, is well-formed UTF-16 |
| FlipText.ReversedKeepsPair | src/services/fontStyles.ts:116 | the character-level flip-text style keeps U+1F600 as the units D83D DE00 |

## Left out

- Password-strength estimation and password generation: the application
  imports them (`App.tsx:3-4`), but their components are not part of this
  model. `types.ts` declares only interface shapes for them.
- `FontGenerator.tsx` is user-interface code: React state and effects,
  clipboard writes, the two-second copy-status timer and rendering. The
  model keeps only the map over the registry, as `ApplyAll`. The component
  replaces blank input (after `trim()`) with the placeholder
  "Type something..." before styling. That is a page-level default; the
  model's `ApplyAll` styles the text it is given.
- `App.tsx` is page layout only.
- String lengths in UTF-16 code units. In JavaScript, an output character
  above U+FFFF has `.length` 2. The model counts characters.
- `charMap` with a fractional or non-numeric `startCode`: JavaScript numbers
  are floating point, but the model takes integers, and every call in the
  source passes an integer literal.
- FontStyles.Generate: for the flip-text style this is the corrected,
  character-level reversal. On text with a character above U+FFFF it differs
  from the original, which reverses code units (see Findings;
  `FlipText.ReversedAsWritten` models the original). `ApplyAll` inherits this.
- CodePoints.FromCodePoint: on a surrogate code point (U+D800..U+DFFF)
  JavaScript returns a string holding a lone surrogate and does not throw.
  The model fails with `LoneSurrogate` instead, because a Dafny `char` cannot
  hold a surrogate. No registered style reaches one.
- ArithmeticRemap.CharMapSurrogateExample: JavaScript returns the lone
  surrogate "\uD800" for this call rather than throwing. The lemma pins the
  model's `LoneSurrogate(0xD800)` failure, for the reason given under
  `CodePoints.FromCodePoint`.
- ArithmeticRemap.CharMap: a surrogate target makes
  JavaScript build a string holding a lone surrogate rather than throw. The
  model reports `LoneSurrogate` instead, because a sequence of scalar values
  cannot hold one. No registered style reaches it.

## Findings

| source | as written | input that shows it | evidently intended | confidence | as-written member | corrected member |
|---|---|---|---|---|---|---|
| src/services/fontStyles.ts:116 | the flip-text style reverses the array of UTF-16 code units that `split('')` produces, so a character above U+FFFF has its surrogate pair swapped | "\u{1F600}" (an emoji) comes out as the code units DE00 D83D, a lone low surrogate followed by a lone high one | reverse whole characters, keeping every surrogate pair in order, so the output is well-formed text | medium, not executed | FlipText.ReversedAsWrittenSplitsPair | FlipText.ReversesWholeCharacters |

The rest of the model uses the character-level style (`FontStyles.Reversed`).
`FlipText.AsWrittenAgreesOnBmp` shows that the two agree wherever the text has
no character above U+FFFF.
