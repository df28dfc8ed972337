/**
  The `fontStyles` registry of src/services/fontStyles.ts: fifteen styles in
  a fixed order, each an arithmetic remap onto a block of Mathematical
  Alphanumeric Symbols or a literal-table substitution (optionally followed
  by reversing the result).
 */
module FontStyles {
  import opened CodePoints
  import opened Sequences
  import opened ArithmeticRemap
  import opened Substitution
  import opened StyleTables

  /** How a style rewrites text. */
  datatype Transform =
    /** `charMap(t, startCode, asciiOffset)`. */
    | Arith(startCode: int, asciiOffset: int)
    /** Per-character lookup; `lowerKey` lowers the key first, `reverse` reverses the result. */
    | Table(table: map<char, char>, lowerKey: bool, reverse: bool)
  {
    /** A remap whose targets are all characters, so it never throws. */
    predicate Valid() {
      Arith? ==> ValidBlock(startCode, asciiOffset)
    }

    /** Whether the style reverses the order of its output. */
    predicate Reverses() {
      Table? && reverse
    }

    /** Whether the style keeps `c` as it is: a non-letter for a remap, a character without key for a table. */
    predicate Keeps(c: char) {
      match this
      case Arith(_, _) => !IsAsciiLetter(c)
      case Table(table, lowerKey, _) => Key(c, lowerKey) !in table
    }
  }

  /** A transform that never throws. */
  type ValidTransform = tr: Transform | tr.Valid() witness Arith(0, 26)

  /** A style of the registry: its key, its display label, its transform. */
  datatype FontStyle = FontStyle(id: string, name: string, transform: ValidTransform)

  /** One rendered style, as handed to the page. */
  datatype GeneratedResult = GeneratedResult(styleName: string, text: string)

  /** The output position that input position `i` of a length-`n` text lands on. */
  function Landing(tr: Transform, n: int, i: int): int {
    if tr.Reverses() then n - 1 - i else i
  }

  /** A style's `generate(t)`. */
  function Generate(tr: Transform, t: string): (r: string)
    requires tr.Valid()
    ensures |r| == |t|
    ensures forall i :: 0 <= i < |t| && tr.Keeps(t[i]) ==> r[Landing(tr, |t|, i)] == t[i]
  {
    match tr
    case Arith(startCode, asciiOffset) =>
      ValidBlockTotal(t, startCode, asciiOffset);
      CharMap(t, startCode, asciiOffset).value
    case Table(table, lowerKey, reverse) =>
      var s := Substitute(table, lowerKey, t);
      if reverse then Reverse(s) else s
  }

  // The registry entries, lines 21-118.
  const BoldSerif := FontStyle("bold-serif", "Bold Serif", Arith(0x1D400, 26))
  const ItalicSerif := FontStyle("italic-serif", "Italic Serif", Arith(0x1D434, 26))
  const BoldItalicSerif := FontStyle("bold-italic-serif", "Bold Italic", Arith(0x1D468, 26))
  const Script := FontStyle("script", "Script", Arith(0x1D49C, 26))
  const BoldScript := FontStyle("bold-script", "Bold Script", Arith(0x1D4D0, 26))
  const Fraktur := FontStyle("fraktur", "Fraktur / Gothic", Arith(0x1D504, 26))
  const BoldFraktur := FontStyle("bold-fraktur", "Bold Fraktur", Arith(0x1D56C, 26))
  const DoubleStruck := FontStyle("double-struck", "Double Struck (Outline)", Arith(0x1D538, 26))
  const SansBold := FontStyle("sans-bold", "Sans Bold", Arith(0x1D5D4, 26))
  const SansItalic := FontStyle("sans-italic", "Sans Italic", Arith(0x1D608, 26))
  const Monospace := FontStyle("monospace", "Monospace", Arith(0x1D670, 26))
  const BubblesStyle := FontStyle("bubbles", "Bubbles", Table(Bubbles, false, false))
  const SquaresStyle := FontStyle("squares", "Squares", Table(Squares, false, false))
  const SmallCapsStyle := FontStyle("small-caps", "Small Caps", Table(SmallCaps, true, false))
  const ReversedStyle := FontStyle("reversed", "Reversed", Table(Flipped, false, true))

  /** The registry, in the order the page renders it. */
  const Registry: seq<FontStyle> := [
    BoldSerif, ItalicSerif, BoldItalicSerif, Script, BoldScript, Fraktur,
    BoldFraktur, DoubleStruck, SansBold, SansItalic, Monospace,
    BubblesStyle, SquaresStyle, SmallCapsStyle, ReversedStyle
  ]

  /** The "bubbles" style's output. */
  function Bubbled(t: string): string {
    Generate(BubblesStyle.transform, t)
  }

  /** The "squares" style's output. */
  function Squared(t: string): string {
    Generate(SquaresStyle.transform, t)
  }

  /** The "small-caps" style's output. */
  function SmallCapped(t: string): string {
    Generate(SmallCapsStyle.transform, t)
  }

  /** The "reversed" style's output. */
  function Reversed(t: string): string {
    Generate(ReversedStyle.transform, t)
  }

  /**
    Each style works one character at a time, so a style that keeps order
    maps a concatenation to the concatenation of the images, and the
    flip-text style to the concatenation turned around.
   */
  lemma GenerateAppend(tr: Transform, a: string, b: string)
    requires tr.Valid()
    ensures !tr.Reverses() ==> Generate(tr, a + b) == Generate(tr, a) + Generate(tr, b)
    ensures tr.Reverses() ==> Generate(tr, a + b) == Generate(tr, b) + Generate(tr, a)
  {
    match tr
    case Arith(startCode, asciiOffset) =>
      CharMapAppend(a, b, startCode, asciiOffset);
    case Table(table, lowerKey, reverse) =>
      SubstituteAppend(table, lowerKey, a, b);
      if reverse {
        ReverseAppend(Substitute(table, lowerKey, a), Substitute(table, lowerKey, b));
      }
  }

  /**
    Text in which no character is looked up under a letter key comes back
    as it was, reversed by the flip-text style.
   */
  lemma GenerateLetterFree(tr: Transform, t: string)
    requires tr.Valid()
    requires tr.Table? ==> LetterKeyed(tr.table)
    requires forall i :: 0 <= i < |t| ==> Untouched(t[i], tr.Table? && tr.lowerKey)
    ensures Generate(tr, t) == if tr.Reverses() then Reverse(t) else t
  {
    match tr
    case Arith(startCode, asciiOffset) =>
      IdentityOnLetterFree(t, startCode, asciiOffset);
    case Table(table, lowerKey, _) =>
      var sub := Substitute(table, lowerKey, t);
      forall i | 0 <= i < |t|
        ensures sub[i] == t[i]
      {
        PassThrough(table, lowerKey, t, i);
      }
      assert sub == t;
  }

  /**
    Every style applied to the same text, one result per registered style,
    in registry order, each labelled with its style's display name.
   */
  function ApplyAll(text: string): (r: seq<GeneratedResult>)
    ensures |r| == |Registry|
    ensures forall i :: 0 <= i < |r| ==> r[i].styleName == Registry[i].name && |r[i].text| == |text|
    ensures forall i :: 0 <= i < |r| ==> r[i].text == Generate(Registry[i].transform, text)
  {
    seq(|Registry|, i requires 0 <= i < |Registry| => GeneratedResult(Registry[i].name, Generate(Registry[i].transform, text)))
  }
}
