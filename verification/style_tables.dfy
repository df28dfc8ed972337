/**
  The four literal lookup tables of src/services/fontStyles.ts, entry for
  entry, oddities included. A table written on two source lines (one per
  letter case) is the union of two 26-entry maps, one per line. Values
  outside ASCII are written as their code points.
 */
module StyleTables {
  import opened CodePoints
  import Substitution
  import ArithmeticRemap

  /** Circled capitals U+24B6..U+24CF (line 81). */
  const BubblesUpper: map<char, char> := map[
    'A' := '\U{24B6}', 'B' := '\U{24B7}', 'C' := '\U{24B8}', 'D' := '\U{24B9}', 'E' := '\U{24BA}', 'F' := '\U{24BB}',
    'G' := '\U{24BC}', 'H' := '\U{24BD}', 'I' := '\U{24BE}', 'J' := '\U{24BF}', 'K' := '\U{24C0}', 'L' := '\U{24C1}',
    'M' := '\U{24C2}', 'N' := '\U{24C3}', 'O' := '\U{24C4}', 'P' := '\U{24C5}', 'Q' := '\U{24C6}', 'R' := '\U{24C7}',
    'S' := '\U{24C8}', 'T' := '\U{24C9}', 'U' := '\U{24CA}', 'V' := '\U{24CB}', 'W' := '\U{24CC}', 'X' := '\U{24CD}',
    'Y' := '\U{24CE}', 'Z' := '\U{24CF}'
  ]

  /** Circled small letters U+24D0..U+24E9 (line 82). */
  const BubblesLower: map<char, char> := map[
    'a' := '\U{24D0}', 'b' := '\U{24D1}', 'c' := '\U{24D2}', 'd' := '\U{24D3}', 'e' := '\U{24D4}', 'f' := '\U{24D5}',
    'g' := '\U{24D6}', 'h' := '\U{24D7}', 'i' := '\U{24D8}', 'j' := '\U{24D9}', 'k' := '\U{24DA}', 'l' := '\U{24DB}',
    'm' := '\U{24DC}', 'n' := '\U{24DD}', 'o' := '\U{24DE}', 'p' := '\U{24DF}', 'q' := '\U{24E0}', 'r' := '\U{24E1}',
    's' := '\U{24E2}', 't' := '\U{24E3}', 'u' := '\U{24E4}', 'v' := '\U{24E5}', 'w' := '\U{24E6}', 'x' := '\U{24E7}',
    'y' := '\U{24E8}', 'z' := '\U{24E9}'
  ]

  /** The case-sensitive circled table of the "bubbles" style (lines 80-83). */
  const Bubbles: map<char, char> := BubblesUpper + BubblesLower

  /** Squared capitals for 'A'..'Z' (line 92). */
  const SquaresUpper: map<char, char> := map[
    'A' := '\U{1F130}', 'B' := '\U{1F131}', 'C' := '\U{1F132}', 'D' := '\U{1F133}', 'E' := '\U{1F134}', 'F' := '\U{1F135}',
    'G' := '\U{1F13F}', 'H' := '\U{1F137}', 'I' := '\U{1F138}', 'J' := '\U{1F139}', 'K' := '\U{1F13A}', 'L' := '\U{1F13B}',
    'M' := '\U{1F13C}', 'N' := '\U{1F13D}', 'O' := '\U{1F13E}', 'P' := '\U{1F13F}', 'Q' := '\U{1F140}', 'R' := '\U{1F141}',
    'S' := '\U{1F142}', 'T' := '\U{1F143}', 'U' := '\U{1F144}', 'V' := '\U{1F145}', 'W' := '\U{1F146}', 'X' := '\U{1F147}',
    'Y' := '\U{1F148}', 'Z' := '\U{1F149}'
  ]

  /** The same squared capitals again for 'a'..'z' (line 93). */
  const SquaresLower: map<char, char> := map[
    'a' := '\U{1F130}', 'b' := '\U{1F131}', 'c' := '\U{1F132}', 'd' := '\U{1F133}', 'e' := '\U{1F134}', 'f' := '\U{1F135}',
    'g' := '\U{1F13F}', 'h' := '\U{1F137}', 'i' := '\U{1F138}', 'j' := '\U{1F139}', 'k' := '\U{1F13A}', 'l' := '\U{1F13B}',
    'm' := '\U{1F13C}', 'n' := '\U{1F13D}', 'o' := '\U{1F13E}', 'p' := '\U{1F13F}', 'q' := '\U{1F140}', 'r' := '\U{1F141}',
    's' := '\U{1F142}', 't' := '\U{1F143}', 'u' := '\U{1F144}', 'v' := '\U{1F145}', 'w' := '\U{1F146}', 'x' := '\U{1F147}',
    'y' := '\U{1F148}', 'z' := '\U{1F149}'
  ]

  /** The table of the "squares" style (lines 91-94). */
  const Squares: map<char, char> := SquaresUpper + SquaresLower

  /** Small capitals, keyed by lowercase letters only (lines 102-104). */
  const SmallCaps: map<char, char> := map[
    'a' := '\U{1D00}', 'b' := '\U{0299}', 'c' := '\U{1D04}', 'd' := '\U{1D05}', 'e' := '\U{1D07}', 'f' := '\U{0493}',
    'g' := '\U{0262}', 'h' := '\U{029C}', 'i' := '\U{026A}', 'j' := '\U{1D0A}', 'k' := '\U{1D0B}', 'l' := '\U{029F}',
    'm' := '\U{1D0D}', 'n' := '\U{0274}', 'o' := '\U{1D0F}', 'p' := '\U{1D18}', 'q' := '\U{01EB}', 'r' := '\U{0280}',
    's' := 's', 't' := '\U{1D1B}', 'u' := '\U{1D1C}', 'v' := '\U{1D20}', 'w' := '\U{1D21}', 'x' := 'x',
    'y' := '\U{028F}', 'z' := '\U{1D22}'
  ]

  /** Upside-down look-alikes of 'a'..'z' (line 113). */
  const FlippedLower: map<char, char> := map[
    'a' := '\U{0250}', 'b' := 'q', 'c' := '\U{0254}', 'd' := 'p', 'e' := '\U{01DD}', 'f' := '\U{025F}',
    'g' := '\U{0183}', 'h' := '\U{0265}', 'i' := '\U{1D09}', 'j' := '\U{027E}', 'k' := '\U{029E}', 'l' := 'l',
    'm' := '\U{026F}', 'n' := 'u', 'o' := 'o', 'p' := 'd', 'q' := 'b', 'r' := '\U{0279}',
    's' := 's', 't' := '\U{0287}', 'u' := 'n', 'v' := '\U{028C}', 'w' := '\U{028D}', 'x' := 'x',
    'y' := '\U{028E}', 'z' := 'z'
  ]

  /** Upside-down look-alikes of 'A'..'Z' (line 114). */
  const FlippedUpper: map<char, char> := map[
    'A' := '\U{2200}', 'B' := 'B', 'C' := '\U{0186}', 'D' := 'D', 'E' := '\U{018E}', 'F' := '\U{2132}',
    'G' := '\U{05E4}', 'H' := 'H', 'I' := 'I', 'J' := '\U{017F}', 'K' := '\U{029E}', 'L' := '\U{02E5}',
    'M' := 'W', 'N' := 'N', 'O' := 'O', 'P' := '\U{0500}', 'Q' := '\U{038C}', 'R' := '\U{1D1A}',
    'S' := 'S', 'T' := '\U{22A5}', 'U' := '\U{2229}', 'V' := '\U{039B}', 'W' := 'M', 'X' := 'X',
    'Y' := '\U{2144}', 'Z' := 'Z'
  ]

  /** The table of the "reversed" style (lines 112-115). */
  const Flipped: map<char, char> := FlippedLower + FlippedUpper

  /** An uppercase ASCII letter is one of the 26 literals. */
  lemma UpperCases(c: char)
    requires IsUpper(c)
    ensures c == 'A' || c == 'B' || c == 'C' || c == 'D' || c == 'E' || c == 'F' || c == 'G' || c == 'H' || c == 'I'
         || c == 'J' || c == 'K' || c == 'L' || c == 'M' || c == 'N' || c == 'O' || c == 'P' || c == 'Q' || c == 'R'
         || c == 'S' || c == 'T' || c == 'U' || c == 'V' || c == 'W' || c == 'X' || c == 'Y' || c == 'Z'
  {
  }

  /** A lowercase ASCII letter is one of the 26 literals. */
  lemma LowerCases(c: char)
    requires IsLower(c)
    ensures c == 'a' || c == 'b' || c == 'c' || c == 'd' || c == 'e' || c == 'f' || c == 'g' || c == 'h' || c == 'i'
         || c == 'j' || c == 'k' || c == 'l' || c == 'm' || c == 'n' || c == 'o' || c == 'p' || c == 'q' || c == 'r'
         || c == 's' || c == 't' || c == 'u' || c == 'v' || c == 'w' || c == 'x' || c == 'y' || c == 'z'
  {
  }

  lemma BubblesUpperEntry(c: char)
    ensures c in BubblesUpper <==> IsUpper(c)
    ensures IsUpper(c) ==> BubblesUpper[c] as int == 0x24B6 + (c as int - 65)
  {
    if IsUpper(c) {
      UpperCases(c);
    }
  }

  lemma BubblesLowerEntry(c: char)
    ensures c in BubblesLower <==> IsLower(c)
    ensures IsLower(c) ==> BubblesLower[c] as int == 0x24D0 + (c as int - 97)
  {
    if IsLower(c) {
      LowerCases(c);
    }
  }

  /** The circled table holds exactly the 52 letters and is the remap onto U+24B6 with offset 26. */
  lemma BubblesEntry(c: char)
    ensures c in Bubbles <==> IsAsciiLetter(c)
    ensures c in Bubbles ==> Bubbles[c] as int == ArithmeticRemap.Target(c, 0x24B6, 26)
  {
    BubblesUpperEntry(c);
    BubblesLowerEntry(c);
  }

  lemma SquaresUpperEntry(c: char)
    ensures c in SquaresUpper <==> IsUpper(c)
    ensures IsUpper(c) && c == 'G' ==> SquaresUpper[c] as int == 0x1F13F
    ensures IsUpper(c) && c != 'G' ==> SquaresUpper[c] as int == 0x1F130 + (c as int - 65)
  {
    if IsUpper(c) {
      UpperCases(c);
    }
  }

  lemma SquaresLowerEntry(c: char)
    ensures c in SquaresLower <==> IsLower(c)
    ensures IsLower(c) && c == 'g' ==> SquaresLower[c] as int == 0x1F13F
    ensures IsLower(c) && c != 'g' ==> SquaresLower[c] as int == 0x1F130 + (c as int - 97)
  {
    if IsLower(c) {
      LowerCases(c);
    }
  }

  /**
    The squared table holds exactly the 52 letters and is U+1F130 plus the
    letter's index in the alphabet, whatever its case, except that 'G' and
    'g' carry U+1F13F, the glyph of 'P'.
   */
  lemma SquaresEntry(c: char)
    ensures c in Squares <==> IsAsciiLetter(c)
    ensures c in Squares && (c == 'G' || c == 'g') ==> Squares[c] as int == 0x1F13F
    ensures c in Squares && c != 'G' && c != 'g' ==> Squares[c] as int == 0x1F130 + (AsciiUpper(c) as int - 65)
  {
    SquaresUpperEntry(c);
    SquaresLowerEntry(c);
  }

  /** Both cases of a letter get the same squared glyph. */
  lemma SquaresCaseBlind(c: char)
    requires IsLower(c)
    ensures c in Squares && AsciiUpper(c) in Squares
    ensures Squares[c] == Squares[AsciiUpper(c)]
  {
    SquaresEntry(c);
    SquaresEntry(AsciiUpper(c));
  }

  /**
    The small-caps table holds exactly the 26 lowercase letters; 's' and
    'x' map to themselves and every other value is neither an ASCII letter
    nor the Kelvin sign U+212A.
   */
  lemma SmallCapsEntry(c: char)
    ensures c in SmallCaps <==> IsLower(c)
    ensures c in SmallCaps && (c == 's' || c == 'x') ==> SmallCaps[c] == c
    ensures c in SmallCaps && c != 's' && c != 'x' ==> !IsAsciiLetter(SmallCaps[c]) && SmallCaps[c] != '\U{212A}'
  {
    if IsLower(c) {
      LowerCases(c);
    }
  }

  lemma FlippedLowerEntry(c: char)
    ensures c in FlippedLower <==> IsLower(c)
    ensures c in FlippedLower ==> FlippedLower[c] as int < 0x1_0000
  {
    if IsLower(c) {
      LowerCases(c);
    }
  }

  lemma FlippedUpperEntry(c: char)
    ensures c in FlippedUpper <==> IsUpper(c)
    ensures c in FlippedUpper ==> FlippedUpper[c] as int < 0x1_0000
  {
    if IsUpper(c) {
      UpperCases(c);
    }
  }

  /** The flipped table holds exactly the 52 letters, each mapped into the Basic Multilingual Plane. */
  lemma FlippedEntry(c: char)
    ensures c in Flipped <==> IsAsciiLetter(c)
    ensures c in Flipped ==> Flipped[c] as int < 0x1_0000
  {
    FlippedLowerEntry(c);
    FlippedUpperEntry(c);
  }

  /** All four tables are keyed by ASCII letters only. */
  lemma TablesLetterKeyed()
    ensures Substitution.LetterKeyed(Bubbles) && Substitution.LetterKeyed(Squares)
    ensures Substitution.LetterKeyed(SmallCaps) && Substitution.LetterKeyed(Flipped)
  {
    forall k | k in Bubbles
      ensures IsAsciiLetter(k)
    {
      BubblesEntry(k);
    }
    forall k | k in Squares
      ensures IsAsciiLetter(k)
    {
      SquaresEntry(k);
    }
    forall k | k in SmallCaps
      ensures IsAsciiLetter(k)
    {
      SmallCapsEntry(k);
    }
    forall k | k in Flipped
      ensures IsAsciiLetter(k)
    {
      FlippedEntry(k);
    }
  }
}
