/** What the registered styles promise, stated against independent definitions. */
module StyleProperties {
  import opened CodePoints
  import opened Sequences
  import opened ArithmeticRemap
  import opened Substitution
  import opened StyleTables
  import opened FontStyles

  /**
    A remap with lowercase offset 26 whose 52 targets lie in U+1D400..U+1D6A3,
    the Mathematical Alphanumeric Symbols used by the original.
   */
  predicate MathRemap(tr: Transform) {
    && tr.Arith?
    && tr.asciiOffset == 26
    && 0x1D400 <= tr.startCode
    && tr.startCode + 51 <= 0x1D6A3
  }

  /** Fifteen styles. */
  lemma RegistrySize()
    ensures |Registry| == 15
  {
  }

  /** The first eleven are remaps onto the mathematical letters, all with lowercase offset 26. */
  lemma RegistryRemaps()
    ensures forall s :: s in Registry[..11] ==> MathRemap(s.transform)
  {
  }

  /** The last four are the table styles, in source order. */
  lemma RegistryTables()
    ensures Registry[11..] == [BubblesStyle, SquaresStyle, SmallCapsStyle, ReversedStyle]
    ensures BubblesStyle.transform == Table(Bubbles, false, false)
    ensures SquaresStyle.transform == Table(Squares, false, false)
    ensures SmallCapsStyle.transform == Table(SmallCaps, true, false)
    ensures ReversedStyle.transform == Table(Flipped, false, true)
  {
  }

  /** No two registered styles share an `id`. */
  lemma RegistryIdsDistinct()
    ensures forall i, j :: 0 <= i < j < |Registry| ==> Registry[i].id != Registry[j].id
  {
  }

  /**
    Under such a remap an uppercase letter lands in `[base, base+25]`, a
    lowercase one in `[base+26, base+51]`, and every image lies in
    U+1D400..U+1D6A3, so `String.fromCodePoint` cannot throw.
   */
  lemma ArithLetterImage(tr: Transform, c: char)
    requires MathRemap(tr) && IsAsciiLetter(c)
    ensures IsUpper(c) ==> tr.startCode <= Target(c, tr.startCode, 26) <= tr.startCode + 25
    ensures IsLower(c) ==> tr.startCode + 26 <= Target(c, tr.startCode, 26) <= tr.startCode + 51
    ensures 0x1D400 <= Target(c, tr.startCode, 26) <= 0x1D6A3
  {
  }

  /** Distinct letters have distinct images. */
  lemma ArithLettersDistinct(tr: Transform, c: char, d: char)
    requires MathRemap(tr) && IsAsciiLetter(c) && IsAsciiLetter(d)
    requires c != d
    ensures Target(c, tr.startCode, 26) != Target(d, tr.startCode, 26)
  {
  }

  /**
    Such a remap replaces a character exactly when it is an ASCII letter,
    by the image the arithmetic prescribes, keeping alignment.
   */
  lemma ArithOutput(tr: Transform, t: string)
    requires MathRemap(tr)
    ensures forall j :: 0 <= j < |t| && IsAsciiLetter(t[j]) ==>
      Generate(tr, t)[j] as int == Target(t[j], tr.startCode, 26) &&
      0x1D400 <= Generate(tr, t)[j] as int <= 0x1D6A3
    ensures forall j :: 0 <= j < |t| ==> (Generate(tr, t)[j] == t[j] <==> !IsAsciiLetter(t[j]))
  {
  }

  /** Such a remap is undone by `Unmap` on text that avoids its block. */
  lemma ArithRoundTrip(tr: Transform, t: string)
    requires MathRemap(tr)
    requires BlockFree(t, tr.startCode)
    ensures ValidBlock(tr.startCode, 26)
    ensures Unmap(Generate(tr, t), tr.startCode) == t
  {
    UnmapAfterCharMap(t, tr.startCode);
  }

  /** Bold serif "AZaz" is U+1D400, U+1D419, U+1D41A, U+1D433. */
  lemma BoldSerifExample()
    ensures Generate(BoldSerif.transform, "AZaz") == "\U{1D400}\U{1D419}\U{1D41A}\U{1D433}"
  {
    var r := Generate(BoldSerif.transform, "AZaz");
    assert r[0] as int == 0x1D400 && r[1] as int == 0x1D419;
    assert r[2] as int == 0x1D41A && r[3] as int == 0x1D433;
  }

  /** The circled table is the remap onto U+24B6 with lowercase offset 26. */
  lemma BubblesIsRemap(t: string)
    ensures CharMap(t, 0x24B6, 26).Success?
    ensures Bubbled(t) == CharMap(t, 0x24B6, 26).value
  {
    ValidBlockTotal(t, 0x24B6, 26);
    var r := Substitute(Bubbles, false, t);
    var m := CharMap(t, 0x24B6, 26).value;
    forall j | 0 <= j < |t|
      ensures r[j] == m[j]
    {
      BubblesEntry(t[j]);
      if IsAsciiLetter(t[j]) {
        assert r[j] as int == m[j] as int;
      }
    }
  }

  /** The circled style replaces a character exactly when it is an ASCII letter. */
  lemma BubblesReplacesLetters(t: string)
    ensures forall j :: 0 <= j < |t| ==> (Bubbled(t)[j] == t[j] <==> !IsAsciiLetter(t[j]))
  {
    var r := Bubbled(t);
    forall j | 0 <= j < |t|
      ensures r[j] == t[j] <==> !IsAsciiLetter(t[j])
    {
      BubblesEntry(t[j]);
    }
  }

  /** The circled style therefore loses nothing: `Unmap` restores text that avoids U+24B6..U+24E9. */
  lemma BubblesRoundTrip(t: string)
    requires BlockFree(t, 0x24B6)
    ensures ValidBlock(0x24B6, 26)
    ensures Unmap(Bubbled(t), 0x24B6) == t
  {
    BubblesIsRemap(t);
    UnmapAfterCharMap(t, 0x24B6);
  }

  /** The squared style replaces a character exactly when it is an ASCII letter. */
  lemma SquaresReplacesLetters(t: string)
    ensures forall j :: 0 <= j < |t| ==> (Squared(t)[j] == t[j] <==> !IsAsciiLetter(t[j]))
  {
    var r := Squared(t);
    forall j | 0 <= j < |t|
      ensures r[j] == t[j] <==> !IsAsciiLetter(t[j])
    {
      SquaresEntry(t[j]);
    }
  }

  /** The squared style cannot tell the case of a letter. */
  lemma SquaresCaseInsensitive(t: string)
    ensures Squared(t) == Squared(UpperString(t))
  {
    var r := Squared(t);
    var u := Squared(UpperString(t));
    forall j | 0 <= j < |t|
      ensures r[j] == u[j]
    {
      if IsLower(t[j]) {
        SquaresCaseBlind(t[j]);
      }
    }
  }

  /** Nor can it tell 'G' from 'P': both become U+1F13F. */
  lemma SquaresCollision()
    ensures Squared("G") == Squared("P") == "\U{1F13F}"
  {
    SquaresEntry('G');
    SquaresEntry('P');
    var g := Substitute(Squares, false, "G");
    var p := Substitute(Squares, false, "P");
    assert g[0] == '\U{1F13F}' == p[0];
  }

  /** Small caps looks letters up in lowercase, so the case of the input does not matter. */
  lemma SmallCapsCaseInsensitive(t: string)
    ensures SmallCapped(t) == SmallCapped(LowerString(t))
  {
    var lower := LowerString(t);
    var r := Substitute(SmallCaps, true, t);
    var u := Substitute(SmallCaps, true, lower);
    forall j | 0 <= j < |t|
      ensures r[j] == u[j]
    {
      SmallCapsEntry(LowerKey(t[j]));
      if IsUpper(t[j]) {
        assert LowerKey(lower[j]) == LowerKey(t[j]);
      }
    }
  }

  /** The Kelvin sign lowers to 'k', so it comes out as the small capital of 'k'. */
  lemma SmallCapsKelvin()
    ensures SmallCapped([KelvinSign]) == SmallCapped("k") == "\U{1D0B}"
  {
    SmallCapsEntry('k');
  }

  /** Applying small caps twice is applying it once. */
  lemma SmallCapsIdempotent(t: string)
    ensures SmallCapped(SmallCapped(t)) == SmallCapped(t)
  {
    var u := SmallCapped(t);
    var v := SmallCapped(u);
    forall j | 0 <= j < |t|
      ensures v[j] == u[j]
    {
      SmallCapsEntry(LowerKey(t[j]));
      SmallCapsEntry(LowerKey(u[j]));
    }
  }

  /** A substitute-then-reverse style reads the substituted input from the end. */
  lemma TableReversedBackwards(table: map<char, char>, t: string)
    ensures forall j :: 0 <= j < |t| ==>
      Generate(Table(table, false, true), t)[j] == SubstituteChar(table, false, t[|t| - 1 - j])
  {
    var sub := Substitute(table, false, t);
    assert Generate(Table(table, false, true), t) == Reverse(sub);
  }

  /** The flip-text style is the reversal of the per-character substitution. */
  lemma ReversedIsFlippedBackwards(t: string)
    ensures forall j :: 0 <= j < |t| ==>
      Reversed(t)[j] == SubstituteChar(Flipped, false, t[|t| - 1 - j])
  {
    TableReversedBackwards(Flipped, t);
  }

  /** On text without ASCII letters the flip-text style is plain reversal. */
  lemma ReversedLetterFree(t: string)
    requires NoAsciiLetters(t)
    ensures Reversed(t) == Reverse(t)
  {
    TablesLetterKeyed();
    GenerateLetterFree(ReversedStyle.transform, t);
  }

  /** With empty input every style yields the empty string; no placeholder is substituted here. */
  lemma ApplyAllEmpty()
    ensures forall i :: 0 <= i < |Registry| ==> ApplyAll("")[i].text == ""
  {
  }
}
