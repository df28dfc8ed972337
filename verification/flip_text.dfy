/**
  The flip-text style at the level JavaScript works on. `split('')` cuts the
  text into UTF-16 code units, `map` replaces each unit by its table entry
  when that unit is a key, `.reverse()` reverses the array of pieces and
  `join('')` glues the pieces together. A character above U+FFFF is two
  pieces, and reversing the array swaps them.
 */
module FlipText {
  import opened Sequences
  import opened Utf16
  import opened Substitution
  import opened StyleTables
  import opened FontStyles

  /**
    One code unit through the table: the entry's code units if the unit is a
    key, else the unit itself. A surrogate half is never a key, so it always
    passes through on its own; this is why reversal separates a pair.
   */
  function UnitPiece(table: map<char, char>, u: int): (p: seq<int>)
    ensures IsBmpScalar(u) && (u as char) in table ==> p == EncodeChar(table[u as char])
    ensures !(IsBmpScalar(u) && (u as char) in table) ==> p == [u]
    ensures IsHigh(u) || IsLow(u) ==> p == [u]
    ensures 1 <= |p| <= 2
  {
    if IsBmpScalar(u) && (u as char) in table then EncodeChar(table[u as char]) else [u]
  }

  /** Each code unit through the table, in order: the array `map` builds. */
  function UnitPieces(table: map<char, char>, units: seq<int>): (p: seq<seq<int>>)
    ensures |p| == |units|
    ensures forall i :: 0 <= i < |units| ==> p[i] == UnitPiece(table, units[i])
  {
    seq(|units|, i requires 0 <= i < |units| => UnitPiece(table, units[i]))
  }

  /** Every flip-table entry is one code unit, so every piece of the flip-text style is one unit long. */
  lemma FlippedPiecesSingle(units: seq<int>)
    ensures forall i :: 0 <= i < |units| ==> |UnitPiece(Flipped, units[i])| == 1
  {
    forall i | 0 <= i < |units|
      ensures |UnitPiece(Flipped, units[i])| == 1
    {
      var u := units[i];
      if IsBmpScalar(u) && (u as char) in Flipped {
        FlippedEntry(u as char);
      }
    }
  }

  /** When every piece is one unit long, joining the reversed pieces reads the substituted units from the end. */
  lemma JoinReversedSingles(table: map<char, char>, units: seq<int>)
    requires forall i :: 0 <= i < |units| ==> |UnitPiece(table, units[i])| == 1
    ensures |Join(Reverse(UnitPieces(table, units)))| == |units|
    ensures forall j :: 0 <= j < |units| ==>
      Join(Reverse(UnitPieces(table, units)))[j] == UnitPiece(table, units[|units| - 1 - j])[0]
  {
    JoinSingles(Reverse(UnitPieces(table, units)));
  }

  /**
    The flip-text style as written: substitution and reversal on code units,
    not characters. Every table entry is a single code unit, so the output
    has as many code units as the input, and unit `j` is the substituted unit
    `j` places from the end of the input.
   */
  function ReversedAsWritten(t: string): (u: seq<int>)
    ensures |u| == |Encode(t)|
    ensures forall j :: 0 <= j < |Encode(t)| ==> u[j] == UnitPiece(Flipped, Encode(t)[|Encode(t)| - 1 - j])[0]
  {
    var units := Encode(t);
    FlippedPiecesSingle(units);
    JoinReversedSingles(Flipped, units);
    Join(Reverse(UnitPieces(Flipped, units)))
  }

  /**
    On an emoji the flip-text style as written puts the low surrogate before
    the high one: the result is not well-formed UTF-16.
   */
  lemma ReversedAsWrittenSplitsPair()
    ensures ReversedAsWritten("\U{1F600}") == [0xDE00, 0xD83D]
    ensures !WellFormed(ReversedAsWritten("\U{1F600}"))
  {
    var units := Encode("\U{1F600}");
    assert units == [0xD83D, 0xDE00];
    var pieces := UnitPieces(Flipped, units);
    assert pieces == [[0xD83D], [0xDE00]];
    assert Reverse(pieces) == [[0xDE00], [0xD83D]];
    assert Join([[0xD83D]]) == [0xD83D];
    assert Join([[0xDE00], [0xD83D]]) == [0xDE00] + Join([[0xD83D]]);
  }

  /**
    On text of Basic Multilingual Plane characters the character-level style
    and the style as written agree.
   */
  lemma {:induction false} AsWrittenAgreesOnBmp(t: string)
    requires forall i :: 0 <= i < |t| ==> t[i] as int < 0x1_0000
    ensures ReversedAsWritten(t) == Encode(Reversed(t))
  {
    var units := Encode(t);
    EncodeBmp(t);
    var pieces := UnitPieces(Flipped, units);
    var sub := Substitute(Flipped, false, t);
    forall i | 0 <= i < |t|
      ensures pieces[i] == EncodeChar(sub[i])
    {
      assert units[i] as char == t[i];
    }
    assert pieces == Pieces(sub);
    var rev := Reversed(t);
    assert Reverse(pieces) == Pieces(rev);
    JoinPieces(rev);
  }

  /**
    A substitute-then-reverse style on characters, as the rest of this model
    defines it, reverses the code-unit pieces of whole characters, where the
    style as written reverses the pieces of single code units.
   */
  lemma ReversesWholeCharacters(table: map<char, char>, t: string)
    ensures Encode(Generate(Table(table, false, true), t)) == Join(Reverse(Pieces(Substitute(table, false, t))))
  {
    var r := Generate(Table(table, false, true), t);
    JoinPieces(r);
    assert Pieces(r) == Reverse(Pieces(Substitute(table, false, t)));
  }

  /**
    The flip-text instance of `ReversesWholeCharacters`. Its output, like
    every string of characters, is also well-formed text.
   */
  lemma ReversedWellFormed(t: string)
    ensures Encode(Reversed(t)) == Join(Reverse(Pieces(Substitute(Flipped, false, t))))
    ensures WellFormed(Encode(Reversed(t)))
  {
    ReversesWholeCharacters(Flipped, t);
    EncodeWellFormed(Reversed(t));
  }

  /** It reverses whole characters: an emoji keeps its code units in order. */
  lemma ReversedKeepsPair()
    ensures Encode(Reversed("\U{1F600}")) == [0xD83D, 0xDE00]
  {
    var e := "\U{1F600}";
    ReversesWholeCharacters(Flipped, e);
    FlippedEntry(e[0]);
    var sub := Substitute(Flipped, false, e);
    assert sub == e;
    assert Reverse(Pieces(sub)) == [EncodeChar(e[0])];
    assert Join([EncodeChar(e[0])]) == EncodeChar(e[0]) + Join([]);
  }
}
