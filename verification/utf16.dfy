/**
  UTF-16, the encoding JavaScript strings are made of. `split('')` cuts a
  string into these code units, so a character above U+FFFF becomes a high
  surrogate followed by a low surrogate.
 */
module Utf16 {

  predicate IsHigh(u: int) { 0xD800 <= u <= 0xDBFF }
  predicate IsLow(u: int) { 0xDC00 <= u <= 0xDFFF }

  /** A code unit that is a character on its own: in the Basic Multilingual Plane and not a surrogate. */
  predicate IsBmpScalar(u: int) { 0 <= u < 0xD800 || 0xE000 <= u < 0x1_0000 }

  /** The code units of one character; a pair decodes back to the character's code point. */
  function EncodeChar(c: char): (u: seq<int>)
    ensures c as int < 0x1_0000 ==> u == [c as int] && IsBmpScalar(u[0])
    ensures 0x1_0000 <= c as int ==>
      && |u| == 2 && IsHigh(u[0]) && IsLow(u[1])
      && 0x1_0000 + (u[0] - 0xD800) * 0x400 + (u[1] - 0xDC00) == c as int
  {
    var n := c as int;
    if n < 0x1_0000 then [n]
    else [0xD800 + (n - 0x1_0000) / 0x400, 0xDC00 + (n - 0x1_0000) % 0x400]
  }

  /** The code units of a string, as `split('')` lists them. */
  function Encode(s: string): (u: seq<int>)
    ensures |u| >= |s|
    ensures (forall i :: 0 <= i < |s| ==> s[i] as int < 0x1_0000) ==> |u| == |s|
  {
    if |s| == 0 then [] else EncodeChar(s[0]) + Encode(s[1..])
  }

  /**
    Well-formed UTF-16: code units below 0x10000, every high surrogate
    directly followed by a low one, and no low surrogate on its own.
   */
  predicate WellFormed(u: seq<int>)
    decreases |u|
  {
    if |u| == 0 then true
    else if IsHigh(u[0]) then 2 <= |u| && IsLow(u[1]) && WellFormed(u[2..])
    else IsBmpScalar(u[0]) && WellFormed(u[1..])
  }

  /** Every string encodes to well-formed UTF-16. */
  lemma {:induction false} EncodeWellFormed(s: string)
    ensures WellFormed(Encode(s))
    decreases |s|
  {
    if |s| > 0 {
      EncodeWellFormed(s[1..]);
      var e := EncodeChar(s[0]);
      var u := e + Encode(s[1..]);
      if s[0] as int < 0x1_0000 {
        assert u[1..] == Encode(s[1..]);
      } else {
        assert u[2..] == Encode(s[1..]);
      }
    }
  }

  /** The concatenation of a sequence of code-unit strings, as `join('')` forms it. */
  function Join(pieces: seq<seq<int>>): seq<int> {
    if |pieces| == 0 then [] else pieces[0] + Join(pieces[1..])
  }

  /** Joining is a homomorphism: the join of two runs of pieces is the join of each, in order. */
  lemma {:induction false} JoinAppend(a: seq<seq<int>>, b: seq<seq<int>>)
    ensures Join(a + b) == Join(a) + Join(b)
    decreases |a|
  {
    if |a| > 0 {
      assert (a + b)[1..] == a[1..] + b;
      JoinAppend(a[1..], b);
    } else {
      assert a + b == b;
    }
  }

  /** Joining pieces of one code unit each gives their units, in order. */
  lemma {:induction false} JoinSingles(pieces: seq<seq<int>>)
    requires forall i :: 0 <= i < |pieces| ==> |pieces[i]| == 1
    ensures |Join(pieces)| == |pieces|
    ensures forall i :: 0 <= i < |pieces| ==> Join(pieces)[i] == pieces[i][0]
    decreases |pieces|
  {
    if |pieces| > 0 {
      var rest := pieces[1..];
      JoinSingles(rest);
      forall i | 0 <= i < |pieces|
        ensures Join(pieces)[i] == pieces[i][0]
      {
        if i > 0 {
          assert Join(pieces)[i] == Join(rest)[i - 1];
        }
      }
    }
  }

  /** Each character's code units, in order. */
  function Pieces(s: string): (p: seq<seq<int>>)
    ensures |p| == |s|
    ensures forall i :: 0 <= i < |s| ==> p[i] == EncodeChar(s[i])
  {
    seq(|s|, i requires 0 <= i < |s| => EncodeChar(s[i]))
  }

  /** Joining the characters' code units gives the string's encoding. */
  lemma {:induction false} JoinPieces(s: string)
    ensures Join(Pieces(s)) == Encode(s)
    decreases |s|
  {
    if |s| > 0 {
      JoinPieces(s[1..]);
      assert Pieces(s)[1..] == Pieces(s[1..]);
    }
  }

  /** A string of Basic Multilingual Plane characters is encoded one unit per character. */
  lemma {:induction false} EncodeBmp(s: string)
    requires forall i :: 0 <= i < |s| ==> s[i] as int < 0x1_0000
    ensures forall i :: 0 <= i < |s| ==> Encode(s)[i] == s[i] as int
    decreases |s|
  {
    if |s| > 0 {
      EncodeBmp(s[1..]);
      var u := Encode(s);
      forall i | 0 <= i < |s|
        ensures u[i] == s[i] as int
      {
        if i > 0 {
          assert u[i] == Encode(s[1..])[i - 1];
        }
      }
    }
  }
}
