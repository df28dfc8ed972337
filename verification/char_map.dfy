/**
  The arithmetic remap `charMap(text, startCode, asciiOffset = 65)` of
  src/services/fontStyles.ts: an uppercase ASCII letter goes to
  `startCode + (code - 65)`, a lowercase one to
  `startCode + asciiOffset + (code - 97)`, any other character is kept.
 */
module ArithmeticRemap {
  import opened Wrappers
  import opened CodePoints

  /** The code point `charMap` computes for an ASCII letter. */
  function Target(c: char, startCode: int, asciiOffset: int): (n: int)
    requires IsAsciiLetter(c)
    ensures IsUpper(c) ==> startCode <= n <= startCode + 25
    ensures IsLower(c) ==> startCode + asciiOffset <= n <= startCode + asciiOffset + 25
  {
    if IsUpper(c) then startCode + (c as int - 65)
    else startCode + asciiOffset + (c as int - 97)
  }

  /** The per-character step of the remap: letters are moved, everything else is kept. */
  function RemapChar(c: char, startCode: int, asciiOffset: int): (r: Result<char, CodePointError>)
    ensures r.Success? <==> (IsAsciiLetter(c) ==> IsScalar(Target(c, startCode, asciiOffset)))
    ensures r.Success? && IsUpper(c) ==> r.value as int == startCode + (c as int - 65)
    ensures r.Success? && IsLower(c) ==> r.value as int == startCode + asciiOffset + (c as int - 97)
    ensures !IsAsciiLetter(c) ==> r == Success(c)
    ensures r.Failure? ==> r.error.codePoint == Target(c, startCode, asciiOffset)
    ensures r.Failure? ==>
      (r.error.RangeError? <==> (Target(c, startCode, asciiOffset) < 0 || MaxCodePoint < Target(c, startCode, asciiOffset)))
  {
    if IsAsciiLetter(c) then FromCodePoint(Target(c, startCode, asciiOffset)) else Success(c)
  }

  /**
    The remap of a whole string: one output character per input character,
    in the same position, or the error of the first letter whose target is
    not a character.
   */
  function CharMap(text: string, startCode: int, asciiOffset: int := 65): (r: Result<string, CodePointError>)
    ensures r.Success? <==> forall i :: 0 <= i < |text| ==> RemapChar(text[i], startCode, asciiOffset).Success?
    ensures r.Success? ==> |r.value| == |text|
    ensures r.Success? ==> forall i :: 0 <= i < |text| ==> r.value[i] == RemapChar(text[i], startCode, asciiOffset).value
  {
    if |text| == 0 then Success([])
    else
      var head := RemapChar(text[0], startCode, asciiOffset);
      if head.Failure? then Failure(head.error)
      else
        var rest := CharMap(text[1..], startCode, asciiOffset);
        assert forall i :: 1 <= i < |text| ==> text[i] == text[1..][i - 1];
        if rest.Failure? then Failure(rest.error)
        else Success([head.value] + rest.value)
  }

  /**
    The original maps left to right, so a failed remap reports the error
    `String.fromCodePoint` gives for the target of the first letter whose
    target is not a character: a RangeError when that target lies outside
    0..U+10FFFF.
   */
  lemma {:induction false} CharMapFirstError(text: string, startCode: int, asciiOffset: int)
    requires CharMap(text, startCode, asciiOffset).Failure?
    ensures exists i :: && 0 <= i < |text| && IsAsciiLetter(text[i])
                        && !IsScalar(Target(text[i], startCode, asciiOffset))
                        && CharMap(text, startCode, asciiOffset).error == FromCodePoint(Target(text[i], startCode, asciiOffset)).error
                        && forall j :: 0 <= j < i && IsAsciiLetter(text[j]) ==> IsScalar(Target(text[j], startCode, asciiOffset))
  {
    var err := CharMap(text, startCode, asciiOffset).error;
    var head := RemapChar(text[0], startCode, asciiOffset);
    if head.Failure? {
      assert err == head.error;
    } else {
      var tail := text[1..];
      assert CharMap(tail, startCode, asciiOffset).Failure?;
      CharMapFirstError(tail, startCode, asciiOffset);
      var k :| && 0 <= k < |tail| && IsAsciiLetter(tail[k])
               && !IsScalar(Target(tail[k], startCode, asciiOffset))
               && CharMap(tail, startCode, asciiOffset).error == FromCodePoint(Target(tail[k], startCode, asciiOffset)).error
               && forall j :: 0 <= j < k && IsAsciiLetter(tail[j]) ==> IsScalar(Target(tail[j], startCode, asciiOffset));
      assert text[k + 1] == tail[k];
      forall j | 0 <= j < k + 1 && IsAsciiLetter(text[j])
        ensures IsScalar(Target(text[j], startCode, asciiOffset))
      {
        if j > 0 {
          assert text[j] == tail[j - 1];
        }
      }
    }
  }

  /** Both 26-letter target runs consist of characters. */
  predicate ValidBlock(startCode: int, asciiOffset: int) {
    ScalarRange(startCode, startCode + 25) && ScalarRange(startCode + asciiOffset, startCode + asciiOffset + 25)
  }

  /** On a valid block the remap never throws. */
  lemma ValidBlockTotal(text: string, startCode: int, asciiOffset: int)
    requires ValidBlock(startCode, asciiOffset)
    ensures CharMap(text, startCode, asciiOffset).Success?
  {
    forall i | 0 <= i < |text| && IsAsciiLetter(text[i])
      ensures IsScalar(Target(text[i], startCode, asciiOffset))
    {
      var n := Target(text[i], startCode, asciiOffset);
      if IsUpper(text[i]) {
        ScalarRangeMember(startCode, startCode + 25, n);
      } else {
        ScalarRangeMember(startCode + asciiOffset, startCode + asciiOffset + 25, n);
      }
    }
  }

  /** Text without ASCII letters comes back unchanged. */
  lemma {:induction false} IdentityOnLetterFree(text: string, startCode: int, asciiOffset: int)
    requires NoAsciiLetters(text)
    ensures CharMap(text, startCode, asciiOffset) == Success(text)
  {
    var r := CharMap(text, startCode, asciiOffset);
    assert r.Success?;
    assert |r.value| == |text|;
    forall i | 0 <= i < |text|
      ensures r.value[i] == text[i]
    {
    }
    assert r.value == text;
  }

  /** The remap commutes with concatenation: it works one character at a time. */
  lemma CharMapAppend(a: string, b: string, startCode: int, asciiOffset: int)
    requires ValidBlock(startCode, asciiOffset)
    ensures CharMap(a + b, startCode, asciiOffset).Success?
    ensures CharMap(a + b, startCode, asciiOffset).value ==
      CharMap(a, startCode, asciiOffset).value + CharMap(b, startCode, asciiOffset).value
  {
    ValidBlockTotal(a + b, startCode, asciiOffset);
    ValidBlockTotal(a, startCode, asciiOffset);
    ValidBlockTotal(b, startCode, asciiOffset);
    var l := CharMap(a + b, startCode, asciiOffset).value;
    var r := CharMap(a, startCode, asciiOffset).value + CharMap(b, startCode, asciiOffset).value;
    forall i | 0 <= i < |l|
      ensures l[i] == r[i]
    {
      if i < |a| {
        assert (a + b)[i] == a[i];
      } else {
        assert (a + b)[i] == b[i - |a|];
      }
    }
  }

  /**
    The inverse of a remap whose lowercase run follows its uppercase run
    (`asciiOffset` = 26): code points `startCode..startCode+51` go back to
    'A'..'Z','a'..'z', everything else is kept.
   */
  function Unmap(text: string, startCode: int): (r: string)
    requires ValidBlock(startCode, 26)
    ensures |r| == |text|
    ensures forall i :: 0 <= i < |text| && startCode <= text[i] as int < startCode + 26 ==>
      IsUpper(r[i]) && r[i] as int - 65 == text[i] as int - startCode
    ensures forall i :: 0 <= i < |text| && startCode + 26 <= text[i] as int < startCode + 52 ==>
      IsLower(r[i]) && r[i] as int - 97 == text[i] as int - startCode - 26
    ensures forall i :: 0 <= i < |text| && !(startCode <= text[i] as int < startCode + 52) ==> r[i] == text[i]
  {
    seq(|text|, i requires 0 <= i < |text| =>
      var n := text[i] as int;
      if startCode <= n < startCode + 26 then (65 + n - startCode) as char
      else if startCode + 26 <= n < startCode + 52 then (97 + n - startCode - 26) as char
      else text[i])
  }

  /** No character of `text` lies in the 52 targets of the block. */
  predicate BlockFree(text: string, startCode: int) {
    forall i :: 0 <= i < |text| ==> !(startCode <= text[i] as int < startCode + 52)
  }

  /** Undoing the remap restores any text that did not already use the block. */
  lemma {:induction false} UnmapAfterCharMap(text: string, startCode: int)
    requires ValidBlock(startCode, 26)
    requires BlockFree(text, startCode)
    ensures CharMap(text, startCode, 26).Success?
    ensures Unmap(CharMap(text, startCode, 26).value, startCode) == text
  {
    ValidBlockTotal(text, startCode, 26);
    var m := CharMap(text, startCode, 26).value;
    var u := Unmap(m, startCode);
    forall i | 0 <= i < |text|
      ensures u[i] == text[i]
    {
      if IsUpper(text[i]) {
        assert u[i] as int == text[i] as int;
      } else if IsLower(text[i]) {
        assert u[i] as int == text[i] as int;
      }
    }
  }

  /** Remapping restores any text without ASCII letters from its unmapped form. */
  lemma {:induction false} CharMapAfterUnmap(text: string, startCode: int)
    requires ValidBlock(startCode, 26)
    requires NoAsciiLetters(text)
    ensures CharMap(Unmap(text, startCode), startCode, 26) == Success(text)
  {
    var u := Unmap(text, startCode);
    ValidBlockTotal(u, startCode, 26);
    var m := CharMap(u, startCode, 26).value;
    forall i | 0 <= i < |text|
      ensures m[i] == text[i]
    {
      if startCode <= text[i] as int < startCode + 52 {
        assert m[i] as int == text[i] as int;
      }
    }
    assert m == text;
  }

  /** Hence the remap is injective on text that avoids the block. */
  lemma CharMapInjective(a: string, b: string, startCode: int)
    requires ValidBlock(startCode, 26)
    requires BlockFree(a, startCode) && BlockFree(b, startCode)
    requires CharMap(a, startCode, 26) == CharMap(b, startCode, 26)
    ensures a == b
  {
    UnmapAfterCharMap(a, startCode);
    UnmapAfterCharMap(b, startCode);
  }

  /** `fromCodePoint` throws on the first letter whose target passes U+10FFFF, here 'z'. */
  lemma CharMapRangeErrorExample()
    ensures CharMap("Az", 0x10_FFE0, 26) == Failure(RangeError(0x10_FFE0 + 26 + 25))
  {
    assert "Az"[1..] == "z";
    assert "z"[1..] == "";
  }

  /** A target among the surrogates cannot be a character. */
  lemma CharMapSurrogateExample()
    ensures CharMap("A", 0xD800) == Failure(LoneSurrogate(0xD800))
  {
  }
}
