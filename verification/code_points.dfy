/**
  Character classes and code-point conversion. Strings are sequences of
  Unicode scalar values; `c as int` is the code point of `c`.
 */
module CodePoints {
  import opened Wrappers

  /** Uppercase ASCII letter, code points 65..90. */
  predicate IsUpper(c: char) {
    'A' <= c <= 'Z'
  }

  /** Lowercase ASCII letter, code points 97..122. */
  predicate IsLower(c: char) {
    'a' <= c <= 'z'
  }

  predicate IsAsciiLetter(c: char) {
    IsUpper(c) || IsLower(c)
  }

  /** True when `t` holds no ASCII letter at all. */
  predicate NoAsciiLetters(t: string) {
    forall i :: 0 <= i < |t| ==> !IsAsciiLetter(t[i])
  }

  /** The highest code point; `String.fromCodePoint` rejects anything above it. */
  const MaxCodePoint: int := 0x10_FFFF

  /** A code point that denotes a character (not a surrogate). */
  predicate IsScalar(n: int) {
    (0 <= n < 0xD800) || (0xE000 <= n <= MaxCodePoint)
  }

  /** Every code point of `lo..hi` (inclusive) is a scalar value. */
  predicate ScalarRange(lo: int, hi: int) {
    (0 <= lo && hi < 0xD800) || (0xE000 <= lo && hi <= MaxCodePoint)
  }

  lemma ScalarRangeMember(lo: int, hi: int, n: int)
    requires ScalarRange(lo, hi) && lo <= n <= hi
    ensures IsScalar(n)
  {
  }

  datatype CodePointError =
    /** `String.fromCodePoint` throws a RangeError for a negative or too large code point. */
    | RangeError(codePoint: int)
    /** A surrogate code point yields a lone UTF-16 surrogate, which no scalar sequence can hold. */
    | LoneSurrogate(codePoint: int)

  /** `String.fromCodePoint` applied to one code point. */
  function FromCodePoint(n: int): (r: Result<char, CodePointError>)
    ensures r.Success? <==> IsScalar(n)
    ensures r.Success? ==> r.value as int == n
    ensures r.Failure? ==> r.error.codePoint == n
    ensures r.Failure? ==> (r.error.RangeError? <==> (n < 0 || MaxCodePoint < n))
  {
    if n < 0 || MaxCodePoint < n then Failure(RangeError(n))
    else if 0xD800 <= n < 0xE000 then Failure(LoneSurrogate(n))
    else Success(n as char)
  }

  /** ASCII lowering of one character; every other character is left alone. */
  function AsciiLower(c: char): (r: char)
    ensures IsUpper(c) ==> IsLower(r) && r as int == c as int + 32
    ensures !IsUpper(c) ==> r == c
  {
    if IsUpper(c) then (c as int + 32) as char else c
  }

  /** ASCII raising of one character; every other character is left alone. */
  function AsciiUpper(c: char): (r: char)
    ensures IsLower(c) ==> IsUpper(r) && r as int == c as int - 32
    ensures !IsLower(c) ==> r == c
  {
    if IsLower(c) then (c as int - 32) as char else c
  }

  /** ASCII lowering of a whole string. */
  function LowerString(t: string): (r: string)
    ensures |r| == |t|
    ensures forall i :: 0 <= i < |t| ==> r[i] == AsciiLower(t[i])
  {
    seq(|t|, i requires 0 <= i < |t| => AsciiLower(t[i]))
  }

  /** ASCII raising of a whole string. */
  function UpperString(t: string): (r: string)
    ensures |r| == |t|
    ensures forall i :: 0 <= i < |t| ==> r[i] == AsciiUpper(t[i])
  {
    seq(|t|, i requires 0 <= i < |t| => AsciiUpper(t[i]))
  }
}
