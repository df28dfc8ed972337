/**
  The table-lookup transform `t.split('').map(c => map[k] || c).join('')` of
  src/services/fontStyles.ts, where the key `k` is `c` itself, or
  `c.toLowerCase()` for the small-caps style. Every table value is a
  non-empty string, so `map[k] || c` is the table entry when `k` is a key
  and `c` otherwise.
 */
module Substitution {
  import opened CodePoints

  /** U+212A KELVIN SIGN, the one non-ASCII character whose lowercase is an ASCII letter. */
  const KelvinSign: char := '\U{212A}'

  /**
    `c.toLowerCase()` as far as a lookup in a table keyed by ASCII letters
    can tell: 'A'..'Z' lower to 'a'..'z' and the Kelvin sign lowers to 'k'.
    Every other character lowers either to itself or to something that is
    not a single ASCII letter, so its lookup fails exactly as that of the
    character itself does; it is therefore left as it is.
   */
  function LowerKey(c: char): (k: char)
    ensures IsUpper(c) ==> IsLower(k) && k as int == c as int + 32
    ensures c == KelvinSign ==> k == 'k'
    ensures !IsUpper(c) && c != KelvinSign ==> k == c
  {
    if IsUpper(c) then AsciiLower(c) else if c == KelvinSign then 'k' else c
  }

  /** Tables whose keys are ASCII letters, as all four of the original's are. */
  predicate LetterKeyed(table: map<char, char>) {
    forall k :: k in table ==> IsAsciiLetter(k)
  }

  /** The key a character is looked up under. */
  function Key(c: char, lowerKey: bool): char {
    if lowerKey then LowerKey(c) else c
  }

  /**
    One character through the table: its entry if its key has one, else
    itself. With a letter-keyed table only a character looked up under an
    ASCII letter can change, and an untouched character always passes.
   */
  function SubstituteChar(table: map<char, char>, lowerKey: bool, c: char): (r: char)
    ensures Key(c, lowerKey) in table ==> r == table[Key(c, lowerKey)]
    ensures Key(c, lowerKey) !in table ==> r == c
    ensures LetterKeyed(table) && Untouched(c, lowerKey) ==> r == c
    ensures LetterKeyed(table) ==> (r != c ==> IsAsciiLetter(Key(c, lowerKey)))
  {
    var k := Key(c, lowerKey);
    if k in table then table[k] else c
  }

  /** The whole string through the table, position by position. */
  function Substitute(table: map<char, char>, lowerKey: bool, t: string): (r: string)
    ensures |r| == |t|
    ensures forall i :: 0 <= i < |t| && Key(t[i], lowerKey) in table ==> r[i] == table[Key(t[i], lowerKey)]
    ensures forall i :: 0 <= i < |t| && Key(t[i], lowerKey) !in table ==> r[i] == t[i]
  {
    seq(|t|, i requires 0 <= i < |t| => SubstituteChar(table, lowerKey, t[i]))
  }

  /** A character that a letter-keyed table never replaces. */
  predicate Untouched(c: char, lowerKey: bool) {
    !IsAsciiLetter(c) && !(lowerKey && c == KelvinSign)
  }

  /** Characters that are not looked up under a letter key pass through a letter-keyed table. */
  lemma PassThrough(table: map<char, char>, lowerKey: bool, t: string, i: int)
    requires LetterKeyed(table)
    requires 0 <= i < |t| && Untouched(t[i], lowerKey)
    ensures Substitute(table, lowerKey, t)[i] == t[i]
  {
    assert Key(t[i], lowerKey) == t[i];
  }

  /** Substitution works one character at a time, so it commutes with concatenation. */
  lemma SubstituteAppend(table: map<char, char>, lowerKey: bool, a: string, b: string)
    ensures Substitute(table, lowerKey, a + b) == Substitute(table, lowerKey, a) + Substitute(table, lowerKey, b)
  {
    var l := Substitute(table, lowerKey, a + b);
    var r := Substitute(table, lowerKey, a) + Substitute(table, lowerKey, b);
    forall i | 0 <= i < |l|
      ensures l[i] == r[i]
    {
      if i < |a| {
        assert (a + b)[i] == a[i];
      } else {
        assert (a + b)[i] == b[i - |a|];
      }
    }
  }
}
