/** Small helpers shared by the other modules: an optional value and ASCII text tests. */
module Common {

  /** A value that may be absent; also stands for a non-finite number (division by zero). */
  datatype Option<T> = None | Some(value: T)

  /** `toLowerCase` restricted to ASCII letters. */
  function LowerChar(c: char): (l: char)
    ensures 'A' <= c <= 'Z' ==> l as int == c as int + 32
    ensures !('A' <= c <= 'Z') ==> l == c
  {
    if 'A' <= c <= 'Z' then (c as int + 32) as char else c
  }

  function Lower(s: string): (r: string)
    ensures |r| == |s|
    ensures forall i :: 0 <= i < |s| ==> r[i] == LowerChar(s[i])
  {
    seq(|s|, i requires 0 <= i < |s| => LowerChar(s[i]))
  }

  /** Lowering twice is lowering once. */
  lemma LowerIdempotent(s: string)
    ensures Lower(Lower(s)) == Lower(s)
  {
    assert forall i :: 0 <= i < |s| ==> Lower(Lower(s))[i] == Lower(s)[i];
  }

  /** sub occurs in s starting at index i. */
  predicate OccursAt(s: string, sub: string, i: int)
  {
    0 <= i && i + |sub| <= |s| && s[i..i + |sub|] == sub
  }

  /** `String.prototype.includes`. */
  predicate Contains(s: string, sub: string)
  {
    exists i | 0 <= i <= |s| :: OccursAt(s, sub, i)
  }

  /** Every character of an occurring string is a character of s. */
  lemma OccurrenceChars(s: string, sub: string, k: nat)
    requires k < |sub|
    ensures Contains(s, sub) ==> sub[k] in s
  {
    if Contains(s, sub) {
      var i :| 0 <= i <= |s| && OccursAt(s, sub, i);
      assert s[i + k] == sub[k];
    }
  }

  /** A character of a lowered string came from itself or its upper-case form. */
  lemma LowerChars(s: string, c: char)
    ensures c in Lower(s) ==> c in s || ('a' <= c <= 'z' && (c as int - 32) as char in s)
  {
    if c in Lower(s) {
      var i :| 0 <= i < |s| && Lower(s)[i] == c;
      assert LowerChar(s[i]) == c;
    }
  }

  /** A string with neither case of some letter of sub does not contain sub once lowered. */
  lemma AbsentLetter(s: string, sub: string, k: nat, lower: char, upper: char)
    requires k < |sub| && sub[k] == lower && 'a' <= lower <= 'z' && upper as int == lower as int - 32
    requires lower !in s && upper !in s
    ensures !Contains(Lower(s), sub)
  {
    OccurrenceChars(Lower(s), sub, k);
    LowerChars(s, lower);
  }

  /** The characters `String.prototype.trim` removes. */
  predicate IsJsWhitespace(c: char)
  {
    || c == '\t' || c == '\n' || c == '\U{000B}' || c == '\U{000C}' || c == '\r' || c == ' '
    || c == '\U{00A0}' || c == '\U{1680}' || ('\U{2000}' <= c <= '\U{200A}')
    || c == '\U{2028}' || c == '\U{2029}' || c == '\U{202F}' || c == '\U{205F}'
    || c == '\U{3000}' || c == '\U{FEFF}'
  }

  /** `!s.trim()`: the string is empty after trimming. */
  predicate IsBlank(s: string)
  {
    forall i :: 0 <= i < |s| ==> IsJsWhitespace(s[i])
  }
}
