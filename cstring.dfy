/**
 * C strings as the palindrome checker sees them: a buffer of characters
 * whose logical text ends at the first NUL terminator.
 */
module CString {

  /** The terminator `'\0'` that ends every C string. */
  const NUL: char := '\0'

  /** A buffer is a C string when a terminator occurs somewhere in it. */
  predicate IsCString(buf: seq<char>)
  {
    NUL in buf
  }

  /** `strlen`: the index of the first terminator. */
  function Strlen(buf: seq<char>): (n: nat)
    requires IsCString(buf)
    ensures n < |buf| && buf[n] == NUL
    ensures forall i :: 0 <= i < n ==> buf[i] != NUL
  {
    if buf[0] == NUL then 0 else 1 + Strlen(buf[1..])
  }

  /** The logical text of a C string: every character before the terminator. */
  function Text(buf: seq<char>): (t: seq<char>)
    requires IsCString(buf)
  {
    buf[..Strlen(buf)]
  }

  /**
   * A text without terminators followed by a terminator is a C string whose
   * length is the text's and whose logical text is that text again, whatever
   * follows the terminator.
   */
  lemma TerminatedText(t: seq<char>, rest: seq<char>)
    requires NUL !in t
    ensures IsCString(t + [NUL] + rest)
    ensures Strlen(t + [NUL] + rest) == |t|
    ensures Text(t + [NUL] + rest) == t
  {
    var buf := t + [NUL] + rest;
    assert buf[|t|] == NUL;
    assert buf[..|t|] == t;
  }

  /** The text of a C string holds no terminator. */
  lemma TextHasNoTerminator(buf: seq<char>)
    requires IsCString(buf)
    ensures NUL !in Text(buf)
    ensures buf == Text(buf) + [NUL] + buf[Strlen(buf) + 1..]
  {
  }
}
