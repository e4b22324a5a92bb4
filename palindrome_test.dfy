/**
 * The verdicts the unit tests of the palindrome checker expect, stated on
 * `Verdict`, the answer text that `Palindromes.Palindrome` is proved to
 * return. A "No" case is shown by one mismatching mirror pair.
 */
module PalindromeTest {
  import opened Palindromes

  lemma HandlesEmptyString()
    ensures Verdict("") == "Yes"
  {
  }

  lemma HandlesSingletons()
    ensures Verdict("a") == "Yes"
    ensures Verdict("b") == "Yes"
    ensures Verdict("c") == "Yes"
  {
  }

  lemma HandlesLengthTwo()
    ensures Verdict("aa") == "Yes"
    ensures Verdict("bb") == "Yes"
    ensures Verdict("ab") == "No"
  {
    assert "ab"[0] != "ab"[1];
  }

  lemma HandlesLengthThree()
    ensures Verdict("aaa") == "Yes"
    ensures Verdict("bab") == "Yes"
    ensures Verdict("abc") == "No"
    ensures Verdict("abb") == "No"
  {
    assert "abc"[0] != "abc"[2];
    assert "abb"[0] != "abb"[2];
  }

  lemma HandlesLengthFour()
    ensures Verdict("aaaa") == "Yes"
    ensures Verdict("baab") == "Yes"
    ensures Verdict("abcd") == "No"
    ensures Verdict("aabb") == "No"
    ensures Verdict("abbc") == "No"
    ensures Verdict("abca") == "No"
  {
    assert "abcd"[0] != "abcd"[3];
    assert "aabb"[0] != "aabb"[3];
    assert "abbc"[0] != "abbc"[3];
    assert "abca"[1] != "abca"[2];
  }

  /** The two longer strings of one repeated letter are palindromes. */
  lemma LongerRepeatedLetters()
    ensures Verdict("aaaaaaaaaaa") == "Yes"
    ensures Verdict("aaaaaaaaaaaa") == "Yes"
  {
  }

  /** The two longer mirrored alphabets, of odd and of even length, are palindromes. */
  lemma LongerMirroredAlphabets()
    ensures Verdict("abcdefgfedcba") == "Yes"
    ensures Verdict("abcdefggfedcba") == "Yes"
  {
  }

  /** The four longer strings that are not palindromes. */
  lemma LongerNonPalindromes()
    ensures Verdict("abcdefghijk") == "No"
    ensures Verdict("aaaaaaaaaaaabaaaa") == "No"
    ensures Verdict("abcdxfgfedcba") == "No"
    ensures Verdict("abcdefggfexcba") == "No"
  {
    assert "abcdefghijk"[0] != "abcdefghijk"[10];
    assert "aaaaaaaaaaaabaaaa"[12] != "aaaaaaaaaaaabaaaa"[4];
    assert "abcdxfgfedcba"[4] != "abcdxfgfedcba"[8];
    assert "abcdefggfexcba"[3] != "abcdefggfexcba"[10];
  }
}
