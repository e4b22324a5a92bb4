/**
 * The palindrome checker: `str_reverse` builds a fresh reversed copy of a
 * C string, and `palindrome` compares the string with that copy character by
 * character, answering with a fresh C string "Yes" or "No".
 */
module Palindromes {
  import opened CString

  /** The reversal of a text: the character at `i` comes from `|s| - 1 - i`. */
  function Reverse(s: seq<char>): (r: seq<char>)
    ensures |r| == |s|
    ensures forall i :: 0 <= i < |s| ==> r[i] == s[|s| - 1 - i]
  {
    if s == [] then [] else Reverse(s[1..]) + [s[0]]
  }

  /** A text is a palindrome when each character equals its mirror image. */
  predicate IsPalindrome(s: seq<char>)
  {
    forall i :: 0 <= i < |s| ==> s[i] == s[|s| - 1 - i]
  }

  /** The answer text `palindrome` gives for a text. */
  function Verdict(s: seq<char>): (v: string)
  {
    if IsPalindrome(s) then "Yes" else "No"
  }

  /** Reversing twice gives back the original text. */
  lemma ReverseInvolutive(s: seq<char>)
    ensures Reverse(Reverse(s)) == s
  {
  }

  /** A reversed text holds a terminator exactly when the text does. */
  lemma ReverseKeepsTerminators(s: seq<char>)
    ensures NUL in Reverse(s) <==> NUL in s
  {
  }

  /** A text is a palindrome exactly when it equals its own reversal. */
  lemma PalindromeIffReverseEqual(s: seq<char>)
    ensures IsPalindrome(s) <==> s == Reverse(s)
  {
    if IsPalindrome(s) {
      assert forall i :: 0 <= i < |s| ==> s[i] == Reverse(s)[i];
    }
  }

  /** A text and its reversal get the same verdict. */
  lemma VerdictSymmetric(s: seq<char>)
    ensures Verdict(Reverse(s)) == Verdict(s)
  {
    PalindromeIffReverseEqual(s);
    PalindromeIffReverseEqual(Reverse(s));
    ReverseInvolutive(s);
  }

  /** The empty text and every one-character text are palindromes. */
  lemma ShortTextsArePalindromes(s: seq<char>)
    requires |s| <= 1
    ensures Verdict(s) == "Yes"
  {
  }

  /**
   * The buffer `str_reverse` returns for a C string, the reversed text and a
   * terminator, is itself a C string whose text is the reversed text.
   */
  lemma ReversedCopyIsCString(buf: seq<char>)
    requires IsCString(buf)
    ensures IsCString(Reverse(Text(buf)) + [NUL])
    ensures Text(Reverse(Text(buf)) + [NUL]) == Reverse(Text(buf))
  {
    var t := Text(buf);
    TextHasNoTerminator(buf);
    ReverseKeepsTerminators(t);
    TerminatedText(Reverse(t), []);
    assert Reverse(t) + [NUL] + [] == Reverse(t) + [NUL];
  }

  /**
   * `str_reverse`: a fresh buffer one longer than the text, holding the text
   * reversed and then a terminator; the input is only read.
   */
  method StrReverse(str: array<char>) returns (result: array<char>)
    requires IsCString(str[..])
    ensures fresh(result)
    ensures result[..] == Reverse(Text(str[..])) + [NUL]
  {
    var len := Strlen(str[..]);
    ghost var t := Text(str[..]);
    result := new char[len + 1](_ => NUL);
    for i := 0 to len
      invariant forall j :: 0 <= j < i ==> result[j] == t[len - 1 - j]
    {
      result[i] := str[len - i - 1];
    }
    result[len] := NUL;
  }

  /**
   * When the comparison loop stops, its flag says whether the text is a
   * palindrome: either every position matched its reversal (the scan reached
   * the terminator) or some position did not.
   */
  lemma FlagDecidesVerdict(t: seq<char>, i: nat, flag: bool)
    requires i <= |t|
    requires flag <==> forall j :: 0 <= j < i ==> t[j] == Reverse(t)[j]
    requires flag ==> i == |t|
    ensures flag <==> IsPalindrome(t)
  {
    PalindromeIffReverseEqual(t);
  }

  /** The answer `palindrome` allocates: "Yes" or "No", with its terminator. */
  method Answer(yes: bool) returns (answer: array<char>)
    ensures fresh(answer)
    ensures answer[..] == (if yes then "Yes" else "No") + [NUL]
  {
    if yes {
      answer := new char[4](_ => NUL);
      answer[0] := 'Y';
      answer[1] := 'e';
      answer[2] := 's';
      answer[3] := NUL;
    } else {
      answer := new char[3](_ => NUL);
      answer[0] := 'N';
      answer[1] := 'o';
      answer[2] := NUL;
    }
  }

  /**
   * `palindrome`: a fresh C string "Yes" when the text reads the same
   * reversed and "No" otherwise; the input is only read.
   */
  method Palindrome(str: array<char>) returns (answer: array<char>)
    requires IsCString(str[..])
    ensures fresh(answer)
    ensures answer[..] == Verdict(Text(str[..])) + [NUL]
  {
    var rev := StrReverse(str);
    ghost var t := Text(str[..]);
    ghost var len := |t|;
    TextHasNoTerminator(str[..]);
    assert str[len] == NUL;
    var i := 0;
    var result := true;
    while result && str[i] != NUL
      invariant 0 <= i <= len
      invariant result <==> forall j :: 0 <= j < i ==> t[j] == Reverse(t)[j]
      decreases len - i
    {
      assert str[i] == t[i] && rev[i] == Reverse(t)[i];
      if str[i] != rev[i] {
        result := false;
      }
      i := i + 1;
    }
    FlagDecidesVerdict(t, i, result);

    answer := Answer(result);
  }
}
