# Palindrome checker, modelled in Dafny

This project models the palindrome checker of the C string lab:

- `str_reverse` takes a C string and returns a freshly allocated buffer. The
  buffer holds the string's characters in reverse order, followed by a
  terminator.
- `palindrome` reverses its input with `str_reverse`. It then walks the input
  and the reversed copy in step while a boolean flag stays true, and drops the
  flag on the first mismatch. It answers with a freshly allocated C string,
  `"Yes"` or `"No"`.

A C string is an `array<char>` that holds a terminator `'\0'` somewhere
(`CString.IsCString`). Its logical text is everything before the first
terminator (`CString.Text`), and `strlen` is the index of that terminator
(`CString.Strlen`). One Dafny `char` stands for one C `char`, that is one
byte: a multi-byte UTF-8 character is several elements of the array, and it
is reversed byte by byte, as the C code does. `calloc`'s zero fill is modelled by allocating the array
with every slot set to `'\0'`.

The methods are proved against three specification functions:
- `Palindromes.Reverse` is the reversal of a text.
- `Palindromes.IsPalindrome` says that every character equals its mirror
  character.
- `Palindromes.Verdict` is `"Yes"` for a palindrome and `"No"` otherwise.

The lines of `palindrome` that allocate and fill the answer buffer
(palindrome/palindrome.c:36-47) are a method of their own in the model,
`Palindromes.Answer`, which `Palindromes.Palindrome` calls with the final
value of the flag.

None of the methods has a `modifies` clause, so Dafny checks that none of them
writes to its input. That is what `char const *` promises. Every array access
in the two loops is checked to be in bounds. In particular, the comparison
loop only reads `rev[i]` while `str[i]` is not the terminator, which means
`i < strlen(str)`.

Files:
- `cstring.dfy` (module `CString`): terminators, `strlen` and the text of a C string.
- `palindrome.dfy` (module `Palindromes`): the specification functions, the lemmas about them, and the two routines (with `palindrome`'s answer building) as methods.
- `palindrome_test.dfy` (module `PalindromeTest`): the verdicts the unit tests expect, as lemmas.

## Model

| member | source | states |
|---|---|---|
| `CString.Strlen` | palindrome/palindrome.c:11 | the length is the index of the first terminator in the buffer: a terminator is there and none comes before it |
| `CString.TerminatedText` | palindrome/palindrome.c:12-16 | a terminator-free text followed by a terminator is a C string whose length and text are that text's, whatever the buffer holds after the terminator |
| `CString.TextHasNoTerminator` | palindrome/palindrome.c:11 | the text of a C string holds no terminator, and the buffer is that text, then the terminator, then the rest |
| `Palindromes.Reverse` | palindrome/palindrome.c:13-15 | the reversal has the text's length, and position `i` holds the text's character at `len-i-1` |
| `Palindromes.ReverseInvolutive` | palindrome/palindrome.c:13-15 | reversing a text twice gives the text back |
| `Palindromes.ReverseKeepsTerminators` | palindrome/palindrome.c:13-16 | a reversed text contains a terminator exactly when the text does |
| `Palindromes.ReversedCopyIsCString` | palindrome/palindrome.c:12-18 | for every C string, the buffer `str_reverse` returns (the reversed text, then a terminator) is itself a C string, and its text is the reversed text |
| `Palindromes.PalindromeIffReverseEqual` | palindrome/palindrome.c:27-34 | a text equals its reversal exactly when every character equals its mirror character |
| `Palindromes.VerdictSymmetric` | palindrome/palindrome.c:27-47 | a text and its reversal get the same verdict |
| `Palindromes.ShortTextsArePalindromes` | palindrome/palindrome.c:29-36 | the empty text and every one-character text get the verdict "Yes" |
| `Palindromes.StrReverse` | palindrome/palindrome.c:7-19 | returns a fresh buffer whose contents are exactly the input's text reversed, followed by a terminator. With `Reverse`'s contract this gives length `strlen(str)+1` and `result[i] == str[len-i-1]` for every `i < len`. The input is not written |
| `Palindromes.FlagDecidesVerdict` | palindrome/palindrome.c:28-36 | when the comparison loop stops, the flag is true exactly when the text is a palindrome: it stays true only if every position so far matched the reversal, and only a completed scan leaves it true |
| `Palindromes.Answer` | palindrome/palindrome.c:36-47 | returns a fresh buffer holding exactly `"Yes"` and a terminator when the flag is set, and exactly `"No"` and a terminator otherwise |
| `Palindromes.Palindrome` | palindrome/palindrome.c:21-50 | returns a fresh buffer holding exactly `"Yes"` and a terminator when the input's text is a palindrome, and exactly `"No"` and a terminator otherwise; the input is not written |
| `PalindromeTest.HandlesEmptyString` | palindrome/palindrome_test.cpp:13-15 | the empty string gets "Yes" |
| `PalindromeTest.HandlesSingletons` | palindrome/palindrome_test.cpp:17-21 | "a", "b" and "c" get "Yes" |
| `PalindromeTest.HandlesLengthTwo` | palindrome/palindrome_test.cpp:23-27 | "aa" and "bb" get "Yes", "ab" gets "No" |
| `PalindromeTest.HandlesLengthThree` | palindrome/palindrome_test.cpp:29-34 | "aaa" and "bab" get "Yes", "abc" and "abb" get "No" |
| `PalindromeTest.HandlesLengthFour` | palindrome/palindrome_test.cpp:36-43 | "aaaa" and "baab" get "Yes", "abcd", "aabb", "abbc" and "abca" get "No" |
| `PalindromeTest.LongerRepeatedLetters` | palindrome/palindrome_test.cpp:46-47 | "aaaaaaaaaaa" and "aaaaaaaaaaaa" get "Yes" |
| `PalindromeTest.LongerMirroredAlphabets` | palindrome/palindrome_test.cpp:48-49 | "abcdefgfedcba" and "abcdefggfedcba" get "Yes" |
| `PalindromeTest.LongerNonPalindromes` | palindrome/palindrome_test.cpp:50-53 | "abcdefghijk", "aaaaaaaaaaaabaaaa", "abcdxfgfedcba" and "abcdefggfexcba" get "No" |

## Left out

- Palindromes.StrReverse: does not model the C `int` that holds `strlen`'s result (palindrome/palindrome.c:8,11). The model's lengths are unbounded. Converting a length that does not fit in `int` gives an implementation-defined value, not undefined behaviour (section 6.3.1.3 of the C11 standard). Compilers that reduce modulo 2^32, as GCC documents, make the outcome depend on the length's remainder modulo 2^32. A remainder in [2^31 - 1, 2^32) is undefined behaviour: at 2^31 - 1, `len` is `INT_MAX` and `len+1` overflows at line 12 (section 6.5 of the C11 standard); above it, `len` is negative and the write `result[len]` at line 16 is out of bounds. A length of at least 2^32 whose remainder is below 2^31 - 1 makes `len` that remainder, and `str_reverse` reverses only that prefix.
- Palindromes.Palindrome: for a length of at least 2^32 whose remainder modulo 2^32 is below 2^31 - 1, the C code always answers "No", and the model answers with the verdict of the whole text. `rev` then holds only the reversed prefix of `len` characters. If the scan (palindrome/palindrome.c:29-31) reaches `i == len`, it compares a non-terminator `str[len]` with `rev[len] == '\0'`. So a palindrome such as `'a'` repeated 2^32 + 1 or 2^33 + 1 times gets "No" from the C code and "Yes" from the model.
- A `NULL` input: neither routine checks for one, and calling them with `NULL` is undefined behaviour in C. Dafny's `array<char>` is never null, so the model has no such input.
- Allocation failure: `calloc` returning `NULL` is not modelled. Dafny's `new` always succeeds.
- Freeing memory: `palindrome` never frees the reversed copy `rev` (palindrome/palindrome.c:27). Ownership and leaks cannot be expressed on Dafny's garbage-collected heap.
- The disemvowel routine: its implementation `disemvowel/disemvowel.c` is not part of this model. Only its tests are available.
- The Google Test harness and the `main` functions of the test files: these are scaffolding. The concrete verdicts the palindrome tests assert are stated as lemmas on `Verdict`. `Palindromes.Palindrome` is proved to return exactly `Verdict` followed by a terminator.
