/** The three string validators. Each one asks whether a regular expression
    anchored at the start of the string (`^...`) finds a match; nothing is said
    about the characters after the matched prefix. */
module Validation {

  /** The character classes the validators' patterns use. */
  datatype CharClass =
    | Letters        // [a-zA-Z]
    | FileNameChars  // [0-9a-zA-Z_]

  predicate IsAsciiLetter(c: char)
  {
    ('a' <= c <= 'z') || ('A' <= c <= 'Z')
  }

  predicate IsAsciiDigit(c: char)
  {
    '0' <= c <= '9'
  }

  predicate InClass(c: char, cls: CharClass)
  {
    match cls
    case Letters => IsAsciiLetter(c)
    case FileNameChars => IsAsciiLetter(c) || IsAsciiDigit(c) || c == '_'
  }

  /** `^[cls]{n}` matches `s`: the first `n` characters exist and are in `cls`. */
  ghost predicate PrefixMatches(s: string, cls: CharClass, n: nat)
  {
    n <= |s| && forall i :: 0 <= i < n ==> InClass(s[i], cls)
  }

  /** `^[cls]+` matches `s`: some non-empty prefix consists of `cls` characters. */
  ghost predicate PrefixPlusMatches(s: string, cls: CharClass)
  {
    exists n :: 1 <= n && PrefixMatches(s, cls, n)
  }

  /** `isValidWord`: the pattern `^[a-zA-Z]+` finds a match. */
  function IsValidWord(s: string): (r: bool)
    ensures r <==> PrefixPlusMatches(s, Letters)
  {
    var r := |s| > 0 && IsAsciiLetter(s[0]);
    assert r ==> PrefixMatches(s, Letters, 1);
    r
  }

  /** `isValidLanguage`: the pattern `^[a-zA-Z]{2}` finds a match. */
  function IsValidLanguage(s: string): (r: bool)
    ensures r <==> PrefixMatches(s, Letters, 2)
  {
    |s| >= 2 && IsAsciiLetter(s[0]) && IsAsciiLetter(s[1])
  }

  /** `isValidFileName`: the pattern `^[0-9a-zA-Z_]` finds a match. */
  function IsValidFileName(s: string): (r: bool)
    ensures r <==> PrefixMatches(s, FileNameChars, 1)
  {
    |s| > 0 && InClass(s[0], FileNameChars)
  }

  /** The empty string passes none of the validators. */
  lemma EmptyStringIsInvalid()
    ensures !IsValidWord("") && !IsValidLanguage("") && !IsValidFileName("")
  {
  }

  /** Only the first character (two for a language) is looked at: anything may
      follow a valid prefix. */
  lemma {:induction false} SuffixIsUnconstrained(s: string, t: string)
    ensures IsValidWord(s) ==> IsValidWord(s + t)
    ensures IsValidLanguage(s) ==> IsValidLanguage(s + t)
    ensures IsValidFileName(s) ==> IsValidFileName(s + t)
  {
    if |s| > 0 {
      assert (s + t)[0] == s[0];
    }
    if |s| > 1 {
      assert (s + t)[1] == s[1];
    }
  }

  /** The validators are ordered: a valid language code is a valid word and a
      valid word is a valid file name. */
  lemma ValidatorsAreNested(s: string)
    ensures IsValidLanguage(s) ==> IsValidWord(s)
    ensures IsValidWord(s) ==> IsValidFileName(s)
  {
  }

  /** A word made of a letter followed by other characters is accepted, so a
      word may contain '-' (the separator of compound identifiers). */
  lemma HyphenatedWordIsValid()
    ensures IsValidWord("a-b")
  {
  }

  /** Examples: ")oi,7" is not a word, "A32" is not a language, "en" is one. */
  lemma ValidatorExamples()
    ensures !IsValidWord(")oi,7")
    ensures !IsValidLanguage("A32")
    ensures IsValidLanguage("en")
    ensures IsValidFileName("_store")
  {
  }
}
