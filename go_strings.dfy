/**
 * The few functions of Go's `strings` package that the story engine and the
 * Telegram layer rely on, written out over `seq<char>`.
 */
module GoStrings {

  /** strings.HasPrefix */
  predicate HasPrefix(s: string, prefix: string)
  {
    |prefix| <= |s| && s[..|prefix|] == prefix
  }

  /**
   * Simple case folding of one character, towards lower case: ASCII letters,
   * the basic Cyrillic alphabet and the letter YO. Other scripts fold to
   * themselves in this model.
   */
  function FoldChar(c: char): (f: char)
    ensures ('A' <= c <= 'Z') ==> f as int == c as int + 32
    ensures ('a' <= c <= 'z') ==> f == c
    ensures ('А' <= c <= 'Я') ==> f as int == c as int + 32
    ensures c == 'Ё' ==> f == 'ё'
    ensures f != c ==> ('A' <= c <= 'Z' || 'А' <= c <= 'Я' || c == 'Ё')
  {
    if 'A' <= c <= 'Z' then (c as int + 32) as char
    else if 'А' <= c <= 'Я' then (c as int + 32) as char
    else if c == 'Ё' then 'ё'
    else c
  }

  /** strings.EqualFold: equal under simple case folding, character by character. */
  predicate EqualFold(a: string, b: string)
  {
    |a| == |b| && forall i :: 0 <= i < |a| ==> FoldChar(a[i]) == FoldChar(b[i])
  }

  /** Case folding ignores case but nothing else: it is an equivalence that contains equality. */
  lemma EqualFoldIsEquivalence(a: string, b: string, c: string)
    ensures EqualFold(a, a)
    ensures EqualFold(a, b) ==> EqualFold(b, a)
    ensures EqualFold(a, b) && EqualFold(b, c) ==> EqualFold(a, c)
  {
  }
}
