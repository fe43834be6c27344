/** The first occurrence of a character in a text. */
module Texts {
  /** The position of the first `c`, or the length of the text. */
  function Index(s: string, c: char): (i: nat)
    ensures i <= |s| && c !in s[..i] && (i < |s| ==> s[i] == c)
  {
    if s == "" || s[0] == c then 0 else 1 + Index(s[1..], c)
  }

  lemma {:induction false} IndexAppend(a: string, c: char, b: string)
    ensures Index(a + [c] + b, c) == Index(a, c)
  {
    if a != "" && a[0] != c {
      IndexAppend(a[1..], c, b);
      assert (a + [c] + b)[1..] == a[1..] + [c] + b;
    }
  }
}
