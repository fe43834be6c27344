/** Small facts that several parts use. */
module Basics {
  function Min(a: nat, b: nat): nat {
    if a < b then a else b
  }

  lemma PrefixGrows<T>(s: seq<T>, from: nat, more: nat)
    requires from + more <= |s|
    ensures s[..from] + s[from..from + more] == s[..from + more]
  {
  }
}
