/** The alphabet and the test vectors of RFC 4648, sections 4 and 10. */
module Base64Table {
  import opened JsonValues
  import opened Base64

  const UPPER := "ABCDEFGHIJKLMNOPQRSTUVWXYZ"
  const LOWER := "abcdefghijklmnopqrstuvwxyz"
  const REST := "0123456789+/"

  lemma UpperLetters(i: nat)
    requires i < 26
    ensures |UPPER| == 26 && UPPER[i] as int == 65 + i
  {
  }

  lemma LowerLetters(i: nat)
    requires i < 26
    ensures |LOWER| == 26 && LOWER[i] as int == 97 + i
  {
  }

  lemma OtherLetters(i: nat)
    requires i < 12
    ensures |REST| == 12 && REST[i] as int == if i < 10 then 48 + i else if i == 10 then 43 else 47
  {
  }

  /** Table 1: the letters in their order; no other octet has a value. */
  lemma LettersOfTheTable(v: Sextet, b: Byte)
    ensures |UPPER + LOWER + REST| == 64
    ensures Letter(v) == (UPPER + LOWER + REST)[v] as int
    ensures Value(b) == Some(v) <==> b == (UPPER + LOWER + REST)[v] as int
  {
    UpperLetters(if v < 26 then v else 0);
    LowerLetters(if 26 <= v < 52 then v - 26 else 0);
    OtherLetters(if 52 <= v then v - 52 else 0);
    LetterValue(v);
  }

  lemma OneOctet()
    ensures Encode([102]) == [90, 103, 61, 61]
  {
  }

  lemma TwoOctets()
    ensures Encode([102, 111]) == [90, 109, 56, 61]
  {
  }

  lemma ThreeOctets()
    ensures Encode([102, 111, 111]) == [90, 109, 57, 118]
  {
    assert [102, 111, 111][3..] == [];
  }

  /** Section 10: f is Zg==, fo is Zm8=, foo is Zm9v. */
  lemma Vectors()
    ensures Encode([102]) == [90, 103, 61, 61]
    ensures Encode([102, 111]) == [90, 109, 56, 61]
    ensures Encode([102, 111, 111]) == [90, 109, 57, 118]
  {
    hide Encode;
    OneOctet();
    TwoOctets();
    ThreeOctets();
  }
}
