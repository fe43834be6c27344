/** Base 64 of section 4 of RFC 4648, as Python's `base64` encodes it and, with
    `validate=True`, decodes it. */
module Base64 {
  import opened JsonValues

  type Byte = n: int | 0 <= n < 256
  type Bytes = seq<Byte>
  type Sextet = n: int | 0 <= n < 64

  const PAD: Byte := 61 // =

  function Letter(v: Sextet): Byte {
    if v < 26 then 65 + v
    else if v < 52 then 97 + v - 26
    else if v < 62 then 48 + v - 52
    else if v == 62 then 43
    else 47
  }

  function Value(b: Byte): (r: Option<Sextet>)
    ensures r.Some? ==> Letter(r.value) == b
  {
    if 65 <= b <= 90 then Some(b - 65)
    else if 97 <= b <= 122 then Some(b - 97 + 26)
    else if 48 <= b <= 57 then Some(b - 48 + 52)
    else if b == 43 then Some(62)
    else if b == 47 then Some(63)
    else None
  }

  lemma LetterValue(v: Sextet)
    ensures Value(Letter(v)) == Some(v)
  {
  }

  /** The letters of the encoding, without the padding. */
  function Letters(data: Bytes): Bytes {
    if data == [] then []
    else if |data| == 1 then [Letter(data[0] / 4), Letter(data[0] % 4 * 16)]
    else if |data| == 2 then
      [Letter(data[0] / 4), Letter(data[0] % 4 * 16 + data[1] / 16), Letter(data[1] % 16 * 4)]
    else
      Quad(data[0], data[1], data[2]) + Letters(data[3..])
  }

  function Quad(a: Byte, b: Byte, c: Byte): (r: Bytes)
    ensures |r| == 4
  {
    [Letter(a / 4), Letter(a % 4 * 16 + b / 16), Letter(b % 16 * 4 + c / 64), Letter(c % 64)]
  }

  /** As many pads as fill a group of four. */
  function Pads(length: nat): Bytes {
    match length % 4 case 0 => [] case 1 => [PAD, PAD, PAD] case 2 => [PAD, PAD] case 3 => [PAD]
  }

  function Encode(data: Bytes): Bytes {
    Letters(data) + Pads(|Letters(data)|)
  }

  /** The three bytes of four sextets. */
  function First(a: Sextet, b: Sextet): Byte {
    a * 4 + b / 16
  }

  function Second(b: Sextet, c: Sextet): Byte {
    b % 16 * 16 + c / 4
  }

  function Third(c: Sextet, d: Sextet): Byte {
    c % 4 * 64 + d
  }

  function Decode(s: Bytes): Option<Bytes> {
    if s == [] then Some([])
    else if |s| < 4 || Value(s[0]).None? || Value(s[1]).None? then None
    else
      var a, b := Value(s[0]).value, Value(s[1]).value;
      if |s| == 4 && s[2] == PAD && s[3] == PAD then Some([First(a, b)])
      else if Value(s[2]).None? then None
      else
        var c := Value(s[2]).value;
        if |s| == 4 && s[3] == PAD then Some([First(a, b), Second(b, c)])
        else if Value(s[3]).None? then None
        else
          var d := Value(s[3]).value;
          match Decode(s[4..])
          case None => None
          case Some(rest) => Some([First(a, b), Second(b, c), Third(c, d)] + rest)
  }

  lemma {:induction false} LettersLength(data: Bytes)
    ensures |Letters(data)| == (|data| * 4 + 2) / 3
    ensures forall b | b in Letters(data) :: Value(b).Some?
  {
    if data == [] {
    } else if |data| <= 2 {
      LetterValue(data[0] / 4);
      LetterValue(data[0] % 4 * 16);
      if |data| == 2 {
        LetterValue(data[0] % 4 * 16 + data[1] / 16);
        LetterValue(data[1] % 16 * 4);
      }
    } else {
      LettersLength(data[3..]);
      QuadLetters(data[0], data[1], data[2]);
    }
  }

  lemma QuadLetters(a: Byte, b: Byte, c: Byte)
    ensures forall l | l in Quad(a, b, c) :: Value(l).Some?
  {
    LetterValue(a / 4);
    LetterValue(a % 4 * 16 + b / 16);
    LetterValue(b % 16 * 4 + c / 64);
    LetterValue(c % 64);
  }

  /** The eight bits of a byte, cut and put together again. */
  lemma Bits(a: Byte, b: Byte, c: Byte)
    ensures First(a / 4, a % 4 * 16 + b / 16) == a
    ensures Second(a % 4 * 16 + b / 16, b % 16 * 4 + c / 64) == b
    ensures Third(b % 16 * 4 + c / 64, c % 64) == c
  {
  }

  lemma QuadDecodes(a: Byte, b: Byte, c: Byte, rest: Bytes)
    ensures Decode(Quad(a, b, c) + rest) ==
            match Decode(rest) case None => None case Some(more) => Some([a, b, c] + more)
  {
    hide Letter, Value, First, Second, Third;
    LetterValue(a / 4);
    LetterValue(a % 4 * 16 + b / 16);
    LetterValue(b % 16 * 4 + c / 64);
    LetterValue(c % 64);
    Bits(a, b, c);
    PadIsNoLetter();
    assert (Quad(a, b, c) + rest)[4..] == rest;
  }

  lemma PadIsNoLetter()
    ensures Value(PAD).None?
  {
  }

  lemma TailDecodes(a: Byte, b: Byte)
    ensures Decode([Letter(a / 4), Letter(a % 4 * 16), PAD, PAD]) == Some([a])
    ensures Decode([Letter(a / 4), Letter(a % 4 * 16 + b / 16), Letter(b % 16 * 4), PAD]) == Some([a, b])
  {
    hide Letter, Value, First, Second, Third;
    LetterValue(a / 4);
    LetterValue(a % 4 * 16);
    LetterValue(a % 4 * 16 + b / 16);
    LetterValue(b % 16 * 4);
    Bits(a, b, 0);
    Bits(a, 0, 0);
    PadIsNoLetter();
  }

  lemma EncodeStep(a: Byte, b: Byte, c: Byte, rest: Bytes)
    ensures Letters([a, b, c] + rest) == Quad(a, b, c) + Letters(rest)
    ensures Encode([a, b, c] + rest) == Quad(a, b, c) + Encode(rest)
  {
    hide Quad;
    assert ([a, b, c] + rest)[3..] == rest;
  }

  lemma {:induction false} DecodeInverts(data: Bytes)
    ensures Decode(Encode(data)) == Some(data)
  {
    if data == [] {
    } else if |data| == 1 {
      assert data == [data[0]];
      TailDecodes(data[0], 0);
      assert Encode(data) == [Letter(data[0] / 4), Letter(data[0] % 4 * 16), PAD, PAD];
    } else if |data| == 2 {
      assert data == [data[0], data[1]];
      TailDecodes(data[0], data[1]);
      assert Encode(data) ==
             [Letter(data[0] / 4), Letter(data[0] % 4 * 16 + data[1] / 16), Letter(data[1] % 16 * 4), PAD];
    } else {
      hide Quad, Encode, Decode;
      var rest := data[3..];
      assert data == [data[0], data[1], data[2]] + rest;
      EncodeStep(data[0], data[1], data[2], rest);
      QuadDecodes(data[0], data[1], data[2], Encode(rest));
      DecodeInverts(rest);
    }
  }

  lemma NoLetters()
    ensures Letters([]) == []
  {
  }

  /** Whole groups encode on their own. */
  lemma {:induction false} LettersAppend(a: Bytes, b: Bytes)
    requires |a| % 3 == 0
    ensures Letters(a + b) == Letters(a) + Letters(b)
  {
    hide Quad, Letters;
    if a == [] {
      NoLetters();
      assert a + b == b;
    } else {
      var rest := a[3..];
      assert a == [a[0], a[1], a[2]] + rest;
      assert a + b == [a[0], a[1], a[2]] + (rest + b);
      EncodeStep(a[0], a[1], a[2], rest);
      EncodeStep(a[0], a[1], a[2], rest + b);
      LettersAppend(rest, b);
    }
  }
}
