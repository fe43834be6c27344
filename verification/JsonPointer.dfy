/** References as JSON Schema reads them. Section 8.2.3.1 of JSON Schema Core 2020-12
    resolves a `$ref` as a URI reference; its fragment is a JSON Pointer (RFC 6901),
    in which percent-encoding (RFC 3986, section 2.1) is undone first. */
module JsonPointer {
  import opened JsonValues
  import opened Texts

  type Octet = n: int | 0 <= n < 256

  /** The decoding of UTF-8, which is not part of this model. */
  type Utf8 = seq<Octet> -> Option<string>

  /** A character takes at least one octet. */
  ghost predicate Compact(utf8: Utf8) {
    forall octets :: utf8(octets).Some? ==> |utf8(octets).value| <= |octets|
  }

  // ---- Percent-encoding ----------------------------------------------------------

  function Hex(c: char): Option<nat> {
    if '0' <= c <= '9' then Some((c - '0') as nat)
    else if 'a' <= c <= 'f' then Some((c - 'a') as nat + 10)
    else if 'A' <= c <= 'F' then Some((c - 'A') as nat + 10)
    else None
  }

  /** The octets that the text begins with, each written as `%` and two digits. */
  function Octets(s: string): (r: seq<Octet>)
    ensures 3 * |r| <= |s|
  {
    if |s| < 3 || s[0] != '%' || Hex(s[1]).None? || Hex(s[2]).None? then []
    else
      var octet := Hex(s[1]).value * 16 + Hex(s[2]).value;
      [octet] + Octets(s[3..])
  }

  function PercentDecode(s: string, utf8: Utf8): Option<string>
    decreases |s|
  {
    if s == "" then Some("")
    else if s[0] != '%' then
      var rest := PercentDecode(s[1..], utf8);
      if rest.None? then None else Some([s[0]] + rest.value)
    else
      var octets := Octets(s);
      if octets == [] || utf8(octets).None? then None
      else
        var rest := PercentDecode(s[3 * |octets|..], utf8);
        if rest.None? then None else Some(utf8(octets).value + rest.value)
  }

  /** Decoding shortens exactly what has something to decode. */
  lemma {:induction false} PercentShortens(s: string, utf8: Utf8)
    requires Compact(utf8)
    ensures '%' !in s ==> PercentDecode(s, utf8) == Some(s)
    ensures '%' in s && PercentDecode(s, utf8).Some? ==> |PercentDecode(s, utf8).value| < |s|
    ensures PercentDecode(s, utf8).Some? ==> |PercentDecode(s, utf8).value| <= |s|
    decreases |s|
  {
    if s == "" {
    } else if s[0] != '%' {
      PercentShortens(s[1..], utf8);
      assert s == [s[0]] + s[1..];
    } else if Octets(s) != [] {
      PercentShortens(s[3 * |Octets(s)|..], utf8);
    }
  }

  lemma {:induction false} PercentAppend(plain: string, s: string, utf8: Utf8)
    requires '%' !in plain
    ensures PercentDecode(plain + s, utf8) ==
            var d := PercentDecode(s, utf8); if d.None? then None else Some(plain + d.value)
  {
    if plain == "" {
      assert plain + s == s;
      assert PercentDecode(s, utf8).Some? ==> plain + PercentDecode(s, utf8).value == PercentDecode(s, utf8).value;
    } else {
      PercentAppend(plain[1..], s, utf8);
      assert (plain + s)[1..] == plain[1..] + s;
      var d := PercentDecode(s, utf8);
      assert d.Some? ==> [plain[0]] + (plain[1..] + d.value) == plain + d.value;
    }
  }

  // ---- Pointers --------------------------------------------------------------------

  /** `~1` stands for `/`, `~0` for `~`; a `~` with anything else is an error. */
  function Unescape(token: string): Option<string>
    decreases |token|
  {
    if token == "" then Some("")
    else if token[0] != '~' then
      var rest := Unescape(token[1..]);
      if rest.None? then None else Some([token[0]] + rest.value)
    else if |token| < 2 || (token[1] != '0' && token[1] != '1') then None
    else
      var rest := Unescape(token[2..]);
      if rest.None? then None else Some([if token[1] == '0' then '~' else '/'] + rest.value)
  }

  lemma {:induction false} UnescapeShortens(token: string)
    ensures '~' !in token ==> Unescape(token) == Some(token)
    ensures '~' in token && Unescape(token).Some? ==> |Unescape(token).value| < |token|
    ensures Unescape(token).Some? ==> |Unescape(token).value| <= |token|
    decreases |token|
  {
    if token == "" {
    } else if token[0] != '~' {
      UnescapeShortens(token[1..]);
      assert token == [token[0]] + token[1..];
    } else if |token| >= 2 {
      UnescapeShortens(token[2..]);
    }
  }

  predicate AllDigits(s: string) {
    forall i | 0 <= i < |s| :: '0' <= s[i] <= '9'
  }

  function Decimal(s: string): nat
    requires AllDigits(s)
  {
    if s == "" then 0
    else
      var last := s[|s| - 1];
      Decimal(s[..|s| - 1]) * 10 + (last - '0') as nat
  }

  /** One step of a pointer: the member of that name, or the item at that index. */
  function Step(value: Json, token: string): Option<Json> {
    match value
    case Object(members) => Get(members, token)
    case Array(items) =>
      if token == "" || !AllDigits(token) || (token[0] == '0' && |token| > 1) || Decimal(token) >= |items| then None
      else Some(items[Decimal(token)])
    case _ => None
  }

  function Walk(value: Json, pointer: string): Option<Json>
    decreases |pointer|
  {
    if pointer == "" then Some(value)
    else if pointer[0] != '/' then None
    else
      var rest := pointer[1..];
      var i := Index(rest, '/');
      var token := Unescape(rest[..i]);
      if token.None? || Step(value, token.value).None? then None
      else Walk(Step(value, token.value).value, rest[i..])
  }

  /** What a reference within one document refers to. */
  function Refer(reference: string, document: Json, utf8: Utf8): Option<Json> {
    if reference == "" then Some(document)
    else if reference[0] != '#' then None
    else
      var pointer := PercentDecode(reference[1..], utf8);
      if pointer.None? then None else Walk(document, pointer.value)
  }

  /** A pointer of two steps, the first a plain name. */
  lemma TwoSteps(value: Json, first: string, second: string)
    requires '/' !in first && '~' !in first
    ensures Walk(value, "/" + first + "/" + second) ==
            var v := Step(value, first); if v.None? then None else Walk(v.value, "/" + second)
  {
    hide Step;
    var pointer, rest := "/" + first + "/" + second, first + "/" + second;
    assert pointer[1..] == rest;
    IndexAppend(first, '/', second);
    assert rest[..|first|] == first && rest[|first|..] == "/" + second;
    UnescapeShortens(first);
  }
}
