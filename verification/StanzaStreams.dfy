/** The plugin's two streams, and whole conversations over them. */
module StanzaStreams {
  import opened JsonValues
  import opened Base64
  import opened Stanzas

  /** `rstrip(b"=")`. */
  function StripPads(s: Bytes): Bytes {
    if s != [] && s[|s| - 1] == PAD then StripPads(s[..|s| - 1]) else s
  }

  lemma {:induction false} StripsPads(s: Bytes, n: nat)
    requires s == [] || s[|s| - 1] != PAD
    ensures StripPads(s + seq(n, _ => PAD)) == s
  {
    if n == 0 {
      assert s + seq(n, _ => PAD) == s;
    } else {
      StripsPads(s, n - 1);
      var padded := s + seq(n, _ => PAD);
      assert padded[|padded| - 1] == PAD;
      assert padded[..|padded| - 1] == s + seq(n - 1, _ => PAD);
    }
  }

  lemma PadsRepeat(length: nat) returns (n: nat)
    ensures Pads(length) == seq(n, _ => PAD)
  {
    n := |Pads(length)|;
  }

  lemma EncodingStripped(data: Bytes)
    ensures StripPads(Encode(data)) == Letters(data)
  {
    hide Letters, StripPads, Pads;
    var letters := Letters(data);
    LettersLength(data);
    if letters != [] {
      assert letters[|letters| - 1] in letters;
    }
    PadIsNoLetter();
    var n := PadsRepeat(|letters|);
    StripsPads(letters, n);
  }

  /** A text in lines of 64 columns, the last one shorter. */
  function Cut(raw: Bytes): Bytes {
    if |raw| < COLUMNS then raw + [NEWLINE] else raw[..COLUMNS] + [NEWLINE] + Cut(raw[COLUMNS..])
  }

  /** The columns of the whole encoding are the encodings of 48 bytes each. */
  lemma {:induction false} CutIsLines(body: Bytes)
    ensures Cut(Letters(body)) == Lines(body)
    decreases |body|
  {
    hide Letters;
    LettersLength(body);
    if |body| >= CHUNK {
      var first, rest := body[..CHUNK], body[CHUNK..];
      assert body == first + rest;
      LettersAppend(first, rest);
      LettersLength(first);
      assert Letters(body)[..COLUMNS] == Letters(first) && Letters(body)[COLUMNS..] == Letters(rest);
      CutIsLines(rest);
    }
  }

  /** The line that the loop writes from column `i` on. */
  function LineAt(raw: Bytes, i: nat): Bytes
    requires i <= |raw|
  {
    (if i + COLUMNS <= |raw| then raw[i..i + COLUMNS] else raw[i..]) + [NEWLINE]
  }

  /** What is still to be written there; nothing after a line that was not full. */
  ghost function StillToCut(raw: Bytes, i: nat): Bytes {
    if i <= |raw| then Cut(raw[i..]) else []
  }

  lemma OneLineLess(raw: Bytes, i: nat)
    requires i < |raw|
    ensures StillToCut(raw, i) == LineAt(raw, i) + StillToCut(raw, i + COLUMNS)
  {
    if i + COLUMNS <= |raw| {
      assert raw[i..][COLUMNS..] == raw[i + COLUMNS..] && raw[i..][..COLUMNS] == raw[i..i + COLUMNS];
    }
  }

  lemma AllToCut(raw: Bytes)
    ensures StillToCut(raw, 0) == Cut(raw)
  {
    assert raw[0..] == raw;
  }

  lemma CutEnds(raw: Bytes, i: nat)
    requires |raw| <= i < |raw| + COLUMNS && i % COLUMNS == 0
    ensures StillToCut(raw, i) == if |raw| % COLUMNS == 0 then [NEWLINE] else []
  {
    assert raw[|raw|..] == [];
  }

  lemma WriteLine<T>(output: seq<T>, line: seq<T>, rest: seq<T>)
    ensures output + (line + rest) == (output + line) + rest
  {
  }

  class Plugin {
    var rest: Bytes    // standard input not yet read
    var total: nat
    var output: Bytes  // standard output

    constructor (input: Bytes)
      ensures rest == input && total == 0 && output == []
    {
      rest, total, output := input, 0, [];
    }

    /** `sys.stdin.buffer.readline(4097)`, with the count of its bytes. */
    method ReadLine() returns (line: Bytes)
      modifies this`rest, this`total
      ensures line == FirstLine(old(rest), LINE_LIMIT + 1)
      ensures rest == old(rest)[|line|..] && total == old(total) + |line|
    {
      line := FirstLine(rest, LINE_LIMIT + 1);
      rest, total := rest[|line|..], total + |line|;
    }

    /** `read_stanza`. */
    method ReadStanza() returns (r: Read)
      modifies this`rest, this`total
      ensures r == Stanza(old(rest), old(total)).0
      ensures var used := Stanza(old(rest), old(total)).1;
              rest == old(rest)[used..] && total == old(total) + used
    {
      hide FirstLine, Body, Split;
      var line := ReadLine();
      if line == [] {
        return End;
      }
      if !Fits(line, total) || !(ARROW <= line) {
        return Malformed;
      }
      var fields := Split(line[..|line| - 1]);
      if |fields| < 2 {
        return Malformed;
      }
      var size := ReadBody();
      r := if size.Some? && AllAscii(fields[1..]) then Got(fields[1], fields[2..], size.value) else Malformed;
    }

    /** Its loop over the lines of the body. */
    method ReadBody() returns (r: Option<nat>)
      modifies this`rest, this`total
      ensures r == Body(old(rest), old(total)).0
      ensures var used := Body(old(rest), old(total)).1;
              rest == old(rest)[used..] && total == old(total) + used
    {
      hide Decode, FirstLine, Pads, Body;
      var size: nat := 0;
      ghost var used: nat := 0;
      while true
        invariant used <= |old(rest)| && rest == old(rest)[used..] && total == old(total) + used
        invariant Body(old(rest), old(total)) == Longer(Body(rest, total), size, used)
        decreases |rest|
      {
        BodyStep(rest, total);
        var line := ReadLine();
        used := used + |line|;
        if !Fits(line, total) {
          return None;
        }
        var raw := line[..|line| - 1];
        var part := Decode(raw + Pads(|raw|));
        if part.None? || |part.value| > CHUNK {
          return None;
        }
        size := size + |part.value|;
        if |part.value| < CHUNK {
          return Some(size);
        }
      }
    }

    /** `write_stanza`; false when the kind is not ASCII. */
    method WriteStanza(kind: Bytes, body: Bytes) returns (written: bool)
      modifies this`output
      ensures written == Ascii(kind)
      ensures output == old(output) + if written then Written(kind, [], body) else []
    {
      if !Ascii(kind) {
        return false;
      }
      output := output + (ARROW + kind + [NEWLINE]);
      assert [kind] + [] == [kind];
      WriteBody(body);
      assert old(output) + Header(kind, []) + Lines(body) == old(output) + Written(kind, [], body);
      written := true;
    }

    /** Its loop over the columns of the encoded body. */
    method WriteBody(body: Bytes)
      modifies this`output
      ensures output == old(output) + Lines(body)
    {
      hide Encode, StripPads, Letters, Lines, Cut, LineAt, StillToCut;
      var raw := StripPads(Encode(body));
      EncodingStripped(body);
      CutIsLines(body);
      AllToCut(raw);
      var i := 0;
      while i < |raw|
        invariant i % COLUMNS == 0 && i < |raw| + COLUMNS
        invariant output + StillToCut(raw, i) == old(output) + Lines(body)
      {
        OneLineLess(raw, i);
        WriteLine(output, LineAt(raw, i), StillToCut(raw, i + COLUMNS));
        output := output + LineAt(raw, i);
        i := i + COLUMNS;
      }
      CutEnds(raw, i);
      if raw == [] || |raw| % COLUMNS == 0 {
        output := output + [NEWLINE];
      }
    }
  }

  ghost function Longer(body: (Option<nat>, nat), size: nat, used: nat): (Option<nat>, nat) {
    (if body.0.Some? then Some(size + body.0.value) else None, used + body.1)
  }

  // ---- Conversations ---------------------------------------------------------------

  datatype Item = Item(kind: Bytes, arguments: seq<Bytes>, body: Bytes)

  ghost function OneWritten(item: Item): Bytes {
    Written(item.kind, item.arguments, item.body)
  }

  ghost function AllWritten(items: seq<Item>): Bytes {
    if items == [] then [] else OneWritten(items[0]) + AllWritten(items[1..])
  }

  /** What `n` reads give, one after the other, and what they leave. */
  ghost function Reads(input: Bytes, total: nat, n: nat): (seq<Read>, Bytes) {
    if n == 0 then ([], input)
    else
      var r := Stanza(input, total);
      var more := Reads(input[r.1..], total + r.1, n - 1);
      ([r.0] + more.0, more.1)
  }

  ghost predicate OnePlain(item: Item) {
    PlainFields(item.kind, item.arguments) && |Header(item.kind, item.arguments)| <= LINE_LIMIT
  }

  ghost predicate AllPlain(items: seq<Item>) {
    items == [] || (OnePlain(items[0]) && AllPlain(items[1..]))
  }

  ghost function Expected(items: seq<Item>): seq<Read> {
    if items == [] then []
    else [Got(items[0].kind, items[0].arguments, |items[0].body|)] + Expected(items[1..])
  }

  lemma NoRead(input: Bytes, total: nat)
    ensures Reads(input, total, 0) == ([], input)
  {
  }

  lemma OneRead(input: Bytes, total: nat, n: nat)
    requires n > 0
    ensures var r := Stanza(input, total);
            var more := Reads(input[r.1..], total + r.1, n - 1);
            Reads(input, total, n) == ([r.0] + more.0, more.1)
  {
    hide Stanza;
  }

  /** A sequence of stanzas is read back one for one, every kind, all arguments and
      every size, exactly when every field is plain, every header fits a line and all
      of them together fit the budget; and what follows them is left unread. */
  lemma {:induction false} ConversationReadsBack(items: seq<Item>, rest: Bytes, total: nat)
    requires total <= TOTAL_LIMIT
    ensures Reads(AllWritten(items) + rest, total, |items|).0 == Expected(items)
       <==> AllPlain(items) && total + |AllWritten(items)| <= TOTAL_LIMIT
    ensures AllPlain(items) && total + |AllWritten(items)| <= TOTAL_LIMIT ==>
              Reads(AllWritten(items) + rest, total, |items|).1 == rest
    decreases |items|
  {
    hide Stanza, Written, PlainFields, Header, Reads;
    if items == [] {
      assert AllWritten(items) + rest == rest;
      NoRead(rest, total);
    } else {
      var item := items[0];
      var first, others := OneWritten(item), AllWritten(items[1..]) + rest;
      var input := first + others;
      assert AllWritten(items) + rest == input;
      ReadInvertsWrite(item.kind, item.arguments, item.body, others, total);
      OneRead(input, total, |items|);
      if Stanza(input, total).0 == Got(item.kind, item.arguments, |item.body|) {
        assert input[|first|..] == others;
        ConversationReadsBack(items[1..], rest, total + |first|);
        assert Reads(input, total, |items|).0[1..] == Reads(others, total + |first|, |items| - 1).0;
        assert Expected(items)[1..] == Expected(items[1..]);
      } else {
        assert Reads(input, total, |items|).0[0] != Expected(items)[0];
      }
    }
  }
}
