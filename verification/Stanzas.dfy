/** The stanzas of the age plugin protocol as the evidence plugin reads and writes
    them (`docs/research/fido-worker-interfaces/evidence/probe.py:199-232`). */
module Stanzas {
  import opened JsonValues
  import opened Base64

  const NEWLINE: Byte := 10
  const SPACE: Byte := 32
  const ARROW: Bytes := [45, 62, 32] // "-> "
  const LINE_LIMIT := 4096
  const TOTAL_LIMIT := 65536
  const CHUNK := 48  // bytes that one body line holds
  const COLUMNS := 64

  /** What reading one stanza gives. */
  datatype Read = End | Malformed | Got(kind: Bytes, arguments: seq<Bytes>, size: nat)

  // ---- Lines and fields ----------------------------------------------------------

  /** `readline(limit)`: up to and with the first newline. */
  function FirstLine(input: Bytes, limit: nat): (line: Bytes)
    ensures line <= input && |line| <= limit
    ensures NEWLINE !in line[..if line == [] then 0 else |line| - 1]
  {
    if input == [] || limit == 0 then []
    else if input[0] == NEWLINE then [NEWLINE]
    else [input[0]] + FirstLine(input[1..], limit - 1)
  }

  lemma LineSteps(b: Byte, s: Bytes, limit: nat)
    requires limit > 0
    ensures FirstLine([b] + s, limit) == if b == NEWLINE then [b] else [b] + FirstLine(s, limit - 1)
  {
    assert ([b] + s)[1..] == s;
  }

  lemma {:induction false} LineIsRead(raw: Bytes, rest: Bytes, limit: nat)
    requires NEWLINE !in raw && |raw| < limit
    ensures FirstLine(raw + [NEWLINE] + rest, limit) == raw + [NEWLINE]
  {
    hide FirstLine;
    if raw == [] {
      LineSteps(NEWLINE, rest, limit);
      assert raw + [NEWLINE] + rest == [NEWLINE] + rest;
    } else {
      var more := raw[1..];
      LineIsRead(more, rest, limit - 1);
      LineSteps(raw[0], more + [NEWLINE] + rest, limit);
      assert raw + [NEWLINE] + rest == [raw[0]] + (more + [NEWLINE] + rest);
      assert raw + [NEWLINE] == [raw[0]] + (more + [NEWLINE]);
    }
  }

  /** `split(b" ")`: never empty. */
  function Split(s: Bytes): (fields: seq<Bytes>)
    ensures |fields| > 0
  {
    if s == [] then [[]]
    else
      var rest := Split(s[1..]);
      if s[0] == SPACE then [[]] + rest else [[s[0]] + rest[0]] + rest[1..]
  }

  lemma {:induction false} NoSpaceInside(s: Bytes, k: nat)
    requires k < |Split(s)|
    ensures SPACE !in Split(s)[k] && forall b | b in Split(s)[k] :: b in s
  {
    if s != [] {
      var rest := Split(s[1..]);
      if s[0] == SPACE {
        if k > 0 {
          NoSpaceInside(s[1..], k - 1);
        }
      } else {
        NoSpaceInside(s[1..], k);
      }
    }
  }

  lemma {:induction false} SplitWord(word: Bytes, rest: Bytes)
    requires SPACE !in word
    ensures Split(word) == [word]
    ensures Split(word + [SPACE] + rest) == [word] + Split(rest)
  {
    var s := word + [SPACE] + rest;
    if word == [] {
      assert s[1..] == rest;
    } else {
      SplitWord(word[1..], rest);
      assert s[1..] == word[1..] + [SPACE] + rest;
      assert [word[0]] + word[1..] == word;
    }
  }

  /** `b" ".join`, the inverse of `Split`. */
  function Joined(fields: seq<Bytes>): Bytes {
    if fields == [] then []
    else if |fields| == 1 then fields[0]
    else fields[0] + [SPACE] + Joined(fields[1..])
  }

  lemma {:induction false} SplitsJoined(fields: seq<Bytes>)
    requires fields != [] && forall field | field in fields :: SPACE !in field
    ensures Split(Joined(fields)) == fields
  {
    hide Split;
    assert fields[0] in fields;
    if |fields| == 1 {
      SplitWord(fields[0], []);
    } else {
      SplitsJoined(fields[1..]);
      SplitWord(fields[0], Joined(fields[1..]));
      assert [fields[0]] + fields[1..] == fields;
    }
  }

  lemma {:induction false} JoinsSplit(s: Bytes)
    ensures Joined(Split(s)) == s
  {
    if s != [] {
      var rest := Split(s[1..]);
      JoinsSplit(s[1..]);
      assert s == [s[0]] + s[1..];
      if s[0] == SPACE {
        assert ([[]] + rest)[1..] == rest;
      } else {
        assert ([[s[0]] + rest[0]] + rest[1..])[1..] == rest[1..];
      }
    }
  }

  predicate Ascii(s: Bytes) {
    forall b | b in s :: b < 128
  }

  predicate AllAscii(fields: seq<Bytes>) {
    forall field | field in fields :: Ascii(field)
  }

  // ---- What a stanza is ------------------------------------------------------------

  /** The lines of a body: as many full ones as there are, then one that is not. */
  function Lines(body: Bytes): Bytes
    decreases |body|
  {
    if |body| < 48 then Letters(body) + [NEWLINE]
    else Letters(body[..48]) + [NEWLINE] + Lines(body[48..])
  }

  /** A header, with whatever arguments. */
  function Header(kind: Bytes, arguments: seq<Bytes>): Bytes {
    [45, 62, 32] + Joined([kind] + arguments) + [10]
  }

  function Written(kind: Bytes, arguments: seq<Bytes>, body: Bytes): Bytes {
    Header(kind, arguments) + Lines(body)
  }

  /** A whole line within both budgets, `total` counting it. */
  predicate Fits(line: Bytes, total: nat) {
    line != [] && |line| <= LINE_LIMIT && total <= TOTAL_LIMIT && line[|line| - 1] == NEWLINE
  }

  /** The size of a body read from here, and how much of the input it takes. */
  function Body(input: Bytes, total: nat): (r: (Option<nat>, nat))
    ensures r.1 <= |input|
    decreases |input|
  {
    var line := FirstLine(input, LINE_LIMIT + 1);
    if !Fits(line, total + |line|) then (None, |line|)
    else
      var raw := line[..|line| - 1];
      var part := Decode(raw + Pads(|raw|));
      if part.None? || |part.value| > CHUNK then (None, |line|)
      else if |part.value| < CHUNK then (Some(|part.value|), |line|)
      else
        var more := Body(input[|line|..], total + |line|);
        (if more.0.Some? then Some(CHUNK + more.0.value) else None, |line| + more.1)
  }

  function Stanza(input: Bytes, total: nat): (r: (Read, nat))
    ensures r.1 <= |input|
  {
    var line := FirstLine(input, LINE_LIMIT + 1);
    if line == [] then (End, 0)
    else if !Fits(line, total + |line|) || !(ARROW <= line) then (Malformed, |line|)
    else
      var fields := Split(line[..|line| - 1]);
      var body := Body(input[|line|..], total + |line|);
      (if |fields| >= 2 && body.0.Some? && AllAscii(fields[1..]) then Got(fields[1], fields[2..], body.0.value)
       else Malformed,
       |line| + if |fields| >= 2 then body.1 else 0)
  }

  // ---- Reading what was written ------------------------------------------------------

  /** A field that survives: no byte of it separates fields or lines. */
  predicate Plain(field: Bytes) {
    (forall b | b in field :: b < 128) && 32 !in field && 10 !in field
  }

  predicate PlainFields(kind: Bytes, arguments: seq<Bytes>) {
    Plain(kind) && forall argument | argument in arguments :: Plain(argument)
  }

  /** The header line and the whole stanza are within the budgets. */
  predicate Within(kind: Bytes, arguments: seq<Bytes>, body: Bytes, total: nat) {
    |Header(kind, arguments)| <= 4096 && total + |Written(kind, arguments, body)| <= 65536
  }

  lemma BodyStep(input: Bytes, total: nat)
    ensures var line := FirstLine(input, LINE_LIMIT + 1);
            && (!Fits(line, total + |line|) ==> Body(input, total) == (None, |line|))
            && (Fits(line, total + |line|) ==>
                  var part := Decode(line[..|line| - 1] + Pads(|line| - 1));
                  var more := Body(input[|line|..], total + |line|);
                  Body(input, total) ==
                    if part.None? || |part.value| > CHUNK then (None, |line|)
                    else if |part.value| < CHUNK then (Some(|part.value|), |line|)
                    else (if more.0.Some? then Some(CHUNK + more.0.value) else None, |line| + more.1))
  {
    hide Decode, Pads, FirstLine;
  }

  lemma OneLine(raw: Bytes, part: Bytes, rest: Bytes, total: nat)
    requires NEWLINE !in raw && |raw| < LINE_LIMIT
    requires Decode(raw + Pads(|raw|)) == Some(part) && |part| <= CHUNK
    ensures var more := Body(rest, total + |raw| + 1);
            Body(raw + [NEWLINE] + rest, total) ==
              if total + |raw| + 1 > TOTAL_LIMIT then (None, |raw| + 1)
              else if |part| < CHUNK then (Some(|part|), |raw| + 1)
              else (if more.0.Some? then Some(CHUNK + more.0.value) else None, |raw| + 1 + more.1)
  {
    hide Decode, Pads, FirstLine, Body;
    var line := raw + [NEWLINE];
    LineIsRead(raw, rest, LINE_LIMIT + 1);
    assert line[..|line| - 1] == raw;
    assert (line + rest)[|line|..] == rest;
    BodyStep(line + rest, total);
  }

  lemma {:induction false} LinesRead(body: Bytes, rest: Bytes, total: nat)
    ensures var r := Body(Lines(body) + rest, total);
            if total + |Lines(body)| <= TOTAL_LIMIT then r == (Some(|body|), |Lines(body)|) else r.0.None?
    decreases |body|
  {
    hide Letters, Decode, Body;
    var part := if |body| < CHUNK then body else body[..CHUNK];
    var raw := Letters(part);
    LettersAreLetters(part);
    DecodeInverts(part);
    if |body| < CHUNK {
      OneLine(raw, part, rest, total);
    } else {
      var more := Lines(body[CHUNK..]);
      OneLine(raw, part, more + rest, total);
      LinesRead(body[CHUNK..], rest, total + |raw| + 1);
      assert Lines(body) + rest == raw + [NEWLINE] + (more + rest);
    }
  }

  lemma LettersAreLetters(data: Bytes)
    ensures |Letters(data)| == (|data| * 4 + 2) / 3 && NEWLINE !in Letters(data)
  {
    LettersLength(data);
    assert Value(NEWLINE).None?;
  }

  lemma HeaderSplits(kind: Bytes, arguments: seq<Bytes>)
    requires PlainFields(kind, arguments)
    ensures Split(ARROW + Joined([kind] + arguments)) == [ARROW[..2], kind] + arguments
    ensures AllAscii([kind] + arguments) && NEWLINE !in ARROW + Joined([kind] + arguments)
  {
    hide Split, Joined;
    var fields := [kind] + arguments;
    assert forall field | field in fields :: Plain(field);
    SplitsJoined(fields);
    SplitWord(ARROW[..2], Joined(fields));
    assert ARROW + Joined(fields) == ARROW[..2] + [SPACE] + Joined(fields);
    assert [ARROW[..2]] + fields == [ARROW[..2], kind] + arguments;
    JoinedIsPlain(fields);
  }

  lemma {:induction false} JoinedIsPlain(fields: seq<Bytes>)
    requires forall field | field in fields :: Plain(field)
    ensures NEWLINE !in Joined(fields)
  {
    if fields != [] {
      assert fields[0] in fields;
      JoinedIsPlain(fields[1..]);
    }
  }

  lemma HeaderRead(kind: Bytes, arguments: seq<Bytes>, rest: Bytes, total: nat)
    requires PlainFields(kind, arguments)
    requires |Header(kind, arguments)| <= LINE_LIMIT && total + |Header(kind, arguments)| <= TOTAL_LIMIT
    ensures var line := Header(kind, arguments);
            var body := Body(rest, total + |line|);
            Stanza(line + rest, total) ==
              (if body.0.Some? then Got(kind, arguments, body.0.value) else Malformed, |line| + body.1)
  {
    hide Body, FirstLine, Split, Joined, PlainFields, AllAscii;
    var line := Header(kind, arguments);
    var raw := ARROW + Joined([kind] + arguments);
    HeaderSplits(kind, arguments);
    LineIsRead(raw, rest, LINE_LIMIT + 1);
    assert line[..|line| - 1] == raw;
    assert (line + rest)[|line|..] == rest;
    var fields := [ARROW[..2], kind] + arguments;
    assert fields[1..] == [kind] + arguments && fields[2..] == arguments;
  }

  /** What a stanza is read as tells what its first line was. */
  lemma FieldsArePlain(input: Bytes, total: nat)
    requires Stanza(input, total).0.Got?
    ensures PlainFields(Stanza(input, total).0.kind, Stanza(input, total).0.arguments)
    ensures var line := FirstLine(input, LINE_LIMIT + 1); Fits(line, total + |line|)
  {
    hide Body, FirstLine, Split;
    var line := FirstLine(input, LINE_LIMIT + 1);
    var fields := Split(line[..|line| - 1]);
    forall k | 1 <= k < |fields| ensures Plain(fields[k]) {
      assert fields[k] == fields[1..][k - 1] && fields[1..][k - 1] in fields[1..];
      NoSpaceInside(line[..|line| - 1], k);
    }
    forall argument | argument in fields[2..] ensures Plain(argument) {
      var k :| 0 <= k < |fields[2..]| && fields[2..][k] == argument;
      assert fields[k + 2] == argument;
    }
  }

  /** Nothing is read into a stanza: the input begins with the header that its kind and
      arguments make, and only the end of the input reads as the end. */
  lemma ReadTells(input: Bytes, total: nat)
    ensures Stanza(input, total).0.End? <==> input == []
    ensures var r := Stanza(input, total);
            r.0.Got? ==>
              && PlainFields(r.0.kind, r.0.arguments)
              && Header(r.0.kind, r.0.arguments) <= input && |Header(r.0.kind, r.0.arguments)| <= r.1
  {
    hide Body, Split, Joined, PlainFields;
    if Stanza(input, total).0.Got? {
      FieldsArePlain(input, total);
      var line := FirstLine(input, LINE_LIMIT + 1);
      var raw := line[..|line| - 1];
      HeaderUnsplit(raw);
      var fields := Split(raw);
      assert [fields[1]] + fields[2..] == fields[1..];
      assert line == raw + [NEWLINE];
    }
  }

  lemma HeaderUnsplit(raw: Bytes)
    requires ARROW <= raw
    ensures |Split(raw)| >= 2 && ARROW + Joined(Split(raw)[1..]) == raw
  {
    hide Joined;
    assert raw == ARROW[..2] + [SPACE] + raw[3..];
    SplitWord(ARROW[..2], raw[3..]);
    JoinsSplit(raw[3..]);
    assert Split(raw)[1..] == Split(raw[3..]);
  }

  lemma HeaderIsShort(kind: Bytes, arguments: seq<Bytes>, rest: Bytes, total: nat)
    requires PlainFields(kind, arguments)
    requires var line := FirstLine(Header(kind, arguments) + rest, LINE_LIMIT + 1); Fits(line, total + |line|)
    ensures |Header(kind, arguments)| <= LINE_LIMIT && total + |Header(kind, arguments)| <= TOTAL_LIMIT
  {
    hide Split, Joined, FirstLine, PlainFields;
    var raw := ARROW + Joined([kind] + arguments);
    HeaderSplits(kind, arguments);
    LineIsShort(raw, rest, total);
  }

  lemma LineIsShort(raw: Bytes, rest: Bytes, total: nat)
    requires NEWLINE !in raw
    requires var line := FirstLine(raw + [NEWLINE] + rest, LINE_LIMIT + 1); Fits(line, total + |line|)
    ensures |raw| < LINE_LIMIT && total + |raw| + 1 <= TOTAL_LIMIT
  {
    var input := raw + [NEWLINE] + rest;
    var line := FirstLine(input, LINE_LIMIT + 1);
    assert line[|line| - 1] == input[|line| - 1];
    assert forall i | 0 <= i < |raw| :: input[i] == raw[i] != NEWLINE;
    if |raw| < LINE_LIMIT {
      LineIsRead(raw, rest, LINE_LIMIT + 1);
    }
  }

  /** Reading inverts writing, with anything behind it: it gives the kind, the arguments
      and the exact size exactly where each of them is one plain field and the stanza is
      within the budgets; and it then takes what was written, not a byte more or less. */
  lemma ReadInvertsWrite(kind: Bytes, arguments: seq<Bytes>, body: Bytes, rest: Bytes, total: nat)
    ensures Stanza(Written(kind, arguments, body) + rest, total).0 == Got(kind, arguments, |body|)
       <==> PlainFields(kind, arguments) && Within(kind, arguments, body, total)
    ensures PlainFields(kind, arguments) && Within(kind, arguments, body, total) ==>
              Stanza(Written(kind, arguments, body) + rest, total).1 == |Written(kind, arguments, body)|
  {
    hide Body, FirstLine, Split, Stanza, Lines, PlainFields, Header;
    var line := Header(kind, arguments);
    var input := Written(kind, arguments, body) + rest;
    assert input == line + (Lines(body) + rest);
    LinesRead(body, rest, total + |line|);
    if PlainFields(kind, arguments) && Within(kind, arguments, body, total) {
      HeaderRead(kind, arguments, Lines(body) + rest, total);
    }
    if Stanza(input, total).0 == Got(kind, arguments, |body|) {
      FieldsArePlain(input, total);
      HeaderIsShort(kind, arguments, Lines(body) + rest, total);
      HeaderRead(kind, arguments, Lines(body) + rest, total);
    }
  }
}
