/** Strict JSON decoding (`sacrysty_runtime/strict_json.py`): no object may repeat a
    name, and no number may lose its value. The raw tree is what the parser of the
    standard library read, before any of the adapter's hooks ran. */
module StrictJson {
  import opened JsonValues

  datatype Raw =
    | RawNull
    | RawBool(b: bool)
    | RawString(s: string)
    | RawInt(n: int)
    | RawFloat(text: string)
    | RawConstant(text: string) // NaN, Infinity, -Infinity
    | RawArray(items: seq<Raw>)
    | RawObject(pairs: seq<RawMember>)

  datatype RawMember = RawMember(name: string, value: Raw)

  datatype Error = DuplicateMember(name: string) | NonFinite(text: string) | Unrepresentable(text: string)
  datatype Result<+T> = Ok(value: T) | Err(error: Error)

  /** What `decimal.Decimal` makes of a text. */
  datatype Decimal = Invalid | Infinite | Finite(negative: bool, coefficient: nat, exponent: int)

  /** The `decimal` library, which is not part of this model: `Decimal(text)`, and
      `str` of a decimal. */
  datatype Decimals = Decimals(Parse: string -> Decimal, Spell: Numeral -> string)

  function Held(d: Decimal): Numeral
    requires d.Finite?
  {
    Exact(d.negative, d.coefficient, d.exponent)
  }

  /** `str` writes of a decimal what `Decimal` reads as the same decimal. */
  ghost predicate Faithful(dec: Decimals) {
    forall text :: var d := dec.Parse(text); d.Finite? ==> dec.Parse(dec.Spell(Held(d))) == d
  }

  /** Every decimal in the value is one that the library can hold. */
  ghost predicate Holds(v: Json, dec: Decimals) {
    match v
    case Number(n) => n.Exact? ==> dec.Parse(dec.Spell(n)) == Finite(n.negative, n.coefficient, n.exponent)
    case Array(items) => forall i | 0 <= i < |items| :: Holds(items[i], dec)
    case Object(members) => forall i | 0 <= i < |members| :: Holds(members[i].value, dec)
    case _ => true
  }

  // ---- The hooks ---------------------------------------------------------------

  /** The first name that repeats an earlier one. */
  function FirstRepeat(pairs: seq<Member>): (r: Option<string>)
    ensures r.None? <==> Distinct(pairs)
    ensures r.Some? ==> exists i, j | 0 <= i < j < |pairs| :: pairs[i].name == pairs[j].name == r.value
  {
    if pairs == [] then None
    else
      var last := |pairs| - 1;
      var earlier := FirstRepeat(pairs[..last]);
      if earlier.Some? then earlier
      else if Has(pairs[..last], pairs[last].name) then Some(pairs[last].name)
      else None
  }

  ghost predicate Distinct(pairs: seq<Member>) {
    forall i, j | 0 <= i < j < |pairs| :: pairs[i].name != pairs[j].name
  }

  /** It is the first: there is no repetition before it. */
  lemma {:induction false} RepeatIsFirst(pairs: seq<Member>)
    ensures FirstRepeat(pairs).Some? ==>
              exists j | 0 <= j < |pairs| :: FirstAt(pairs, j) && pairs[j].name == FirstRepeat(pairs).value
  {
    if FirstRepeat(pairs).Some? {
      var last := |pairs| - 1;
      if FirstRepeat(pairs[..last]).Some? {
        RepeatIsFirst(pairs[..last]);
        var j :| 0 <= j < last && FirstAt(pairs[..last], j)
                 && pairs[..last][j].name == FirstRepeat(pairs[..last]).value;
        assert pairs[..last][..j] == pairs[..j];
        assert FirstAt(pairs, j);
      } else {
        assert FirstAt(pairs, last);
      }
    }
  }

  ghost predicate FirstAt(pairs: seq<Member>, j: nat)
    requires j < |pairs|
  {
    Distinct(pairs[..j]) && Has(pairs[..j], pairs[j].name)
  }

  function Collect(pairs: seq<Member>): Result<seq<Member>> {
    var repeated := FirstRepeat(pairs);
    if repeated.Some? then Err(DuplicateMember(repeated.value)) else Ok(pairs)
  }

  lemma {:induction false} RepeatStays(pairs: seq<Member>, k: nat)
    requires k <= |pairs| && FirstRepeat(pairs[..k]).Some?
    ensures FirstRepeat(pairs) == FirstRepeat(pairs[..k])
    decreases |pairs| - k
  {
    if k == |pairs| {
      assert pairs[..k] == pairs;
    } else {
      assert pairs[..k + 1][..k] == pairs[..k];
      RepeatStays(pairs, k + 1);
    }
  }

  /** `_object_without_duplicate_members`: the dictionary keeps the order of insertion. */
  method ObjectWithoutDuplicateMembers(pairs: seq<Member>) returns (r: Result<seq<Member>>)
    ensures r == Collect(pairs)
  {
    var result: seq<Member> := [];
    for i := 0 to |pairs|
      invariant result == pairs[..i] && FirstRepeat(pairs[..i]).None?
    {
      assert pairs[..i + 1][..i] == pairs[..i];
      if Has(result, pairs[i].name) {
        RepeatStays(pairs, i + 1);
        return Err(DuplicateMember(pairs[i].name));
      }
      result := result + [pairs[i]];
    }
    assert pairs[..|pairs|] == pairs;
    r := Ok(result);
  }

  /** `_exact_decimal`. */
  function ExactDecimal(text: string, dec: Decimals): Result<Json> {
    match dec.Parse(text)
    case Invalid => Err(Unrepresentable(text))
    case Infinite => Err(NonFinite(text))
    case d => Ok(Number(Held(d)))
  }

  // ---- The decoder -------------------------------------------------------------

  /** The parser calls each hook as soon as what it reads is complete. */
  function Decode(raw: Raw, dec: Decimals): Result<Json> {
    match raw
    case RawNull => Ok(Null)
    case RawBool(b) => Ok(Bool(b))
    case RawString(s) => Ok(String(s))
    case RawInt(n) => Ok(Number(Whole(n)))
    case RawFloat(text) => ExactDecimal(text, dec)
    case RawConstant(text) => Err(NonFinite(text))
    case RawArray(items) =>
      var values := DecodeItems(items, dec);
      if values.Err? then Err(values.error) else Ok(Array(values.value))
    case RawObject(pairs) =>
      var values := DecodePairs(pairs, dec);
      if values.Err? then Err(values.error)
      else
        var members := Collect(values.value);
        if members.Err? then Err(members.error) else Ok(Object(members.value))
  }

  function DecodeItems(items: seq<Raw>, dec: Decimals): Result<seq<Json>> {
    if items == [] then Ok([])
    else
      var first := Decode(items[0], dec);
      if first.Err? then Err(first.error)
      else
        var rest := DecodeItems(items[1..], dec);
        if rest.Err? then rest else Ok([first.value] + rest.value)
  }

  function DecodePairs(pairs: seq<RawMember>, dec: Decimals): Result<seq<Member>> {
    if pairs == [] then Ok([])
    else
      var first := Decode(pairs[0].value, dec);
      if first.Err? then Err(first.error)
      else
        var rest := DecodePairs(pairs[1..], dec);
        if rest.Err? then rest else Ok([Member(pairs[0].name, first.value)] + rest.value)
  }

  // ---- What it should do -------------------------------------------------------

  /** Reading a value back as ordered pairs, its decimals by `str`. */
  function ReadBack(v: Json, dec: Decimals): Raw {
    match v
    case Null => RawNull
    case Bool(b) => RawBool(b)
    case String(s) => RawString(s)
    case Number(Whole(n)) => RawInt(n)
    case Number(number) => RawFloat(dec.Spell(number))
    case Array(items) => RawArray(seq(|items|, i requires 0 <= i < |items| => ReadBack(items[i], dec)))
    case Object(members) =>
      RawObject(seq(|members|, i requires 0 <= i < |members| =>
        RawMember(members[i].name, ReadBack(members[i].value, dec))))
  }

  /** The same tree with every decimal as `str` spells it: `1.0E2` becomes `1.0E+2`.
      Everything else, integers included, stays as it is. */
  function Canonical(raw: Raw, dec: Decimals): Raw {
    match raw
    case RawFloat(text) =>
      var d := dec.Parse(text);
      if d.Finite? then RawFloat(dec.Spell(Held(d))) else raw
    case RawArray(items) => RawArray(seq(|items|, i requires 0 <= i < |items| => Canonical(items[i], dec)))
    case RawObject(pairs) =>
      RawObject(seq(|pairs|, i requires 0 <= i < |pairs| =>
        RawMember(pairs[i].name, Canonical(pairs[i].value, dec))))
    case _ => raw
  }

  /** The part of a tree that a path of positions leads to. */
  function At(raw: Raw, path: seq<nat>): Option<Raw>
    decreases |path|
  {
    if path == [] then Some(raw)
    else
      match raw
      case RawArray(items) => if path[0] < |items| then At(items[path[0]], path[1..]) else None
      case RawObject(pairs) => if path[0] < |pairs| then At(pairs[path[0]].value, path[1..]) else None
      case _ => None
  }

  /** Nothing is wrong with this part itself. */
  ghost predicate Clean(part: Raw, dec: Decimals) {
    match part
    case RawFloat(text) => dec.Parse(text).Finite?
    case RawConstant(_) => false
    case RawObject(pairs) => forall i, j | 0 <= i < j < |pairs| :: pairs[i].name != pairs[j].name
    case _ => true
  }

  ghost predicate CleanAt(raw: Raw, path: seq<nat>, dec: Decimals) {
    At(raw, path).Some? ==> Clean(At(raw, path).value, dec)
  }

  /** What is wrong with this part itself. */
  ghost predicate Fault(part: Raw, error: Error, dec: Decimals) {
    match error
    case NonFinite(text) => part == RawConstant(text) || (part == RawFloat(text) && dec.Parse(text).Infinite?)
    case Unrepresentable(text) => part == RawFloat(text) && dec.Parse(text).Invalid?
    case DuplicateMember(name) => part.RawObject? && exists j :: RepeatsFirst(part.pairs, j, name)
  }

  /** The member at `j` repeats a name, and none before it does. */
  ghost predicate RepeatsFirst(pairs: seq<RawMember>, j: nat, name: string) {
    && j < |pairs| && pairs[j].name == name && (exists i :: 0 <= i < j && pairs[i].name == name)
    && forall i, k | 0 <= i < k < j :: pairs[i].name != pairs[k].name
  }

  /** The order in which parts are complete: left to right, and a part before what it is in. */
  predicate Before(q: seq<nat>, p: seq<nat>)
    decreases |q|
  {
    if q == [] then false
    else if p == [] then true
    else if q[0] != p[0] then q[0] < p[0]
    else Before(q[1..], p[1..])
  }

  /** The error is the fault of the part at this path, and everything complete before it is clean. */
  ghost predicate FaultAt(raw: Raw, path: seq<nat>, error: Error, dec: Decimals) {
    && At(raw, path).Some? && Fault(At(raw, path).value, error, dec)
    && forall q | Before(q, path) :: CleanAt(raw, q, dec)
  }

  ghost predicate FirstFault(raw: Raw, error: Error, dec: Decimals) {
    exists path :: FaultAt(raw, path, error, dec)
  }

  lemma FaultIsFirst(raw: Raw, path: seq<nat>, error: Error, dec: Decimals)
    requires FaultAt(raw, path, error, dec)
    ensures FirstFault(raw, error, dec)
  {
  }

  // ---- That it does ------------------------------------------------------------

  lemma {:induction false} ItemsDecode(items: seq<Raw>, dec: Decimals)
    decreases items
    ensures match DecodeItems(items, dec)
            case Ok(values) => |values| == |items| && forall i | 0 <= i < |items| ::
                Decode(items[i], dec) == Ok(values[i])
            case Err(error) => exists i | 0 <= i < |items| ::
              Decode(items[i], dec) == Err(error) && forall j | 0 <= j < i :: Decode(items[j], dec).Ok?
  {
    if items != [] {
      ItemsDecode(items[1..], dec);
    }
  }

  lemma {:induction false} PairsDecode(pairs: seq<RawMember>, dec: Decimals)
    decreases pairs
    ensures match DecodePairs(pairs, dec)
            case Ok(ms) =>
              && |ms| == |pairs|
              && forall i | 0 <= i < |pairs| ::
                  ms[i].name == pairs[i].name && Decode(pairs[i].value, dec) == Ok(ms[i].value)
            case Err(error) => exists i | 0 <= i < |pairs| ::
              Decode(pairs[i].value, dec) == Err(error) && forall j | 0 <= j < i :: Decode(pairs[j].value, dec).Ok?
  {
    if pairs != [] {
      PairsDecode(pairs[1..], dec);
    }
  }

  /** An error is the first fault that the parser comes to; and what decodes is clean all over. */
  lemma {:induction false} DecodeTells(raw: Raw, dec: Decimals)
    decreases raw
    ensures match Decode(raw, dec)
            case Ok(v) => ReadBack(v, dec) == Canonical(raw, dec) && forall path :: CleanAt(raw, path, dec)
            case Err(error) => FirstFault(raw, error, dec)
  {
    match raw {
      case RawArray(items) => ArrayTells(items, dec);
      case RawObject(pairs) => ObjectTells(pairs, dec);
      case RawFloat(text) =>
        LeafOnly(raw);
        match dec.Parse(text) {
          case Invalid => FaultIsFirst(raw, [], Unrepresentable(text), dec);
          case Infinite => FaultIsFirst(raw, [], NonFinite(text), dec);
          case _ =>
        }
      case RawConstant(text) =>
        LeafOnly(raw);
        FaultIsFirst(raw, [], NonFinite(text), dec);
      case _ =>
        LeafOnly(raw);
    }
  }

  lemma LeafOnly(raw: Raw)
    requires !raw.RawArray? && !raw.RawObject?
    ensures At(raw, []) == Some(raw) && forall path :: path != [] ==> At(raw, path).None?
  {
  }

  function Parts(raw: Raw): seq<Raw> {
    match raw
    case RawArray(items) => items
    case RawObject(pairs) => seq(|pairs|, i requires 0 <= i < |pairs| => pairs[i].value)
    case _ => []
  }

  lemma AtPart(raw: Raw, i: nat, path: seq<nat>)
    requires i < |Parts(raw)|
    ensures At(raw, [i] + path) == At(Parts(raw)[i], path)
    ensures forall dec :: CleanAt(raw, [i] + path, dec) <==> CleanAt(Parts(raw)[i], path, dec)
  {
    assert ([i] + path)[1..] == path;
  }

  /** What is wrong first with the first part that is not clean is wrong first with the whole. */
  lemma FaultBelow(raw: Raw, i: nat, error: Error, dec: Decimals)
    requires i < |Parts(raw)|
    requires FirstFault(Parts(raw)[i], error, dec)
    requires forall j | 0 <= j < i :: forall path :: CleanAt(Parts(raw)[j], path, dec)
    ensures FirstFault(raw, error, dec)
  {
    hide Fault, Clean, At, Parts, CleanAt;
    var path :| FaultAt(Parts(raw)[i], path, error, dec);
    AtPart(raw, i, path);
    forall q | Before(q, [i] + path) ensures CleanAt(raw, q, dec) {
      assert ([i] + path)[1..] == path;
      assert q == [q[0]] + q[1..];
      AtPart(raw, q[0], q[1..]);
      assert CleanAt(Parts(raw)[q[0]], q[1..], dec);
    }
    FaultIsFirst(raw, [i] + path, error, dec);
  }

  lemma CleanArray(items: seq<Raw>, dec: Decimals)
    requires forall i | 0 <= i < |items| :: forall path :: CleanAt(items[i], path, dec)
    ensures forall path :: CleanAt(RawArray(items), path, dec)
  {
    forall path ensures CleanAt(RawArray(items), path, dec) {
      if path != [] && path[0] < |items| {
        assert CleanAt(items[path[0]], path[1..], dec);
      }
    }
  }

  lemma {:induction false} ArrayTells(items: seq<Raw>, dec: Decimals)
    decreases items, 0
    ensures var raw := RawArray(items);
            match Decode(raw, dec)
            case Ok(v) => ReadBack(v, dec) == Canonical(raw, dec) && forall path :: CleanAt(raw, path, dec)
            case Err(error) => FirstFault(raw, error, dec)
  {
    hide Fault, Clean, FirstFault, CleanAt;
    var raw := RawArray(items);
    ItemsDecode(items, dec);
    forall i | 0 <= i < |items| {
      DecodeTells(items[i], dec);
    }
    match DecodeItems(items, dec) {
      case Ok(values) =>
        assert ReadBack(Array(values), dec).items == Canonical(raw, dec).items;
        CleanArray(items, dec);
      case Err(error) =>
        var i :| 0 <= i < |items| && Decode(items[i], dec) == Err(error)
                 && forall j | 0 <= j < i :: Decode(items[j], dec).Ok?;
        FaultBelow(raw, i, error, dec);
    }
  }

  /** An object of clean parts that repeats no name is clean, and reads back in place. */
  lemma CleanObject(pairs: seq<RawMember>, ms: seq<Member>, dec: Decimals)
    requires |ms| == |pairs| && Distinct(ms)
    requires forall i | 0 <= i < |pairs| ::
               && ms[i].name == pairs[i].name && ReadBack(ms[i].value, dec) == Canonical(pairs[i].value, dec)
               && forall path :: CleanAt(pairs[i].value, path, dec)
    ensures ReadBack(Object(ms), dec) == Canonical(RawObject(pairs), dec)
    ensures forall path :: CleanAt(RawObject(pairs), path, dec)
  {
    var raw := RawObject(pairs);
    assert ReadBack(Object(ms), dec).pairs == Canonical(raw, dec).pairs;
    forall path ensures CleanAt(raw, path, dec) {
      if path == [] {
        assert forall i, j | 0 <= i < j < |pairs| :: ms[i].name != ms[j].name;
      } else if path[0] < |pairs| {
        assert CleanAt(pairs[path[0]].value, path[1..], dec);
      }
    }
  }

  lemma {:induction false} ObjectTells(pairs: seq<RawMember>, dec: Decimals)
    decreases pairs, 0
    ensures var raw := RawObject(pairs);
            match Decode(raw, dec)
            case Ok(v) => ReadBack(v, dec) == Canonical(raw, dec) && forall path :: CleanAt(raw, path, dec)
            case Err(error) => FirstFault(raw, error, dec)
  {
    hide ReadBack, Canonical, Clean, Fault, FirstFault, CleanAt;
    var raw := RawObject(pairs);
    PairsDecode(pairs, dec);
    forall i | 0 <= i < |pairs| {
      DecodeTells(pairs[i].value, dec);
    }
    match DecodePairs(pairs, dec) {
      case Ok(ms) =>
        if Distinct(ms) {
          CleanObject(pairs, ms, dec);
        } else {
          RepeatIsFault(pairs, ms, dec);
          AllCleanBefore(raw, DuplicateMember(FirstRepeat(ms).value), dec);
        }
      case Err(error) =>
        var i :| 0 <= i < |pairs| && Decode(pairs[i].value, dec) == Err(error)
                 && forall j | 0 <= j < i :: Decode(pairs[j].value, dec).Ok?;
        FaultBelow(raw, i, error, dec);
    }
  }

  lemma {:induction false} RepeatIsFault(pairs: seq<RawMember>, ms: seq<Member>, dec: Decimals)
    requires |ms| == |pairs| && !Distinct(ms) && forall i | 0 <= i < |pairs| :: ms[i].name == pairs[i].name
    ensures Fault(RawObject(pairs), DuplicateMember(FirstRepeat(ms).value), dec)
  {
    RepeatIsFirst(ms);
    var name := FirstRepeat(ms).value;
    var j: nat :| j < |ms| && FirstAt(ms, j) && ms[j].name == name;
    var i :| 0 <= i < j && ms[i].name == name;
    assert pairs[i].name == name;
    forall i, k | 0 <= i < k < j ensures pairs[i].name != pairs[k].name {
      assert ms[..j][i].name != ms[..j][k].name;
    }
    assert RepeatsFirst(pairs, j, name);
  }

  /** Clean parts leave only the whole at fault. */
  lemma AllCleanBefore(raw: Raw, error: Error, dec: Decimals)
    requires Fault(raw, error, dec)
    requires forall i | 0 <= i < |Parts(raw)| :: forall path :: CleanAt(Parts(raw)[i], path, dec)
    requires raw.RawObject?
    ensures FirstFault(raw, error, dec)
  {
    hide Fault, Clean;
    forall q | Before(q, []) ensures CleanAt(raw, q, dec) {
      if q[0] < |Parts(raw)| {
        assert q == [q[0]] + q[1..];
        AtPart(raw, q[0], q[1..]);
        assert CleanAt(Parts(raw)[q[0]], q[1..], dec);
      }
    }
    FaultIsFirst(raw, [], error, dec);
  }

  /** What a value holds can be read back: no two values read back alike. */
  lemma {:induction false} ReadBackInjective(v: Json, w: Json, dec: Decimals)
    requires Holds(v, dec) && Holds(w, dec) && ReadBack(v, dec) == ReadBack(w, dec)
    ensures v == w
    decreases v
  {
    match v {
      case Number(Exact(negative, coefficient, exponent)) =>
        assert w.Number? && w.n.Exact?;
        assert dec.Parse(dec.Spell(v.n)) == dec.Parse(dec.Spell(w.n));
      case Array(items) =>
        var others := w.items;
        forall i | 0 <= i < |items| ensures items[i] == others[i] {
          assert ReadBack(v, dec).items[i] == ReadBack(w, dec).items[i];
          ReadBackInjective(items[i], others[i], dec);
        }
        assert items == others;
      case Object(members) =>
        var others := w.members;
        forall i | 0 <= i < |members| ensures members[i] == others[i] {
          assert ReadBack(v, dec).pairs[i] == ReadBack(w, dec).pairs[i];
          ReadBackInjective(members[i].value, others[i].value, dec);
        }
        assert members == others;
      case _ =>
    }
  }

  lemma {:induction false} DecodedHolds(raw: Raw, dec: Decimals)
    requires Faithful(dec) && Decode(raw, dec).Ok?
    ensures Holds(Decode(raw, dec).value, dec)
    decreases raw
  {
    match raw {
      case RawArray(items) =>
        ItemsDecode(items, dec);
        forall i | 0 <= i < |items| {
          DecodedHolds(items[i], dec);
        }
      case RawObject(pairs) =>
        PairsDecode(pairs, dec);
        forall i | 0 <= i < |pairs| {
          DecodedHolds(pairs[i].value, dec);
        }
      case _ =>
    }
  }

  /** Decoding succeeds exactly when, at every depth, no object repeats a name and
      every number is finite and representable; and it then returns the one value
      that reads back as the raw tree, up to the spelling of its decimals. */
  lemma DecodesExactly(raw: Raw, dec: Decimals, v: Json)
    requires Faithful(dec)
    ensures Decode(raw, dec) == Ok(v) <==>
              && Holds(v, dec) && ReadBack(v, dec) == Canonical(raw, dec)
              && forall path :: CleanAt(raw, path, dec)
  {
    DecodeTells(raw, dec);
    if Decode(raw, dec).Ok? {
      DecodedHolds(raw, dec);
    }
    match Decode(raw, dec) {
      case Ok(w) =>
        if Holds(v, dec) && ReadBack(v, dec) == Canonical(raw, dec) {
          ReadBackInjective(v, w, dec);
        }
      case Err(error) =>
        var path := FaultIsUnclean(raw, error, dec);
    }
  }

  lemma FaultIsUnclean(raw: Raw, error: Error, dec: Decimals) returns (path: seq<nat>)
    requires FirstFault(raw, error, dec)
    ensures !CleanAt(raw, path, dec)
  {
    path :| FaultAt(raw, path, error, dec);
  }

  lemma {:induction false} ReadBackIsCanonical(v: Json, dec: Decimals)
    requires Holds(v, dec)
    ensures Canonical(ReadBack(v, dec), dec) == ReadBack(v, dec)
    decreases v
  {
    match v {
      case Array(items) =>
        var raw := ReadBack(v, dec);
        forall i | 0 <= i < |items| ensures Canonical(raw.items[i], dec) == raw.items[i] {
          ReadBackIsCanonical(items[i], dec);
        }
        assert Canonical(raw, dec).items == raw.items;
      case Object(members) =>
        var raw := ReadBack(v, dec);
        forall i | 0 <= i < |members| ensures Canonical(raw.pairs[i].value, dec) == raw.pairs[i].value {
          ReadBackIsCanonical(members[i].value, dec);
        }
        assert Canonical(raw, dec).pairs == raw.pairs;
      case _ =>
    }
  }

  /** The other way round: what reads back from a value decodes to that very value,
      exactly when it repeats no name in any object. */
  lemma ReadBackDecodes(v: Json, dec: Decimals)
    requires Faithful(dec) && Holds(v, dec)
    ensures Decode(ReadBack(v, dec), dec) == Ok(v) <==> forall path :: CleanAt(ReadBack(v, dec), path, dec)
  {
    ReadBackIsCanonical(v, dec);
    DecodesExactly(ReadBack(v, dec), dec, v);
  }

  /** In an object that decodes, looking a name up finds the one member of that
      name: nothing that was written is hidden by what was written later. */
  lemma {:induction false} LookupHidesNothing(ms: seq<Member>)
    ensures Distinct(ms) ==> forall m | m in ms :: Get(ms, m.name) == Some(m.value)
    decreases |ms|
  {
    if ms != [] && Distinct(ms) {
      LookupHidesNothing(ms[1..]);
      forall m | m in ms ensures Get(ms, m.name) == Some(m.value) {
        var i :| 0 <= i < |ms| && ms[i] == m;
        if i > 0 {
          assert ms[0].name != ms[i].name;
          assert m == ms[1..][i - 1];
        }
      }
    }
  }
}
