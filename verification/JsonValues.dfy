/** JSON values as the strict decoder hands them out: objects are ordered member lists. */
module JsonValues {

  datatype Option<+T> = None | Some(value: T)

  /** A number as the strict decoder keeps it: an `int`, or a `decimal.Decimal` with
      its sign, its digits as one number and its exponent. */
  datatype Numeral = Whole(n: int) | Exact(negative: bool, coefficient: nat, exponent: int) {
    function Amount(): real {
      match this
      case Whole(n) => n as real
      case Exact(negative, coefficient, exponent) =>
        (if negative then -1.0 else 1.0) * coefficient as real * TenTo(exponent)
    }
  }

  function TenTo(exponent: int): real
    decreases if exponent < 0 then -exponent else exponent
  {
    if exponent == 0 then 1.0
    else if exponent > 0 then 10.0 * TenTo(exponent - 1)
    else TenTo(exponent + 1) / 10.0
  }

  datatype Json =
    | Null
    | Bool(b: bool)
    | Number(n: Numeral)
    | String(s: string)
    | Array(items: seq<Json>)
    | Object(members: seq<Member>)

  datatype Member = Member(name: string, value: Json)

  /** `dict.get(name)`: the value of the member of that name, if there is one. */
  function Get(ms: seq<Member>, name: string): (r: Option<Json>)
    ensures r.Some? ==> Member(name, r.value) in ms
    ensures r.None? <==> name !in Names(ms)
  {
    if ms == [] then None
    else if ms[0].name == name then Some(ms[0].value)
    else Get(ms[1..], name)
  }

  /** The member names, as `set(dict)`. */
  function Names(ms: seq<Member>): set<string> {
    set m | m in ms :: m.name
  }

  predicate Has(ms: seq<Member>, name: string) {
    name in Names(ms)
  }

  /** Equality of two JSON values. With `boolIsInt` it is Python's `==`, which
      takes `True` for 1 and `False` for 0; without it, it is the instance
      equality of section 4.2.2 of JSON Schema Core 2020-12. */
  predicate Equal(a: Json, b: Json, boolIsInt: bool) {
    match (a, b)
    case (Null, Null) => true
    case (Bool(x), Bool(y)) => x == y
    case (Bool(x), Number(y)) => boolIsInt && (if x then 1.0 else 0.0) == y.Amount()
    case (Number(x), Bool(y)) => boolIsInt && x.Amount() == (if y then 1.0 else 0.0)
    case (Number(x), Number(y)) => x.Amount() == y.Amount()
    case (String(x), String(y)) => x == y
    case (Array(x), Array(y)) =>
      |x| == |y| && forall i | 0 <= i < |x| :: Equal(x[i], y[i], boolIsInt)
    case (Object(x), Object(y)) =>
      && Names(x) == Names(y)
      && forall m | m in x ::
           var other := Get(y, m.name);
           other.Some? && Equal(m.value, other.value, boolIsInt)
    case _ => false
  }
}
