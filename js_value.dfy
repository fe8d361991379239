/**
  JavaScript values, as far as the library inspects them.

  Objects and arrays carry the number of their allocation, so that `===` on two
  values is plain equality here: two `{ $: v }` wrappers made by two different
  `set` calls are different `Box` values even when they wrap the same payload,
  and two arrays with equal elements are different unless they are one array.
  Numbers are integers (no NaN, no -0, no fractions).
 */
module JsValue {

  datatype Value =
    | Undefined
    | Null
    | Bool(b: bool)
    | Num(n: int)
    | Str(s: string)
    | Ref(id: nat)                  // an object, by allocation
    | Fn(id: nat)                   // a function object, by allocation
    | Box(payload: Value, id: nat)  // a `{ $: payload }` wrapper, by allocation
    | Arr(items: seq<Value>, id: nat)  // an array, by allocation

  /** `v === null || v === undefined`, the test behind `??` and `?.`. */
  predicate IsNullish(v: Value) {
    v.Undefined? || v.Null?
  }

  /** `v ?? d` */
  function Coalesce(v: Value, d: Value): (r: Value)
    ensures !IsNullish(v) ==> r == v
    ensures IsNullish(v) ==> r == d
  {
    if IsNullish(v) then d else v
  }

  /** JavaScript truthiness (`if (v)`): `null` and `undefined` are never truthy. */
  predicate Truthy(v: Value)
    ensures Truthy(v) ==> !IsNullish(v)
  {
    match v
    case Undefined => false
    case Null => false
    case Bool(b) => b
    case Num(n) => n != 0
    case Str(s) => s != ""
    case _ => true
  }

  /** `({ $ }) => $`: the payload of a wrapper; any other object has no `$`. */
  function Unwrap(v: Value): Value {
    if v.Box? then v.payload else Undefined
  }

  function DigitChar(d: nat): char
    requires d < 10
  {
    "0123456789"[d]
  }

  function NatText(n: nat): (r: string)
    ensures |r| > 0
    decreases n
  {
    if n < 10 then [DigitChar(n)] else NatText(n / 10) + [DigitChar(n % 10)]
  }

  function DecimalText(n: int): string {
    if n < 0 then "-" + NatText(-n) else NatText(n)
  }

  /** `String(v)`, the text a template literal gives `${v}`. Functions stand for
      their source text, which the model does not have. */
  function ToText(v: Value): (r: string)
    ensures r == "" ==> v == Str("") || v.Arr?
    decreases v, 1
  {
    match v
    case Undefined => "undefined"
    case Null => "null"
    case Bool(b) => if b then "true" else "false"
    case Num(n) => DecimalText(n)
    case Str(s) => s
    case Ref(_) => "[object Object]"
    case Fn(_) => "function"
    case Box(_, _) => "[object Object]"
    case Arr(items, _) => JoinElements(v, items)
  }

  /** `Array.prototype.join(",")` as `String(array)` uses it: `null` and
      `undefined` elements give "". */
  function JoinElements(whole: Value, items: seq<Value>): string
    requires forall i :: 0 <= i < |items| ==> items[i] < whole
    decreases whole, 0, |items|
  {
    if items == [] then ""
    else
      var head := if IsNullish(items[0]) then "" else ToText(items[0]);
      if |items| == 1 then head else head + "," + JoinElements(whole, items[1..])
  }
}
