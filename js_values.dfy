/** The JavaScript values a URI query can hold once parsed, with the coercions the
    normaliser applies to them: truthiness (`!v`, `v || d`), `+v` (ToNumber),
    `Number.isFinite` and `String(v)`. */
module JsValues {
  import opened Common
  import opened Strings

  /** A JavaScript number. Finite values are exact reals: double rounding is not modelled. */
  datatype Number = Finite(value: real) | NaN | Infinity(negative: bool)

  /** A plain JavaScript value; an object is its own enumerable properties. */
  datatype JsValue =
    | Undefined
    | Null
    | Bool(b: bool)
    | Num(n: Number)
    | Str(s: string)
    | Obj(props: map<string, JsValue>)

  /** Reading `o[key]`: a missing property reads as `undefined`. */
  function Get(props: map<string, JsValue>, key: string): JsValue {
    if key in props then props[key] else Undefined
  }

  /** JavaScript truthiness: false, 0, NaN, '', null and undefined are falsy. */
  predicate Truthy(v: JsValue) {
    match v
    case Undefined => false
    case Null => false
    case Bool(b) => b
    case Num(n) => n != NaN && n != Finite(0.0)
    case Str(s) => s != ""
    case Obj(_) => true
  }

  /** A truthy value that is no object: strict-mode code throws a TypeError when it
      assigns one of its properties. */
  predicate TruthyPrimitive(v: JsValue) {
    Truthy(v) && !v.Obj?
  }

  /** `Number.isFinite(v)`: true only for a number value that is finite (no coercion). */
  predicate IsFiniteNumber(v: JsValue) {
    v.Num? && v.n.Finite?
  }

  /** The characters JavaScript's number parser skips around a numeric string
      (WhiteSpace and LineTerminator of ECMA-262). */
  predicate IsJsSpace(c: char) {
    var k := c as int;
    k == 0x09 || k == 0x0A || k == 0x0B || k == 0x0C || k == 0x0D || k == 0x20
    || k == 0xA0 || k == 0x1680 || (0x2000 <= k <= 0x200A) || k == 0x2028 || k == 0x2029
    || k == 0x202F || k == 0x205F || k == 0x3000 || k == 0xFEFF
  }

  /** `s.trim()`. */
  function Trim(s: string): (t: string)
    ensures |t| <= |s|
    ensures t != "" ==> !IsJsSpace(t[0]) && !IsJsSpace(t[|t| - 1])
    decreases |s|
  {
    if s == [] then s
    else if IsJsSpace(s[0]) then Trim(s[1..])
    else if IsJsSpace(s[|s| - 1]) then Trim(s[..|s| - 1])
    else s
  }

  function Pow10(k: nat): (p: nat)
    ensures p > 0
  {
    if k == 0 then 1 else 10 * Pow10(k - 1)
  }

  /** An unsigned decimal literal `digits`, `digits.`, `.digits` or `digits.digits`. */
  function DecimalValue(body: string): (r: Option<real>)
    ensures r.Some? ==> r.value >= 0.0
  {
    var dot := IndexOf(body, ".");
    var whole := if dot < 0 then body else body[..dot];
    var fraction := if dot < 0 then "" else body[dot + 1..];
    if |whole| + |fraction| > 0 && AllDigits(whole) && AllDigits(fraction) then
      Some(ParseNat(whole) as real + ParseNat(fraction) as real / Pow10(|fraction|) as real)
    else
      None
  }

  /** `+s` for a string: surrounding blanks are ignored, the empty string is 0,
      `Infinity` may carry a sign, and a signed decimal literal gives its value. */
  function StringToNumber(s: string): Number {
    var t := Trim(s);
    if t == "" then Finite(0.0)
    else if t == "Infinity" || t == "+Infinity" then Infinity(false)
    else if t == "-Infinity" then Infinity(true)
    else
      var body := if t[0] == '-' || t[0] == '+' then t[1..] else t;
      match DecimalValue(body)
      case Some(r) => Finite(if t[0] == '-' then -r else r)
      case None => NaN
  }

  /** `+v` (ToNumber) for the values the model holds. A plain object converts
      through its text `[object Object]`, which is not a number. */
  function ToNumber(v: JsValue): Number {
    match v
    case Undefined => NaN
    case Null => Finite(0.0)
    case Bool(b) => Finite(if b then 1.0 else 0.0)
    case Num(n) => n
    case Str(s) => StringToNumber(s)
    case Obj(_) => NaN
  }

  /** `String(v)` for a value whose numeric conversion is NaN. */
  function NonNumericText(v: JsValue): (t: string)
    requires ToNumber(v) == NaN
    ensures t != ""
  {
    match v
    case Undefined => "undefined"
    case Num(_) => "NaN"
    case Str(s) =>
      assert Trim(s) != "";
      s
    case Obj(_) => "[object Object]"
  }
}
