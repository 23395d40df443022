/**
 * The slice of JavaScript value semantics that the dashboard's display
 * expressions rely on: truthiness, `?.` and `.` property access, `??`,
 * template-literal conversion to text and the numeric conversion that a
 * relational comparison with a number performs.
 *
 * Numbers are integers here: fractional values, NaN and the infinities are
 * not values of this model (a conversion that yields NaN is `None`).
 */
module JsValues {
  import opened Options

  /** A JavaScript value as read from the realtime store or a JSON reply. */
  datatype JsValue =
    | Undefined
    | Null
    | Bool(b: bool)
    | Num(n: int)
    | Str(s: string)
    | Obj(props: map<string, JsValue>)

  /** `null` or `undefined`: the values `??` and `?.` react to. */
  predicate Nullish(v: JsValue)
  {
    v.Undefined? || v.Null?
  }

  /**
   * JavaScript's ToBoolean: what `c ? a : b` and `&&` test. The falsy values
   * are exactly undefined, null, false, 0 and the empty string.
   */
  predicate Truthy(v: JsValue)
    ensures !Truthy(v) <==> v in {Undefined, Null, Bool(false), Num(0), Str("")}
  {
    match v
    case Undefined => false
    case Null => false
    case Bool(b) => b
    case Num(n) => n != 0
    case Str(s) => s != ""
    case Obj(_) => true
  }

  /**
   * `v?.key`: the value of the object's own property `key` when it has one,
   * and undefined otherwise: on a nullish base, on a primitive, and on an
   * object without that property. Inherited properties (a string's `length`,
   * the members of `Object.prototype`) are not values of this model.
   */
  function OptionalMember(v: JsValue, key: string): (r: JsValue)
    ensures v.Obj? && key in v.props ==> r == v.props[key]
    ensures !(v.Obj? && key in v.props) ==> r == Undefined
  {
    match v
    case Obj(props) => if key in props then props[key] else Undefined
    case _ => Undefined
  }

  /**
   * `v.key`: a TypeError (`None`) on a nullish base; otherwise the same value
   * that `v?.key` gives.
   */
  function Member(v: JsValue, key: string): (r: Option<JsValue>)
    ensures r.None? <==> Nullish(v)
    ensures r.Some? ==> r.value == OptionalMember(v, key)
  {
    if Nullish(v) then None else Some(OptionalMember(v, key))
  }

  /** `a ?? b`. */
  function Coalesce(a: JsValue, b: JsValue): (r: JsValue)
    ensures Nullish(a) ==> r == b
    ensures !Nullish(a) ==> r == a
  {
    if Nullish(a) then b else a
  }

  // ---------------------------------------------------------------- decimals

  predicate IsDigit(c: char)
  {
    '0' <= c <= '9'
  }

  predicate AllDigits(s: string)
  {
    forall i :: 0 <= i < |s| ==> IsDigit(s[i])
  }

  function DigitChar(d: nat): (c: char)
    requires d < 10
    ensures IsDigit(c) && c as int - '0' as int == d
  {
    ('0' as int + d) as char
  }

  function DigitValue(c: char): nat
    requires IsDigit(c)
  {
    c as int - '0' as int
  }

  /** The decimal numeral of `n`, most significant digit first, no leading zero. */
  function NatToDecimal(n: nat): (s: string)
    ensures |s| > 0 && AllDigits(s)
    ensures |s| > 1 ==> s[0] != '0'
    ensures n == 0 <==> s == "0"
    decreases n
  {
    if n < 10 then [DigitChar(n)] else NatToDecimal(n / 10) + [DigitChar(n % 10)]
  }

  /** The value of a non-empty string of decimal digits (leading zeros allowed). */
  function DecimalValue(s: string): nat
    requires |s| > 0 && AllDigits(s)
    decreases |s|
  {
    if |s| == 1 then DigitValue(s[0])
    else DecimalValue(s[..|s| - 1]) * 10 + DigitValue(s[|s| - 1])
  }

  /** Reading back a numeral gives the number it was written from. */
  lemma {:induction false} DecimalRoundTrip(n: nat)
    ensures DecimalValue(NatToDecimal(n)) == n
    decreases n
  {
    if n >= 10 {
      var s := NatToDecimal(n);
      assert s[..|s| - 1] == NatToDecimal(n / 10);
      DecimalRoundTrip(n / 10);
    }
  }

  /** How an integer prints: `-` for negatives, then its decimal numeral. */
  function NumberToString(n: int): string
  {
    if n < 0 then "-" + NatToDecimal(-n) else NatToDecimal(n)
  }

  /**
   * The numeric value of a string, as JavaScript's StringToNumber reads it,
   * restricted to the empty string (0) and an optional sign followed by
   * decimal digits; every other text converts to NaN (`None`).
   */
  function StringToNumber(s: string): Option<int>
  {
    if s == "" then Some(0)
    else if s[0] == '-' && |s| > 1 && AllDigits(s[1..]) then Some(-(DecimalValue(s[1..]) as int))
    else if s[0] == '+' && |s| > 1 && AllDigits(s[1..]) then Some(DecimalValue(s[1..]))
    else if AllDigits(s) then Some(DecimalValue(s))
    else None
  }

  /**
   * JavaScript's ToNumber, with NaN as `None`: undefined, a plain object and
   * a non-numeric text are NaN; null and the booleans are 0 or 1.
   */
  function ToNumber(v: JsValue): (r: Option<int>)
    ensures r.None? <==> v.Undefined? || v.Obj? || (v.Str? && StringToNumber(v.s).None?)
    ensures v.Null? ==> r == Some(0)
    ensures v.Bool? ==> r == Some(if v.b then 1 else 0)
    ensures v.Num? ==> r == Some(v.n)
    ensures v.Str? ==> r == StringToNumber(v.s)
  {
    match v
    case Undefined => None
    case Null => Some(0)
    case Bool(b) => Some(if b then 1 else 0)
    case Num(n) => Some(n)
    case Str(s) => StringToNumber(s)
    case Obj(_) => None  // a plain object converts through "[object Object]"
  }

  /** `v <= k` for a number literal `k`: false whenever `v` converts to NaN. */
  predicate LessOrEqual(v: JsValue, k: int)
    ensures ToNumber(v).None? ==> !LessOrEqual(v, k)
    ensures ToNumber(v).Some? ==> (LessOrEqual(v, k) <==> ToNumber(v).value <= k)
  {
    ToNumber(v).Some? && ToNumber(v).value <= k
  }

  /**
   * `v > k` for a number literal `k`. For a value that converts to a number
   * it is the negation of `v <= k`; for one that converts to NaN both
   * comparisons are false.
   */
  predicate Greater(v: JsValue, k: int)
    ensures ToNumber(v).Some? ==> (Greater(v, k) <==> !LessOrEqual(v, k))
    ensures ToNumber(v).None? ==> !Greater(v, k) && !LessOrEqual(v, k)
  {
    ToNumber(v).Some? && ToNumber(v).value > k
  }

  /**
   * The text a template literal `${v}` puts in place of `v`. For integers of
   * magnitude 10^21 or more JavaScript prints an exponent form ("1e+21");
   * this model prints the full numeral.
   */
  function Stringify(v: JsValue): (r: string)
    ensures v.Str? ==> r == v.s
    ensures v.Num? ==> r == NumberToString(v.n) && StringToNumber(r) == Some(v.n)
    ensures v.Bool? ==> r == if v.b then "true" else "false"
    ensures v.Null? ==> r == "null"
    ensures v.Undefined? ==> r == "undefined"
    ensures v.Obj? ==> r == "[object Object]"
  {
    match v
    case Undefined => "undefined"
    case Null => "null"
    case Bool(b) => if b then "true" else "false"
    case Num(n) => NumberTextRoundTrip(n); NumberToString(n)
    case Str(s) => s
    case Obj(_) => "[object Object]"
  }

  /** The numeral printed for an integer reads back as that integer. */
  lemma NumberTextRoundTrip(n: int)
    ensures StringToNumber(NumberToString(n)) == Some(n)
  {
    if n < 0 {
      var s := NumberToString(n);
      assert s[1..] == NatToDecimal(-n);
      DecimalRoundTrip(-n);
    } else {
      DecimalRoundTrip(n);
    }
  }

  /** The only value whose template-literal text is `--` is the string "--" itself. */
  lemma StringifyDashes(v: JsValue)
    ensures Stringify(v) == "--" <==> v == Str("--")
  {
    if v.Num? && v.n < 0 {
      var d := NatToDecimal(-v.n);
      assert Stringify(v)[1] == d[0];
      assert IsDigit(d[0]);
    } else if v.Num? {
      var d := NatToDecimal(v.n);
      assert IsDigit(d[0]);
    }
  }
}
