/**
 * JavaScript values as the adapters receive them from `response.json()`, and
 * the few language operations they apply to them: truthiness and `||`,
 * property access with and without optional chaining, indexing, numeric
 * coercion, `Math.round`, and turning a millisecond count into a `Date`
 * whose `toISOString()` either succeeds or throws.
 */
module Js {
  import opened Common
  import Text

  /** A JavaScript value; objects are dictionaries from property names to values. */
  datatype JsValue =
    | Undefined
    | Null
    | Bool(b: bool)
    | Num(n: real)
    | NaN
    | Infinity(negative: bool)
    | Str(s: string)
    | Arr(items: seq<JsValue>)
    | Obj(fields: map<string, JsValue>)

  /** `Boolean(v)`: false for undefined, null, false, 0, NaN and the empty string. */
  predicate Truthy(v: JsValue) {
    match v
    case Undefined => false
    case Null => false
    case Bool(b) => b
    case Num(n) => n != 0.0
    case NaN => false
    case Infinity(_) => true
    case Str(s) => s != ""
    case Arr(_) => true
    case Obj(_) => true
  }

  predicate Nullish(v: JsValue) { v.Undefined? || v.Null? }

  /**
   * A key or token read from the environment is set: `!key` is false for it,
   * so it is present and not the empty string.
   */
  predicate Present(key: Option<string>) { key.Some? && key.value != "" }

  /** `v || fallback`: `v` when it is truthy, `fallback` otherwise. */
  function Or(v: JsValue, fallback: JsValue): (r: JsValue)
    ensures Truthy(v) ==> r == v
    ensures !Truthy(v) ==> r == fallback
    ensures Truthy(r) <==> Truthy(v) || Truthy(fallback)
  {
    if Truthy(v) then v else fallback
  }

  /**
   * `v.key`: reading a property of undefined or null throws a TypeError;
   * strings and arrays answer `length`; any other missing property is undefined.
   * An error carries the exception's `message`, as a `catch` reads it, which
   * does not include the error's name.
   */
  function Member(v: JsValue, key: string): (r: Result<JsValue>)
    ensures r.Err? <==> Nullish(v)
    ensures v.Obj? ==> r == Ok(if key in v.fields then v.fields[key] else Undefined)
  {
    match v
    case Undefined => Err("Cannot read properties of undefined (reading '" + key + "')")
    case Null => Err("Cannot read properties of null (reading '" + key + "')")
    case Obj(fields) => Ok(if key in fields then fields[key] else Undefined)
    case Arr(items) => Ok(if key == "length" then Num(|items| as real) else Undefined)
    case Str(s) => Ok(if key == "length" then Num(|s| as real) else Undefined)
    case _ => Ok(Undefined)
  }

  /** `v?.key`: undefined when `v` is undefined or null, `v.key` otherwise. */
  function OptMember(v: JsValue, key: string): (r: JsValue)
    ensures Nullish(v) ==> r == Undefined
    ensures !Nullish(v) ==> Member(v, key) == Ok(r)
  {
    if Nullish(v) then Undefined else Member(v, key).value
  }

  /** `v[i]` for a non-negative integer index. */
  function Element(v: JsValue, i: nat): (r: Result<JsValue>)
    ensures r.Err? <==> Nullish(v)
    ensures v.Arr? ==> r == Ok(if i < |v.items| then v.items[i] else Undefined)
  {
    match v
    case Undefined => Err("Cannot read properties of undefined (reading '" + Text.NatToString(i) + "')")
    case Null => Err("Cannot read properties of null (reading '" + Text.NatToString(i) + "')")
    case Arr(items) => Ok(if i < |items| then items[i] else Undefined)
    case Str(s) => Ok(if i < |s| then Str([s[i]]) else Undefined)
    case Obj(fields) =>
      var key := Text.NatToString(i);
      Ok(if key in fields then fields[key] else Undefined)
    case _ => Ok(Undefined)
  }

  /**
   * The abstract operation ToNumber on the values JSON and the adapters
   * produce: a number, NaN or an infinity. A string is read as a numeric
   * literal; an array goes through its `join(",")` text, so the empty array
   * is 0, a one-element array is its element read as text (undefined and
   * null give "") and longer arrays, whose text has a comma, are NaN; an
   * object's text is "[object Object]", which is NaN.
   */
  function ToNumber(v: JsValue): (r: JsValue)
    ensures r.Num? || r.NaN? || r.Infinity?
    ensures v.Num? || v.NaN? || v.Infinity? ==> r == v
    ensures v.Str? ==> r == StringToNumber(v.s)
  {
    match v
    case Undefined => NaN
    case Null => Num(0.0)
    case Bool(b) => Num(if b then 1.0 else 0.0)
    case Num(_) => v
    case NaN => v
    case Infinity(_) => v
    case Str(s) => StringToNumber(s)
    case Arr(items) =>
      if |items| == 0 then Num(0.0)
      else if |items| > 1 then NaN
      else if Nullish(items[0]) then Num(0.0)
      else if items[0].Bool? || items[0].Obj? then NaN
      else ToNumber(items[0])
    case Obj(_) => NaN
  }

  /**
   * ToNumber applied to a string: surrounding white space is ignored, the
   * empty string is 0, `0x`/`0o`/`0b` introduce an unsigned hexadecimal,
   * octal or binary integer, and otherwise an optional sign precedes
   * `Infinity` or a decimal literal with optional fraction and exponent;
   * anything else is NaN.
   */
  function StringToNumber(s: string): (r: JsValue)
    ensures r.Num? || r.NaN? || r.Infinity?
  {
    var t := Text.Trim(s);
    if t == "" then Num(0.0)
    else if NonDecimal(t).Some? then Num(NonDecimal(t).value as real)
    else
      var u := Text.SkipSign(t);
      var negative := t[0] == '-';
      if u == "Infinity" then Infinity(negative)
      else match UnsignedDecimal(u)
        case Some(x) => Num(if negative then -x else x)
        case None => NaN
  }

  /** The radix a `0x`, `0o` or `0b` prefix selects (either case), or 0 for none. */
  function PrefixRadix(t: string): nat {
    if |t| < 2 || t[0] != '0' then 0
    else if t[1] == 'x' || t[1] == 'X' then 16
    else if t[1] == 'o' || t[1] == 'O' then 8
    else if t[1] == 'b' || t[1] == 'B' then 2
    else 0
  }

  /** A prefixed hexadecimal, octal or binary integer with at least one digit. */
  function NonDecimal(t: string): Option<nat> {
    var radix := PrefixRadix(t);
    if radix != 0 && |t| > 2 && Text.AllDigitsIn(t[2..], radix) then Some(Text.RadixValue(t[2..], radix))
    else None
  }

  /** An unsigned decimal literal: a mantissa, then optionally `e` or `E` and a signed exponent. */
  function UnsignedDecimal(u: string): Option<real> {
    var e := Text.FindAny(u, {'e', 'E'});
    var mantissa := Mantissa(u[..e]);
    var exponent := if e == |u| then Some(0) else Exponent(u[e + 1..]);
    if mantissa.Some? && exponent.Some? then Some(Scaled(mantissa.value, exponent.value)) else None
  }

  /** Digits with at most one `.` and at least one digit in all, so "5." and ".5" are accepted. */
  function Mantissa(m: string): Option<real> {
    var d := Text.FindAny(m, {'.'});
    var whole := m[..d];
    var fraction := if d == |m| then "" else m[d + 1..];
    if whole + fraction != "" && Text.AllDigitsIn(whole + fraction, 10) then
      Some(Text.RadixValue(whole + fraction, 10) as real / Text.Pow10(|fraction|) as real)
    else None
  }

  /** An exponent: an optional sign and at least one decimal digit. */
  function Exponent(x: string): Option<int> {
    var digits := Text.SkipSign(x);
    if digits != "" && Text.AllDigitsIn(digits, 10) then
      var v: int := Text.RadixValue(digits, 10);
      Some(if x[0] == '-' then -v else v)
    else None
  }

  /** `m` times ten to the power `e`. */
  function Scaled(m: real, e: int): real {
    if e >= 0 then m * Text.Pow10(e) as real else m / Text.Pow10(-e) as real
  }

  /** `Number(String(n))` is `n`: the decimal text of a natural number reads back as that number. */
  lemma StringToNumberOfNat(n: nat)
    ensures StringToNumber(Text.NatToString(n)) == Num(n as real)
  {
    var t := Text.NatToString(n);
    Text.NatToStringRoundTrip(n);
    DigitsLiteral(t);
    assert PrefixRadix(t) == 0 by {
      if |t| >= 2 {
        assert Text.IsDigit(t[1]);
      }
    }
    PlainLiteral(t, n as real);
  }

  /** A literal that starts with a digit and ends in no white space is read as its unsigned decimal value. */
  lemma PlainLiteral(t: string, x: real)
    requires t != [] && Text.IsDigit(t[0]) && !Text.IsJsSpace(t[|t| - 1])
    requires PrefixRadix(t) == 0 && UnsignedDecimal(t) == Some(x)
    ensures StringToNumber(t) == Num(x)
  {
    assert Text.TrimStart(t) == t;
    assert Text.TrimEnd(t) == t;
    assert NonDecimal(t).None?;
    assert Text.SkipSign(t) == t;
    assert t != "Infinity" by {
      assert t[0] != 'I';
    }
  }

  /** A run of decimal digits is an unsigned decimal literal with that value. */
  lemma DigitsLiteral(d: string)
    requires d != [] && Text.AllDigitsIn(d, 10)
    ensures UnsignedDecimal(d) == Some(Text.RadixValue(d, 10) as real)
  {
    NoMarkIn(d, {'e', 'E'});
    NoMarkIn(d, {'.'});
    assert d[..|d|] == d;
    assert d + "" == d;
    ScaledByOne(Text.RadixValue(d, 10) as real);
  }

  /** Leading white space does not change the number a string denotes. */
  lemma StringToNumberSkipsSpace(c: char, s: string)
    requires Text.IsJsSpace(c)
    ensures StringToNumber([c] + s) == StringToNumber(s)
  {
    assert ([c] + s)[1..] == s;
  }

  /** The text `w.f` of digits is read as the digits of `w + f` over ten to the number of fraction digits: "12.5" is 125 / 10. */
  lemma DecimalText(w: string, f: string)
    requires w != "" && Text.AllDigitsIn(w, 10) && Text.AllDigitsIn(f, 10)
    ensures Text.AllDigitsIn(w + f, 10)
    ensures StringToNumber(w + "." + f) == Num(Text.RadixValue(w + f, 10) as real / Text.Pow10(|f|) as real)
  {
    FractionLiteral(w, f);
    DecimalShape(w, f);
    PlainLiteral(w + "." + f, Text.RadixValue(w + f, 10) as real / Text.Pow10(|f|) as real);
  }

  /** `w.f` starts with a digit, has no radix prefix and does not end in white space. */
  lemma DecimalShape(w: string, f: string)
    requires w != "" && Text.AllDigitsIn(w, 10) && Text.AllDigitsIn(f, 10)
    ensures var t := w + "." + f; Text.IsDigit(t[0]) && !Text.IsJsSpace(t[|t| - 1]) && PrefixRadix(t) == 0
  {
    var t := w + "." + f;
    assert t[0] == w[0];
    if f == [] {
      assert t[|t| - 1] == '.';
    } else {
      assert t[|t| - 1] == f[|f| - 1];
    }
    if |w| >= 2 {
      assert t[1] == w[1];
    } else {
      assert t[1] == '.';
    }
  }

  /** `w.f` is an unsigned decimal literal whose mantissa digits are `w + f`. */
  lemma FractionLiteral(w: string, f: string)
    requires w != "" && Text.AllDigitsIn(w, 10) && Text.AllDigitsIn(f, 10)
    ensures Text.AllDigitsIn(w + f, 10)
    ensures UnsignedDecimal(w + "." + f) == Some(Text.RadixValue(w + f, 10) as real / Text.Pow10(|f|) as real)
  {
    var t := w + "." + f;
    assert forall i :: 0 <= i < |w| ==> t[i] == w[i];
    assert forall i :: 0 <= i < |f| ==> t[|w| + 1 + i] == f[i];
    NoMarkIn(t, {'e', 'E'});
    assert t[..|t|] == t;
    Text.FindAnyAt(t, {'.'}, |w|);
    assert t[..|w|] == w && t[|w| + 1..] == f;
    Text.AllDigitsInAppend(w, f, 10);
    var m := Text.RadixValue(w + f, 10) as real / Text.Pow10(|f|) as real;
    assert Mantissa(t) == Some(m);
    ScaledByOne(m);
  }

  lemma ScaledByOne(m: real)
    ensures Scaled(m, 0) == m
  {
    assert Text.Pow10(0) == 1;
  }

  /** `FindAny` runs to the end of a text none of whose characters is a mark. */
  lemma NoMarkIn(t: string, marks: set<char>)
    requires forall i :: 0 <= i < |t| ==> t[i] !in marks
    ensures Text.FindAny(t, marks) == |t|
  {
  }

  /** The empty string and arrays of at most one element convert like their `join` text. */
  lemma ToNumberExamples()
    ensures StringToNumber("") == Num(0.0)
    ensures ToNumber(Arr([])) == Num(0.0)
    ensures ToNumber(Arr([Null])) == Num(0.0)
    ensures ToNumber(Arr([Num(150.0)])) == Num(150.0)
    ensures ToNumber(Arr([Num(1.0), Num(2.0)])) == NaN
  {
  }

  /** `Math.round(v)`: infinities and NaN are returned unchanged. */
  function MathRound(v: JsValue): (r: JsValue)
    ensures r.Num? || r.NaN? || r.Infinity?
    ensures r.Num? <==> ToNumber(v).Num?
    ensures ToNumber(v).Num? ==> r == Num(Round(ToNumber(v).n) as real)
  {
    match ToNumber(v)
    case Num(x) => Num(Round(x) as real)
    case other => other
  }

  /** `v * k` for a numeric literal `k`. */
  function Times(v: JsValue, k: real): (r: JsValue)
    ensures r.Num? <==> ToNumber(v).Num?
    ensures ToNumber(v).Num? ==> r == Num(ToNumber(v).n * k)
  {
    match ToNumber(v)
    case Num(x) => Num(x * k)
    case Infinity(negative) => if k == 0.0 then NaN else Infinity(negative != (k < 0.0))
    case _ => NaN
  }

  /** The largest magnitude a `Date` time value may have: 8.64e15 ms. */
  const MAX_TIME: int := 8_640_000_000_000_000

  /** Truncation towards zero (ToIntegerOrInfinity on a finite number). */
  function Trunc(x: real): (r: int)
    ensures 0.0 <= x ==> r as real <= x < r as real + 1.0
    ensures x < 0.0 ==> r as real - 1.0 < x <= r as real
  {
    if x >= 0.0 then x.Floor else -((-x).Floor)
  }

  /**
   * `new Date(t).toISOString()` for a number `t`: the clipped time value in
   * milliseconds, or the RangeError "Invalid time value" when `t` is NaN or
   * lies outside +-8.64e15.
   */
  function DateOf(t: JsValue): (r: Result<int>)
    ensures r.Ok? <==> ToNumber(t).Num? && -MAX_TIME as real <= ToNumber(t).n <= MAX_TIME as real
    ensures r.Ok? ==> -MAX_TIME <= r.value <= MAX_TIME
  {
    match ToNumber(t)
    case Num(x) =>
      if -MAX_TIME as real <= x <= MAX_TIME as real then Ok(Trunc(x))
      else Err("Invalid time value")
    case _ => Err("Invalid time value")
  }

  /** `new Date(ms)` for an integer millisecond count. */
  function DateAt(ms: int): (r: Result<int>)
    ensures r.Ok? <==> -MAX_TIME <= ms <= MAX_TIME
    ensures r.Ok? ==> r.value == ms
  {
    DateOf(Num(ms as real))
  }
}
