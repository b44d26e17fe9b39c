module Values {

  datatype Option<+T> = None | Some(value: T)

  /** A value of the data store: Python's None, a bool, a number (int and
      float are both kept as an exact real) or a string. */
  datatype Value = Null | Bool(b: bool) | Num(x: real) | Str(s: string)

  /** `dict.get(key)`: the stored value, or None when the key is absent. */
  function Get(data: map<string, Value>, key: string): Value
  {
    if key in data then data[key] else Null
  }

  /** `is_numeric`: int, float or complex, but not bool. */
  predicate IsNumeric(v: Value)
  {
    v.Num?
  }

  /** The number Python compares a value as, if any: bools count as 0 and 1. */
  function NumberOf(v: Value): Option<real>
  {
    match v
    case Num(x) => Some(x)
    case Bool(b) => Some(if b then 1.0 else 0.0)
    case _ => None
  }

  /** Python's `==` on store values (`7 == 7.0` and `True == 1` hold). */
  predicate PyEq(a: Value, b: Value)
  {
    if NumberOf(a).Some? && NumberOf(b).Some? then NumberOf(a).value == NumberOf(b).value
    else a == b
  }

  /** Python's truth value of a store value. */
  predicate Truthy(v: Value)
  {
    match v
    case Null => false
    case Bool(b) => b
    case Num(x) => x != 0.0
    case Str(s) => s != ""
  }

  predicate IsIntegral(x: real)
  {
    x.Floor as real == x
  }

  /** `10 ** n` for a natural exponent. */
  function Pow10Nat(n: nat): (r: nat)
    ensures r >= 1
  {
    if n == 0 then 1 else 10 * Pow10Nat(n - 1)
  }

  /** `10 ** e` for any integer exponent, exactly. */
  function Pow10(e: int): (r: real)
    ensures r > 0.0
  {
    if e >= 0 then Pow10Nat(e) as real else 1.0 / Pow10Nat(-e) as real
  }

  /** Python's `round(y)`: the nearest integer, ties to the even one. */
  function RoundHalfEven(y: real): (n: int)
    ensures y - 0.5 <= n as real <= y + 0.5
    ensures IsIntegral(y) ==> n as real == y
    ensures (n as real - y == 0.5 || y - n as real == 0.5) ==> n % 2 == 0
  {
    var f := y.Floor;
    var frac := y - f as real;
    if frac < 0.5 then f
    else if frac > 0.5 then f + 1
    else if f % 2 == 0 then f
    else f + 1
  }

  lemma DivMono(c: real, d: real, p: real)
    requires p > 0.0 && c <= d
    ensures c / p <= d / p
  {
    assert (d - c) / p >= 0.0;
    assert d / p - c / p == (d - c) / p;
  }

  lemma ScaleBound(a: real, b: real, p: real)
    requires p > 0.0
    requires -0.5 <= a - b * p <= 0.5
    ensures -0.5 / p <= a / p - b <= 0.5 / p
  {
    assert (b * p) / p == b;
    assert a / p - b == (a - b * p) / p;
    DivMono(-0.5, a - b * p, p);
    DivMono(a - b * p, 0.5, p);
    assert -0.5 / p == -(0.5 / p);
  }

  /** Python's `round(x, digits)` on an exact number. */
  function Round(x: real, digits: nat): real
  {
    RoundHalfEven(x * Pow10(digits)) as real / Pow10(digits)
  }

  /** The rounded number is within half a unit of the last kept digit. */
  lemma RoundWithinHalfUnit(x: real, digits: nat)
    ensures -0.5 / Pow10(digits) <= Round(x, digits) - x <= 0.5 / Pow10(digits)
  {
    ScaleBound(RoundHalfEven(x * Pow10(digits)) as real, x, Pow10(digits));
  }

  /** Rounding leaves alone a number that has at most `digits` decimals. */
  lemma RoundExact(x: real, digits: nat, k: int)
    requires x * Pow10(digits) == k as real
    ensures Round(x, digits) == x
  {
    assert RoundHalfEven(k as real) == k;
    assert (k as real) / Pow10(digits) == x;
  }

  /** Python's `int(x)` on a number: truncation toward zero. */
  function Trunc(x: real): (n: int)
    ensures 0.0 <= x ==> n as real <= x < n as real + 1.0
    ensures x < 0.0 ==> n as real - 1.0 < x <= n as real
  {
    if x >= 0.0 then x.Floor else -((-x).Floor)
  }

  /** `calculate_value(value, sf, digits)`: `round(value * 10**sf, digits)`
      when both operands are numeric, and None (never 0, never an error)
      otherwise. */
  function CalculateValue(value: Value, sf: Value, digits: nat): (r: Value)
    requires sf.Num? ==> IsIntegral(sf.x)
    ensures r.Null? <==> !(IsNumeric(value) && IsNumeric(sf))
    ensures r.Null? || r.Num?
  {
    if IsNumeric(value) && IsNumeric(sf) then Num(Round(value.x * Pow10(sf.x.Floor), digits))
    else Null
  }

  /** Equal numbers round alike. */
  lemma RoundCong(x: real, y: real, digits: nat)
    requires x == y
    ensures Round(x, digits) == Round(y, digits)
  {
  }

  /** Two numeric operands, the exponent integral: the rounded product. */
  lemma CalculateValueOfNumbers(value: Value, sf: Value, digits: nat)
    requires value.Num? && sf.Num? && IsIntegral(sf.x)
    ensures CalculateValue(value, sf, digits) == Num(Round(value.x * Pow10(sf.x.Floor), digits))
  {
  }

  /** The storage block's fixed scale factors: a raw count with `sf = -2`
      is exactly hundredths, and with `sf = 0, digits = 0` it is the count. */
  lemma CalculateValueHundredths(value: int)
    ensures CalculateValue(Num(value as real), Num(-2.0), 2) == Num(value as real / 100.0)
  {
    var v, s := Num(value as real), Num(-2.0);
    assert s.x.Floor == -2 && IsIntegral(s.x);
    CalculateValueOfNumbers(v, s, 2);
    assert Pow10(-2) == 0.01;
    assert Pow10(2) == 100.0;
    RoundCong(v.x * Pow10(s.x.Floor), value as real * 0.01, 2);
    RoundExact(value as real * 0.01, 2, value);
  }

  lemma CalculateValueWhole(value: int)
    ensures CalculateValue(Num(value as real), Num(0.0), 0) == Num(value as real)
  {
    var v, s := Num(value as real), Num(0.0);
    assert s.x.Floor == 0 && IsIntegral(s.x);
    CalculateValueOfNumbers(v, s, 0);
    RoundCong(v.x * Pow10(s.x.Floor), value as real, 0);
    RoundExact(value as real, 0, value);
  }

  /** The two worked examples: `calculate_value(1234, -2, 2) == 12.34` and
      `calculate_value(100, 0, 0) == 100`. */
  lemma CalculateValueExamples()
    ensures CalculateValue(Num(1234.0), Num(-2.0), 2) == Num(12.34)
    ensures CalculateValue(Num(100.0), Num(0.0), 0) == Num(100.0)
  {
    CalculateValueHundredths(1234);
    CalculateValueWhole(100);
  }
}
