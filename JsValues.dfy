/**
 * The slice of JavaScript value semantics the extension relies on: numbers
 * with NaN and the infinities, the `Number(...)` coercion, `Math.min`,
 * `Math.max`, `Math.round`, the `||` and `??` fallbacks, and the decimal
 * printing of integers used in template strings.
 */
module JsValues {

  datatype Option<+T> = None | Some(value: T)

  /** A JavaScript number. Finite numbers are exact reals; -0 is not told apart from 0. */
  datatype Num = Finite(x: real) | NaN | PosInfinity | NegInfinity

  /**
   * A JavaScript value as far as this code looks at it: `typeof v === 'number'`
   * holds exactly for `Number`; `Other` is any string, boolean or object,
   * carrying what `Number(v)` turns it into.
   */
  datatype JsVal = Undefined | Null | Number(n: Num) | Other(coerced: Num)

  /** `Number(v)`. */
  function ToNumber(v: JsVal): (r: Num)
    ensures v.Number? ==> r == v.n
    ensures v.Undefined? ==> r.NaN?
    ensures v.Null? ==> r == Finite(0.0)
    ensures v.Other? ==> r == v.coerced
  {
    match v
    case Undefined => NaN
    case Null => Finite(0.0)
    case Number(n) => n
    case Other(c) => c
  }

  /** `a <= b` on numbers that are not NaN. */
  predicate AtMost(a: Num, b: Num)
    requires !a.NaN? && !b.NaN?
  {
    match (a, b)
    case (NegInfinity, _) => true
    case (_, PosInfinity) => true
    case (Finite(x), Finite(y)) => x <= y
    case _ => false
  }

  /** `Math.min(a, b)`: NaN if either argument is NaN. */
  function Min(a: Num, b: Num): (r: Num)
    ensures r.NaN? <==> a.NaN? || b.NaN?
    ensures !r.NaN? ==> (r == a || r == b) && AtMost(r, a) && AtMost(r, b)
  {
    if a.NaN? || b.NaN? then NaN else if AtMost(a, b) then a else b
  }

  /** `Math.max(a, b)`: NaN if either argument is NaN. */
  function Max(a: Num, b: Num): (r: Num)
    ensures r.NaN? <==> a.NaN? || b.NaN?
    ensures !r.NaN? ==> (r == a || r == b) && AtMost(a, r) && AtMost(b, r)
  {
    if a.NaN? || b.NaN? then NaN else if AtMost(a, b) then b else a
  }

  /**
   * `clamp(n, min, max)` of popup.js, `Math.max(min, Math.min(max, n))`; the
   * background and content scripts inline the same expression with bounds 0 and 2.
   * NaN passes through; every other number lands in [lo, hi].
   */
  function Clamp(n: Num, lo: real, hi: real): (r: Num)
    requires lo <= hi
    ensures r.NaN? <==> n.NaN?
    ensures r.Finite? <==> !n.NaN?
    ensures r.Finite? ==> lo <= r.x <= hi
    ensures n.Finite? && lo <= n.x <= hi ==> r == n
    ensures n.Finite? && n.x < lo ==> r == Finite(lo)
    ensures n.Finite? && hi < n.x ==> r == Finite(hi)
    ensures n.PosInfinity? ==> r == Finite(hi)
    ensures n.NegInfinity? ==> r == Finite(lo)
  {
    Max(Finite(lo), Min(Finite(hi), n))
  }

  /** `n || fallback` for a number: 0 and NaN are the falsy numbers. */
  function OrElse(n: Num, fallback: Num): (r: Num)
    ensures n == Finite(0.0) || n.NaN? ==> r == fallback
    ensures n != Finite(0.0) && !n.NaN? ==> r == n
  {
    if n == Finite(0.0) || n.NaN? then fallback else n
  }

  /** `v ?? fallback`: only undefined and null are replaced. */
  function Coalesce(v: JsVal, fallback: JsVal): (r: JsVal)
    ensures v.Undefined? || v.Null? ==> r == fallback
    ensures !v.Undefined? && !v.Null? ==> r == v
  {
    if v.Undefined? || v.Null? then fallback else v
  }

  /** `Math.round(x)` for a finite x: the nearest integer, halves rounded up. */
  function Round(x: real): (k: int)
    ensures x - 0.5 < k as real <= x + 0.5
  {
    (x + 0.5).Floor
  }

  function DigitChar(d: nat): (c: char)
    requires d < 10
    ensures '0' <= c <= '9'
  {
    (48 + d) as char
  }

  /** The decimal digits of n, no leading zeros. */
  function NatToString(n: nat): (s: string)
    ensures |s| >= 1
    ensures forall i :: 0 <= i < |s| ==> '0' <= s[i] <= '9'
    ensures (|s| == 1) == (n < 10)
    decreases n
  {
    if n < 10 then [DigitChar(n)] else NatToString(n / 10) + [DigitChar(n % 10)]
  }

  /** How an integral number prints inside a template string, `${i}`. */
  function IntToString(i: int): (s: string)
    ensures |s| >= 1
    ensures (s[0] == '-') == (i < 0)
    ensures forall k :: (if i < 0 then 1 else 0) <= k < |s| ==> '0' <= s[k] <= '9'
  {
    if i < 0 then "-" + NatToString(-i) else NatToString(i)
  }

  lemma {:induction false} NatToStringInjective(a: nat, b: nat)
    requires NatToString(a) == NatToString(b)
    ensures a == b
    decreases a
  {
    var sa, sb := NatToString(a), NatToString(b);
    if a < 10 {
      assert sa == [DigitChar(a)] && sb == [DigitChar(b)];
      assert DigitChar(a) as int == 48 + a;
    } else {
      assert sa == NatToString(a / 10) + [DigitChar(a % 10)];
      assert sb == NatToString(b / 10) + [DigitChar(b % 10)];
      assert sa[|sa| - 1] == DigitChar(a % 10) && sb[|sb| - 1] == DigitChar(b % 10);
      assert a % 10 == b % 10 by {
        assert DigitChar(a % 10) as int == 48 + a % 10;
        assert DigitChar(b % 10) as int == 48 + b % 10;
      }
      assert sa[..|sa| - 1] == NatToString(a / 10);
      assert sb[..|sb| - 1] == NatToString(b / 10);
      NatToStringInjective(a / 10, b / 10);
    }
  }

  /** Two integers print the same exactly when they are equal. */
  lemma IntToStringInjective(i: int, j: int)
    ensures IntToString(i) == IntToString(j) <==> i == j
  {
    if IntToString(i) == IntToString(j) {
      var s := IntToString(i);
      if i < 0 {
        assert s[1..] == NatToString(-i) && IntToString(j)[1..] == NatToString(-j);
        NatToStringInjective(-i, -j);
      } else {
        NatToStringInjective(i, j);
      }
    }
  }
}
