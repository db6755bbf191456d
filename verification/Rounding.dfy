/** Half-even rounding to integers, and to the 28 significant digits decimal arithmetic keeps. */
module Rounding {
  import opened Amounts

  const PRECISION: nat := 28

  predicate IsEven(n: int) {
    n % 2 == 0
  }

  /** The nearest integer; the even one of two that are equally near. */
  function HalfEven(x: real): (n: int)
    ensures x - 0.5 <= n as real <= x + 0.5
    ensures x - n as real in {-0.5, 0.5} ==> IsEven(n)
  {
    var low := x.Floor;
    var over := x - low as real;
    if over < 0.5 || (over == 0.5 && IsEven(low)) then low else low + 1
  }

  /** Rounding never reorders. */
  lemma HalfEvenIsMonotone(x: real, y: real)
    requires x <= y
    ensures HalfEven(x) <= HalfEven(y)
  {
  }

  lemma HalfEvenKeepsIntegers(n: int)
    ensures HalfEven(n as real) == n
  {
  }

  function TenTo(k: int): (p: real)
    ensures p > 0.0
    decreases if k < 0 then -k else k
  {
    if k == 0 then 1.0 else if k > 0 then 10.0 * TenTo(k - 1) else TenTo(k + 1) / 10.0
  }

  lemma TenToNext(k: int)
    ensures TenTo(k + 1) == 10.0 * TenTo(k)
  {
  }

  lemma {:induction false} TenToGrows(j: int, k: int)
    requires j <= k
    ensures TenTo(j) <= TenTo(k)
    decreases k - j
  {
    if j < k {
      TenToGrows(j, k - 1);
      TenToNext(k - 1);
    }
  }

  lemma {:induction false} TenToAdds(j: int, n: nat, k: int, p: int, u: real, v: real)
    requires k == j + n && p == Pow10(n) && u == TenTo(j) && v == TenTo(k)
    ensures v == p as real * u
  {
    if n > 0 {
      TenToAdds(j, n - 1, k - 1, Pow10(n - 1), u, TenTo(k - 1));
      TenToNext(k - 1);
      TenTimes(Pow10(n - 1), u, p, TenTo(k - 1), v);
    }
  }

  lemma TenTimes(a: int, t: real, b: int, u: real, v: real)
    requires b == 10 * a && u == a as real * t && v == 10.0 * u
    ensures v == b as real * t
  {
  }

  lemma ReciprocalShrinks(x: real)
    requires 0.0 < x < 1.0
    ensures (1.0 / (10.0 * x)).Floor < (1.0 / x).Floor
  {
    var y := 1.0 / x;
    assert y * x == 1.0;
    assert y > 1.0;
    assert 1.0 / (10.0 * x) == y / 10.0;
  }

  /** The decimal place of the leading digit of a positive number. */
  function Decade(x: real): (k: int)
    requires x > 0.0
    ensures TenTo(k) <= x < TenTo(k + 1)
    decreases x < 1.0, if x < 1.0 then (1.0 / x).Floor else x.Floor
  {
    if x >= 10.0 then
      var k := Decade(x / 10.0);
      TenToNext(k); TenToNext(k + 1);
      k + 1
    else if x < 1.0 then
      ReciprocalShrinks(x);
      var k := Decade(10.0 * x);
      TenToNext(k - 1); TenToNext(k);
      k - 1
    else
      0
  }

  /** The nearest multiple of `unit`. */
  function ToMultiple(x: real, unit: real): real
    requires unit > 0.0
  {
    HalfEven(x / unit) as real * unit
  }

  /** One unit in the last of the 28 digits that start at decimal place `k`. */
  function LastPlace(k: int): real {
    TenTo(k - (PRECISION - 1))
  }

  /** Rounding to 28 significant digits, as every inexact decimal operation does. */
  function Round28(x: real): real
    requires x >= 0.0
  {
    if x == 0.0 then 0.0 else ToMultiple(x, LastPlace(Decade(x)))
  }

  lemma Quotient(a: real, b: real, u: real)
    requires u > 0.0
    ensures a <= b * u <==> a / u <= b
    ensures a >= b * u <==> a / u >= b
    ensures a / u * u == a
  {
    var q := a / u;
    assert q * u == a;
    if q <= b {
      Times(q, b, u);
    } else {
      Times(b, q, u);
      StrictTimes(b, q, u);
    }
    if b <= q {
      Times(b, q, u);
    } else {
      StrictTimes(q, b, u);
    }
  }

  lemma Times(a: real, b: real, u: real)
    requires a <= b && u >= 0.0
    ensures a * u <= b * u
  {
  }

  lemma StrictTimes(a: real, b: real, u: real)
    requires a < b && u > 0.0
    ensures a * u < b * u
  {
  }

  lemma RoundsAbove(x: real, u: real, low: int, a: real, q: real, n: int)
    requires u > 0.0 && a == low as real * u && a <= x && q == x / u && n == HalfEven(q)
    ensures a <= n as real * u
  {
    Quotient(x, low as real, u);
    HalfEvenKeepsIntegers(low);
    HalfEvenIsMonotone(low as real, q);
    Times(low as real, n as real, u);
  }

  lemma RoundsBelow(x: real, u: real, high: int, b: real, q: real, n: int)
    requires u > 0.0 && b == high as real * u && x <= b && q == x / u && n == HalfEven(q)
    ensures n as real * u <= b
  {
    Quotient(x, high as real, u);
    HalfEvenKeepsIntegers(high);
    HalfEvenIsMonotone(q, high as real);
    Times(n as real, high as real, u);
  }

  /** Rounding to a multiple of `u` stays between multiples of `u`. */
  lemma RoundsWithin(x: real, u: real, low: int, a: real, high: int, b: real)
    requires u > 0.0 && a == low as real * u && b == high as real * u && a <= x <= b
    ensures a <= ToMultiple(x, u) <= b
  {
    RoundsAbove(x, u, low, a, x / u, HalfEven(x / u));
    RoundsBelow(x, u, high, b, x / u, HalfEven(x / u));
  }

  lemma QuotientsInOrder(x: real, y: real, u: real, q: real, r: real)
    requires u > 0.0 && x <= y && q == x / u && r == y / u
    ensures q <= r
  {
    Quotient(y, r, u);
    Quotient(x, r, u);
  }

  /** Rounding to multiples of one unit never reorders. */
  lemma RoundsInOrder(x: real, y: real, u: real)
    requires u > 0.0 && x <= y
    ensures ToMultiple(x, u) <= ToMultiple(y, u)
  {
    QuotientsInOrder(x, y, u, x / u, y / u);
    HalfEvenIsMonotone(x / u, y / u);
    Times(HalfEven(x / u) as real, HalfEven(y / u) as real, u);
  }

  lemma NearestMultiple(x: real, u: real)
    requires u > 0.0
    ensures x - 0.5 * u <= ToMultiple(x, u) <= x + 0.5 * u
  {
    var q := x / u;
    Quotient(x, q, u);
    Shift(q, -0.5, q - 0.5, u);
    Shift(q, 0.5, q + 0.5, u);
    Between(q - 0.5, HalfEven(q) as real, q + 0.5, u, x - 0.5 * u, x + 0.5 * u);
  }

  lemma Shift(q: real, d: real, shifted: real, u: real)
    requires shifted == q + d
    ensures shifted * u == q * u + d * u
  {
  }

  lemma Between(a: real, n: real, b: real, u: real, low: real, high: real)
    requires a <= n <= b && u > 0.0 && a * u == low && b * u == high
    ensures low <= n * u <= high
  {
    Times(a, n, u);
    Times(n, b, u);
  }

  predicate LeadsAt(x: real, k: int) {
    TenTo(k) <= x < TenTo(k + 1)
  }

  /** A rounded number stays in its decade, ends included. */
  lemma RoundedStays(x: real, k: int, u: real, low: real, high: real)
    requires LeadsAt(x, k) && u == LastPlace(k) && low == TenTo(k) && high == TenTo(k + 1)
    ensures low <= ToMultiple(x, u) <= high
  {
    RoundedStaysInPlaces(x, k, PRECISION - 1, k - (PRECISION - 1), u, low, high, Pow10(PRECISION - 1), Pow10(PRECISION));
  }

  lemma RoundedStaysInPlaces(x: real, k: int, places: nat, j: int, u: real, low: real, high: real, p: int, q: int)
    requires LeadsAt(x, k) && k == j + places && u == TenTo(j) && low == TenTo(k) && high == TenTo(k + 1)
    requires p == Pow10(places) && q == Pow10(places + 1)
    ensures low <= ToMultiple(x, u) <= high
  {
    TenToAdds(j, places, k, p, u, low);
    TenToAdds(j, places + 1, k + 1, q, u, high);
    RoundsWithin(x, u, p, low, q, high);
  }

  lemma RoundedIsMonotone(x: real, j: int, y: real, k: int)
    requires LeadsAt(x, j) && LeadsAt(y, k) && x <= y
    ensures ToMultiple(x, LastPlace(j)) <= ToMultiple(y, LastPlace(k))
  {
    if j == k {
      RoundsInOrder(x, y, LastPlace(k));
    } else if j < k {
      RoundedStays(x, j, LastPlace(j), TenTo(j), TenTo(j + 1));
      RoundedStays(y, k, LastPlace(k), TenTo(k), TenTo(k + 1));
      TenToGrows(j + 1, k);
    } else {
      TenToGrows(k + 1, j);
    }
  }

  /** Rounding to 28 digits never reorders either, within a decade or across them. */
  lemma Round28IsMonotone(x: real, y: real)
    requires 0.0 <= x <= y
    ensures 0.0 <= Round28(x) <= Round28(y)
  {
    if x > 0.0 {
      var k := Decade(x);
      RoundedStays(x, k, LastPlace(k), TenTo(k), TenTo(k + 1));
      RoundedIsMonotone(x, Decade(x), y, Decade(y));
    } else if y > 0.0 {
      var k := Decade(y);
      RoundedStays(y, k, LastPlace(k), TenTo(k), TenTo(k + 1));
    }
  }

  /** Half a unit of the 28th digit, relative to the number. */
  function Epsilon(): real {
    0.5 / Pow10(PRECISION - 1) as real
  }

  lemma HalfAUnit(x: real, u: real, p: int, low: real, h: real)
    requires p > 0 && h == 0.5 / p as real && low == p as real * u && low <= x
    ensures 0.5 * u <= h * x
  {
    assert h * p as real == 0.5;
    assert h * low == h * p as real * u;
    Times(low, x, h);
  }

  lemma HalfAPlace(x: real, k: int, places: nat, j: int, p: int, low: real, u: real, h: real)
    requires TenTo(k) <= x && k == j + places && u == TenTo(j) && p == Pow10(places) && low == TenTo(k) && h == 0.5 / p as real
    ensures 0.5 * u <= h * x
  {
    TenToAdds(j, places, k, p, u, low);
    HalfAUnit(x, u, p, low, h);
  }

  lemma RoundedError(x: real, k: int, u: real, r: real, epsilon: real)
    requires LeadsAt(x, k) && u == LastPlace(k) && r == ToMultiple(x, u) && epsilon == Epsilon()
    ensures x - epsilon * x <= r <= x + epsilon * x
  {
    NearestMultiple(x, u);
    HalfAPlace(x, k, PRECISION - 1, k - (PRECISION - 1), Pow10(PRECISION - 1), TenTo(k), u, epsilon);
  }

  /** Rounding to 28 digits moves a number by at most one part in 2 * 10^27. */
  lemma Round28Error(x: real, epsilon: real)
    requires x >= 0.0 && epsilon == Epsilon()
    ensures x - epsilon * x <= Round28(x) <= x + epsilon * x
  {
    if x > 0.0 {
      var k := Decade(x);
      RoundedError(x, k, LastPlace(k), Round28(x), epsilon);
    }
  }
}
