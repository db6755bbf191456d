/** Exchange rates against the euro, and conversion of minor units through decimal arithmetic. */
module Rates {
  import opened Wrappers
  import opened Amounts
  import opened Rounding

  type PositiveRate = r: real | r > 0.0 witness 1.0

  /** Units per euro of each currency with a stored rate. */
  type RateTable = map<Currency, PositiveRate>

  function UnitsPerEur(rates: RateTable, currency: Currency): Option<PositiveRate> {
    if currency.EUR? then Some(1.0) else if currency in rates then Some(rates[currency]) else None
  }

  predicate CanConvert(rates: RateTable, source: Currency, target: Currency) {
    source == target || (UnitsPerEur(rates, source).Some? && UnitsPerEur(rates, target).Some?)
  }

  /** `TooLarge` is the decimal error of a result with more than 28 digits. */
  datatype Converted = NoRate | TooLarge | Amount(minorUnits: int)

  /** `y` is within a relative error `e` of `x`. */
  predicate Near(y: real, x: real, e: real) {
    x - e * x <= y <= x + e * x
  }

  /** How decimal arithmetic rounds each result, and the first number with too many digits for it. */
  datatype Context = Context(round: real -> real, limit: int)

  predicate InOrder(context: Context, x: real, y: real) {
    0.0 <= context.round(x) <= context.round(y)
  }

  predicate Accurate(context: Context, x: real, epsilon: real) {
    Near(context.round(x), x, epsilon)
  }

  /** Rounding keeps order and sign, and is accurate to a relative error. */
  ghost predicate Correct(context: Context, epsilon: real) {
    && (forall x, y | 0.0 <= x <= y :: InOrder(context, x, y))
    && (forall x | 0.0 <= x :: Accurate(context, x, epsilon))
  }

  /** Arithmetic at 28 significant digits, half-even. */
  function DefaultContext(): Context {
    Context(x => if x >= 0.0 then Round28(x) else x, Pow10(PRECISION))
  }

  lemma RoundsInOrder28(x: real, y: real)
    requires 0.0 <= x <= y
    ensures InOrder(DefaultContext(), x, y)
  {
    Round28IsMonotone(x, y);
  }

  lemma RoundsNear28(x: real, epsilon: real)
    requires 0.0 <= x && epsilon == Epsilon()
    ensures Accurate(DefaultContext(), x, epsilon)
  {
    Round28Error(x, epsilon);
  }

  /** Twenty-eight digits round in order, to within one part in 2 * 10^27. */
  lemma DefaultContextIsCorrect(context: Context, epsilon: real)
    requires context == DefaultContext() && epsilon == Epsilon()
    ensures Correct(context, epsilon)
  {
    forall x, y | 0.0 <= x <= y ensures InOrder(context, x, y) {
      RoundsInOrder28(x, y);
    }
    forall x | 0.0 <= x ensures Accurate(context, x, epsilon) {
      RoundsNear28(x, epsilon);
    }
  }

  function One(currency: Currency): (p: real)
    ensures p > 0.0
  {
    Pow10(MinorUnitExponent(currency)) as real
  }

  function Quotient(context: Context, x: real, d: real): real
    requires d > 0.0
  {
    context.round(x / d)
  }

  function Product(context: Context, x: real, c: real): real {
    context.round(x * c)
  }

  /** An amount in major units of the target: scaling, a division and a multiplication, each rounded. */
  function MajorConverted(context: Context, minorUnits: nat, sourceOne: real, sourceRate: PositiveRate, targetRate: PositiveRate): real
    requires sourceOne > 0.0
  {
    var major := Quotient(context, minorUnits as real, sourceOne);
    Product(context, Quotient(context, major, sourceRate), targetRate)
  }

  function Quantize(context: Context, x: real): Converted {
    if HalfEven(x) < context.limit then Amount(HalfEven(x)) else TooLarge
  }

  function InMinorUnits(context: Context, major: real, one: real): Converted {
    Quantize(context, major * one)
  }

  function AtRates(context: Context, minorUnits: nat, sourceOne: real, sourceRate: PositiveRate, targetRate: PositiveRate, targetOne: real): Converted
    requires sourceOne > 0.0
  {
    InMinorUnits(context, MajorConverted(context, minorUnits, sourceOne, sourceRate, targetRate), targetOne)
  }

  /** Minor units of `source` in minor units of `target`. */
  function Convert(context: Context, rates: RateTable, minorUnits: nat, source: Currency, target: Currency): Converted {
    if source == target then Amount(minorUnits) else
      var sourceRate, targetRate := UnitsPerEur(rates, source), UnitsPerEur(rates, target);
      if sourceRate.None? || targetRate.None? then NoRate else
        AtRates(context, minorUnits, One(source), sourceRate.value, targetRate.value, One(target))
  }

  // --- conversion never reorders amounts ---

  lemma Divide(x: real, y: real, d: real)
    requires d > 0.0 && 0.0 <= x <= y
    ensures 0.0 <= x / d <= y / d
  {
    Rounding.Quotient(x, y / d, d);
    Rounding.Quotient(y, y / d, d);
  }

  lemma RoundedInOrder(context: Context, epsilon: real, x: real, y: real)
    requires Correct(context, epsilon) && 0.0 <= x <= y
    ensures 0.0 <= context.round(x) <= context.round(y)
  {
    assert InOrder(context, x, y);
  }

  lemma RoundedNear(context: Context, epsilon: real, x: real)
    requires Correct(context, epsilon) && 0.0 <= x
    ensures Near(context.round(x), x, epsilon)
  {
    assert Accurate(context, x, epsilon);
  }

  lemma DividedInOrder(context: Context, epsilon: real, x: real, y: real, d: real)
    requires Correct(context, epsilon) && 0.0 <= x <= y && d > 0.0
    ensures 0.0 <= Quotient(context, x, d) <= Quotient(context, y, d)
  {
    Divide(x, y, d);
    RoundedInOrder(context, epsilon, x / d, y / d);
  }

  lemma MultipliedInOrder(context: Context, epsilon: real, x: real, y: real, c: real)
    requires Correct(context, epsilon) && 0.0 <= x <= y && c > 0.0
    ensures 0.0 <= Product(context, x, c) <= Product(context, y, c)
  {
    Multiply(x, y, c, x * c, y * c);
    RoundedInOrder(context, epsilon, x * c, y * c);
  }

  lemma MajorIsMonotone(context: Context, epsilon: real, m: nat, n: nat, sourceOne: real, sourceRate: PositiveRate, targetRate: PositiveRate)
    requires Correct(context, epsilon) && m <= n && sourceOne > 0.0
    ensures 0.0 <= MajorConverted(context, m, sourceOne, sourceRate, targetRate)
                <= MajorConverted(context, n, sourceOne, sourceRate, targetRate)
  {
    DividedInOrder(context, epsilon, m as real, n as real, sourceOne);
    var a, b := Quotient(context, m as real, sourceOne), Quotient(context, n as real, sourceOne);
    DividedInOrder(context, epsilon, a, b, sourceRate);
    MultipliedInOrder(context, epsilon, Quotient(context, a, sourceRate), Quotient(context, b, sourceRate), targetRate);
  }

  lemma QuantizeIsMonotone(context: Context, x: real, y: real)
    requires 0.0 <= x <= y && Quantize(context, y).Amount?
    ensures Quantize(context, x).Amount? && 0 <= Quantize(context, x).minorUnits <= Quantize(context, y).minorUnits
  {
    HalfEvenIsMonotone(0.0, x);
    HalfEvenIsMonotone(x, y);
  }

  lemma Multiply(a: real, b: real, c: real, p: real, q: real)
    requires 0.0 <= a <= b && c > 0.0 && p == a * c && q == b * c
    ensures 0.0 <= p <= q
  {
    NonNegative(a, c);
    Times(a, b, c);
  }

  lemma InMinorUnitsIsMonotone(context: Context, a: real, b: real, one: real, x: Converted, y: Converted)
    requires 0.0 <= a <= b && one > 0.0 && x == InMinorUnits(context, a, one) && y == InMinorUnits(context, b, one) && y.Amount?
    ensures x.Amount? && 0 <= x.minorUnits <= y.minorUnits
  {
    var p, q := a * one, b * one;
    Multiply(a, b, one, p, q);
    QuantizeIsMonotone(context, p, q);
  }

  lemma AtRatesIsMonotone(context: Context, epsilon: real, m: nat, n: nat,
      sourceOne: real, sourceRate: PositiveRate, targetRate: PositiveRate, targetOne: real, x: Converted, y: Converted)
    requires Correct(context, epsilon) && m <= n && sourceOne > 0.0 && targetOne > 0.0
    requires x == AtRates(context, m, sourceOne, sourceRate, targetRate, targetOne)
    requires y == AtRates(context, n, sourceOne, sourceRate, targetRate, targetOne) && y.Amount?
    ensures x.Amount? && 0 <= x.minorUnits <= y.minorUnits
  {
    MajorIsMonotone(context, epsilon, m, n, sourceOne, sourceRate, targetRate);
    InMinorUnitsIsMonotone(context, MajorConverted(context, m, sourceOne, sourceRate, targetRate),
                           MajorConverted(context, n, sourceOne, sourceRate, targetRate), targetOne, x, y);
  }

  /** Through every rounding, a larger amount never converts to less; what fits stays fitting below. */
  lemma ConvertIsMonotone(context: Context, epsilon: real, rates: RateTable, m: nat, n: nat, source: Currency, target: Currency)
    requires Correct(context, epsilon) && m <= n && Convert(context, rates, n, source, target).Amount?
    ensures Convert(context, rates, m, source, target).Amount?
    ensures 0 <= Convert(context, rates, m, source, target).minorUnits <= Convert(context, rates, n, source, target).minorUnits
  {
    if source != target {
      AtRatesIsMonotone(context, epsilon, m, n, One(source), UnitsPerEur(rates, source).value, UnitsPerEur(rates, target).value,
                        One(target), Convert(context, rates, m, source, target), Convert(context, rates, n, source, target));
    }
  }

  // --- how far conversion is from the exact value ---

  lemma NearScaled(y: real, x: real, e: real, c: real)
    requires Near(y, x, e) && c >= 0.0
    ensures Near(y * c, x * c, e)
  {
    Times(x - e * x, y, c);
    Times(y, x + e * x, c);
    Expand(x, e, c);
  }

  lemma Expand(x: real, e: real, c: real)
    ensures (x - e * x) * c == x * c - e * (x * c)
    ensures (x + e * x) * c == x * c + e * (x * c)
  {
  }

  lemma NearDivided(y: real, x: real, e: real, c: real)
    requires Near(y, x, e) && c > 0.0
    ensures Near(y / c, x / c, e)
  {
    NearScaled(y, x, e, 1.0 / c);
    assert y / c == y * (1.0 / c) && x / c == x * (1.0 / c);
  }

  /** Errors add up, with their product. */
  lemma NearTwice(z: real, y: real, x: real, e: real, f: real, sum: real)
    requires Near(y, x, e) && Near(z, y, f) && 0.0 <= e && 0.0 <= f <= 1.0 && 0.0 <= x && sum == e + f + e * f
    ensures Near(z, x, sum)
  {
    Upper(z, y, x, e, f);
    Lower(z, y, x, e, f);
    assert sum * x == e * x + f * x + e * f * x;
    NonNegative(e * f, x);
  }

  lemma NonNegative(a: real, b: real)
    requires a >= 0.0 && b >= 0.0
    ensures a * b >= 0.0
  {
  }

  lemma Upper(z: real, y: real, x: real, e: real, f: real)
    requires y <= x + e * x && z <= y + f * y && 0.0 <= f
    ensures z <= x + e * x + f * x + e * f * x
  {
    Times(y, x + e * x, f);
    assert (x + e * x) * f == f * x + e * f * x;
  }

  lemma Lower(z: real, y: real, x: real, e: real, f: real)
    requires x - e * x <= y && y - f * y <= z && 0.0 <= f <= 1.0 && 0.0 <= e && 0.0 <= x
    ensures z >= x - e * x - f * x
  {
    Times(x - e * x, y, 1.0 - f);
    assert y * (1.0 - f) == y - f * y;
    assert (x - e * x) * (1.0 - f) == x - e * x - f * x + e * f * x;
    NonNegative(e, f);
    NonNegative(e * f, x);
  }

  lemma NearWeaker(y: real, x: real, e: real, f: real)
    requires Near(y, x, e) && e <= f && 0.0 <= x
    ensures Near(y, x, f)
  {
    Times(e, f, x);
  }

  lemma EpsilonIsSmall(epsilon: real)
    requires epsilon == Epsilon()
    ensures 0.0 < epsilon <= 0.1
  {
  }

  lemma TwoErrors(e: real, square: real, two: real, product: real, three: real)
    requires 0.0 < e && 0.0 <= square <= 0.1 * e && two == e + e + square
    requires 0.0 <= product <= 0.1 * two && three == two + e + product
    ensures 0.0 <= two && 0.0 <= three <= 4.0 * e
  {
  }

  lemma SmallProduct(e: real, x: real, product: real)
    requires 0.0 < e <= 0.1 && 0.0 <= x && product == e * x
    ensures 0.0 <= product <= 0.1 * x
  {
    Times(e, 0.1, x);
  }

  lemma ThreeErrors(e: real, square: real, two: real, product: real, three: real)
    requires 0.0 < e <= 0.1 && square == e * e && two == e + e + square && product == e * two && three == two + e + product
    ensures 0.0 <= two && 0.0 <= three <= 4.0 * e
  {
    SmallProduct(e, e, square);
    SmallProduct(e, two, product);
    TwoErrors(e, square, two, product, three);
  }

  /** A rounded quotient of something near `x` is near the exact quotient. */
  lemma RoundedQuotient(context: Context, epsilon: real, y: real, x: real, e: real, d: real, q: real, sum: real)
    requires Correct(context, epsilon) && 0.0 < epsilon <= 0.1 && 0.0 <= x && 0.0 <= y && 0.0 <= e && d > 0.0 && q == x / d
    requires Near(y, x, e) && sum == e + epsilon + epsilon * e
    ensures 0.0 <= q && 0.0 <= Quotient(context, y, d) && Near(Quotient(context, y, d), q, sum)
  {
    Divide(0.0, x, d);
    Divide(0.0, y, d);
    NearDivided(y, x, e, d);
    RoundedInOrder(context, epsilon, 0.0, y / d);
    RoundedNear(context, epsilon, y / d);
    NearTwice(Quotient(context, y, d), y / d, q, e, epsilon, sum);
  }

  lemma RoundedProduct(context: Context, epsilon: real, y: real, x: real, e: real, c: real, p: real, sum: real)
    requires Correct(context, epsilon) && 0.0 < epsilon <= 0.1 && 0.0 <= x && 0.0 <= y && 0.0 <= e && c > 0.0 && p == x * c
    requires Near(y, x, e) && sum == e + epsilon + epsilon * e
    ensures 0.0 <= p && 0.0 <= Product(context, y, c) && Near(Product(context, y, c), p, sum)
  {
    NonNegative(x, c);
    NonNegative(y, c);
    NearScaled(y, x, e, c);
    RoundedInOrder(context, epsilon, 0.0, y * c);
    RoundedNear(context, epsilon, y * c);
    NearTwice(Product(context, y, c), y * c, p, e, epsilon, sum);
  }

  /** Three roundings on the way from `a` to `c` move it by at most four epsilons. */
  lemma MajorErrors(context: Context, epsilon: real, minorUnits: nat, sourceOne: real, sourceRate: PositiveRate, targetRate: PositiveRate,
      a: real, b: real, c: real)
    requires Correct(context, epsilon) && 0.0 < epsilon <= 0.1 && sourceOne > 0.0
    requires a == minorUnits as real / sourceOne && b == a / sourceRate && c == b * targetRate
    ensures 0.0 <= c && Near(MajorConverted(context, minorUnits, sourceOne, sourceRate, targetRate), c, 4.0 * epsilon)
  {
    var square := epsilon * epsilon;
    var two := epsilon + epsilon + square;
    var product := epsilon * two;
    var three := two + epsilon + product;
    ThreeErrors(epsilon, square, two, product, three);
    FirstRounding(context, epsilon, minorUnits, sourceOne, a);
    var x := Quotient(context, minorUnits as real, sourceOne);
    RoundedQuotient(context, epsilon, x, a, epsilon, sourceRate, b, two);
    var y := Quotient(context, x, sourceRate);
    RoundedProduct(context, epsilon, y, b, two, targetRate, c, three);
    NearWeaker(Product(context, y, targetRate), c, three, 4.0 * epsilon);
  }

  lemma FirstRounding(context: Context, epsilon: real, minorUnits: nat, sourceOne: real, a: real)
    requires Correct(context, epsilon) && sourceOne > 0.0 && a == minorUnits as real / sourceOne
    ensures 0.0 <= a && 0.0 <= Quotient(context, minorUnits as real, sourceOne)
    ensures Near(Quotient(context, minorUnits as real, sourceOne), a, epsilon)
  {
    Divide(0.0, minorUnits as real, sourceOne);
    RoundedNear(context, epsilon, a);
    RoundedInOrder(context, epsilon, 0.0, a);
  }

  /** One part in 5 * 10^26: what three roundings to 28 digits can amount to. */
  function Drift(): real {
    4.0 * Epsilon()
  }

  /** The exact rational value of one minor unit of `source`, in minor units of `target`. */
  function Worth(sourceOne: real, sourceRate: PositiveRate, targetRate: PositiveRate, targetOne: real): real
    requires sourceOne > 0.0
  {
    1.0 / sourceOne / sourceRate * targetRate * targetOne
  }

  function ExactRate(rates: RateTable, source: Currency, target: Currency): real
    requires CanConvert(rates, source, target)
  {
    if source == target then 1.0
    else Worth(One(source), UnitsPerEur(rates, source).value, UnitsPerEur(rates, target).value, One(target))
  }

  lemma DivideMultiple(m: real, x: real, d: real, y: real)
    requires d > 0.0 && y == m * x
    ensures y / d == m * (x / d)
  {
    assert y / d * d == y;
    assert m * (x / d) * d == m * (x / d * d);
    Cancel(y / d, m * (x / d), d);
  }

  lemma Cancel(p: real, q: real, d: real)
    requires d > 0.0 && p * d == q * d
    ensures p == q
  {
    if p < q { StrictTimes(p, q, d); } else if q < p { StrictTimes(q, p, d); }
  }

  lemma Associate(m: real, x: real, c: real, y: real)
    requires y == m * x
    ensures y * c == m * (x * c)
  {
  }

  lemma ExactIsLinear(m: real, sourceOne: real, sourceRate: PositiveRate, targetRate: PositiveRate, targetOne: real, a: real, b: real, c: real)
    requires sourceOne > 0.0 && a == m / sourceOne && b == a / sourceRate && c == b * targetRate
    ensures c * targetOne == m * Worth(sourceOne, sourceRate, targetRate, targetOne)
  {
    DivideMultiple(m, 1.0, sourceOne, m);
    DivideMultiple(m, 1.0 / sourceOne, sourceRate, a);
    Associate(m, 1.0 / sourceOne / sourceRate, targetRate, b);
    Associate(m, 1.0 / sourceOne / sourceRate * targetRate, targetOne, c);
  }

  /** `n` is within half a minor unit, and a relative error of `e`, of `exact`. */
  predicate Close(n: int, exact: real, e: real) {
    exact - e * exact - 0.5 <= n as real <= exact + e * exact + 0.5
  }

  lemma InMinorUnitsError(context: Context, major: real, c: real, one: real, e: real, exact: real, r: Converted)
    requires Near(major, c, e) && one > 0.0 && exact == c * one && r == InMinorUnits(context, major, one) && r.Amount?
    ensures Close(r.minorUnits, exact, e)
  {
    NearScaled(major, c, e, one);
    QuantizeError(context, major * one, exact, e, r);
  }

  lemma QuantizeError(context: Context, x: real, exact: real, e: real, r: Converted)
    requires Near(x, exact, e) && r == Quantize(context, x) && r.Amount?
    ensures Close(r.minorUnits, exact, e)
  {
  }

  lemma AtRatesError(context: Context, epsilon: real, minorUnits: nat, sourceOne: real, sourceRate: PositiveRate, targetRate: PositiveRate,
      targetOne: real, exact: real, r: Converted)
    requires Correct(context, epsilon) && 0.0 < epsilon <= 0.1 && sourceOne > 0.0 && targetOne > 0.0
    requires r == AtRates(context, minorUnits, sourceOne, sourceRate, targetRate, targetOne) && r.Amount?
    requires exact == minorUnits as real * Worth(sourceOne, sourceRate, targetRate, targetOne)
    ensures Close(r.minorUnits, exact, 4.0 * epsilon)
  {
    var a := minorUnits as real / sourceOne;
    var b := a / sourceRate;
    var c := b * targetRate;
    MajorErrors(context, epsilon, minorUnits, sourceOne, sourceRate, targetRate, a, b, c);
    ExactIsLinear(minorUnits as real, sourceOne, sourceRate, targetRate, targetOne, a, b, c);
    InMinorUnitsError(context, MajorConverted(context, minorUnits, sourceOne, sourceRate, targetRate), c, targetOne,
                      4.0 * epsilon, exact, r);
  }

  /** A currency converts to itself unchanged, and there is no amount exactly when a rate is missing. */
  lemma ConvertNeedsRates(context: Context, rates: RateTable, minorUnits: nat, source: Currency, target: Currency)
    ensures Convert(context, rates, minorUnits, source, target).NoRate? <==> !CanConvert(rates, source, target)
    ensures source == target ==> Convert(context, rates, minorUnits, source, target) == Amount(minorUnits)
  {
  }

  /** A converted amount is within half a minor unit and four epsilons, relatively, of the exact rational value. */
  lemma ConvertError(context: Context, epsilon: real, rates: RateTable, minorUnits: nat, source: Currency, target: Currency,
      exact: real, r: Converted)
    requires Correct(context, epsilon) && 0.0 < epsilon <= 0.1
    requires source != target && r == Convert(context, rates, minorUnits, source, target) && r.Amount?
    requires exact == minorUnits as real * ExactRate(rates, source, target)
    ensures Close(r.minorUnits, exact, 4.0 * epsilon)
  {
    AtRatesError(context, epsilon, minorUnits, One(source), UnitsPerEur(rates, source).value, UnitsPerEur(rates, target).value,
                 One(target), exact, r);
  }

  /** What is worth little has few digits, so it converts. */
  lemma SmallAmountsFit(context: Context, epsilon: real, rates: RateTable, minorUnits: nat, source: Currency, target: Currency, exact: real)
    requires Correct(context, epsilon) && 0.0 < epsilon <= 0.1 && context.limit >= 1000
    requires source != target && CanConvert(rates, source, target)
    requires exact == minorUnits as real * ExactRate(rates, source, target) && exact <= 100.0
    ensures Convert(context, rates, minorUnits, source, target).Amount?
  {
    SmallAmountsFitAt(context, epsilon, minorUnits, One(source), UnitsPerEur(rates, source).value, UnitsPerEur(rates, target).value,
                      One(target), exact);
  }

  lemma SmallAmountsFitAt(context: Context, epsilon: real, minorUnits: nat, sourceOne: real, sourceRate: PositiveRate, targetRate: PositiveRate,
      targetOne: real, exact: real)
    requires Correct(context, epsilon) && 0.0 < epsilon <= 0.1 && sourceOne > 0.0 && targetOne > 0.0 && context.limit >= 1000
    requires exact == minorUnits as real * Worth(sourceOne, sourceRate, targetRate, targetOne) && exact <= 100.0
    ensures AtRates(context, minorUnits, sourceOne, sourceRate, targetRate, targetOne).Amount?
  {
    var a := minorUnits as real / sourceOne;
    var b := a / sourceRate;
    var c := b * targetRate;
    var major := MajorConverted(context, minorUnits, sourceOne, sourceRate, targetRate);
    MajorErrors(context, epsilon, minorUnits, sourceOne, sourceRate, targetRate, a, b, c);
    ExactIsLinear(minorUnits as real, sourceOne, sourceRate, targetRate, targetOne, a, b, c);
    SmallInMinorUnits(context, major, c, targetOne, 4.0 * epsilon, exact);
  }

  lemma SmallInMinorUnits(context: Context, major: real, c: real, one: real, e: real, exact: real)
    requires Near(major, c, e) && one > 0.0 && 0.0 <= c && exact == c * one && exact <= 100.0 && 0.0 <= e <= 0.4 && context.limit >= 1000
    ensures InMinorUnits(context, major, one).Amount?
  {
    NonNegative(c, one);
    NearScaled(major, c, e, one);
    SmallIsQuantized(context, major * one, exact, e, e * exact);
  }

  lemma SmallIsQuantized(context: Context, x: real, exact: real, e: real, error: real)
    requires Near(x, exact, e) && 0.0 <= exact <= 100.0 && 0.0 <= e <= 0.4 && error == e * exact && context.limit >= 1000
    ensures Quantize(context, x).Amount?
  {
    Times(e, 0.4, exact);
  }
}
