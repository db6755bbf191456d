/** Integer minor-unit amounts over the supported ISO 4217 catalogue, and typed decimal amounts. */
module Amounts {
  import opened Wrappers

  datatype Currency = USD | EUR | GBP | PLN | UAH | JPY | BHD

  const MAX_MAJOR_UNITS: nat := 999_999_999

  function MinorUnitExponent(c: Currency): nat {
    match c
    case JPY => 0
    case BHD => 3
    case _ => 2
  }

  function Pow10(n: nat): (p: nat)
    ensures p > 0
  {
    if n == 0 then 1 else 10 * Pow10(n - 1)
  }

  function MaxMinorUnits(c: Currency): nat {
    MAX_MAJOR_UNITS * Pow10(MinorUnitExponent(c))
  }

  datatype Money = Money(minorUnits: nat, currency: Currency)

  predicate Representable(m: Money) {
    m.minorUnits <= MaxMinorUnits(m.currency)
  }

  function MakeMoney(minorUnits: int, currency: Currency): (r: Result<Money>)
    ensures r.Accepted? <==> 0 <= minorUnits <= MaxMinorUnits(currency)
    ensures r.Accepted? ==> Representable(r.value)
  {
    if 0 <= minorUnits <= MaxMinorUnits(currency) then Accepted(Money(minorUnits, currency)) else Rejected
  }

  /** `digits / 10^places`: a non-negative decimal as a person types it. */
  datatype Decimal = Decimal(digits: nat, places: nat)

  function Major(m: Money): Decimal {
    Decimal(m.minorUnits, MinorUnitExponent(m.currency))
  }

  /** Exact minor units; more decimal places than the currency has are an error. */
  function ToMoney(value: Decimal, currency: Currency): (r: Result<Money>)
    ensures r.Accepted? ==> Representable(r.value)
  {
    var scaled := value.digits * Pow10(MinorUnitExponent(currency));
    if scaled % Pow10(value.places) == 0
    then MakeMoney(scaled / Pow10(value.places), currency)
    else Rejected
  }

  /** Two decimals denote the same number. */
  predicate SameNumber(a: Decimal, b: Decimal) {
    a.digits * Pow10(b.places) == b.digits * Pow10(a.places)
  }

  /** Typing an amount, or re-expressing it in another currency, never changes the number. */
  lemma ToMoneyKeepsTheNumber(value: Decimal, currency: Currency)
    requires ToMoney(value, currency).Accepted?
    ensures SameNumber(value, Major(ToMoney(value, currency).value))
  {
    var scaled := value.digits * Pow10(MinorUnitExponent(currency));
    assert scaled / Pow10(value.places) * Pow10(value.places) == scaled;
  }

  /** Reading back an amount's own major units gives the amount: nothing is lost on the way. */
  lemma MajorRoundTrip(m: Money)
    requires Representable(m)
    ensures ToMoney(Major(m), m.currency) == Accepted(m)
  {
    var p := Pow10(MinorUnitExponent(m.currency));
    MultipleDividesBack(m.minorUnits, p);
  }

  lemma MultipleDividesBack(n: nat, p: nat)
    requires p > 0
    ensures n * p % p == 0 && n * p / p == n
  {
    var q, r := n * p / p, n * p % p;
    assert (n - q) * p == r;
    NonZeroMultiples(n - q, p);
  }

  lemma NonZeroMultiples(k: int, p: int)
    requires p > 0
    ensures k >= 1 ==> k * p >= p
    ensures k <= -1 ==> k * p <= -p
  {
  }
}
