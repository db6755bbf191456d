/** Fixed-width numerals in a base of at most sixteen, written and read back. */
module Digits {
  import opened Wrappers

  const NUMERALS: string := "0123456789abcdef"

  function Power(base: nat, n: nat): (p: nat)
    requires base > 0
    ensures p > 0
  {
    if n == 0 then 1 else base * Power(base, n - 1)
  }

  /** The last `width` digits of `n`, zero-padded. */
  function Write(n: nat, width: nat, base: nat): (s: string)
    requires 2 <= base <= 16
    ensures |s| == width
    ensures forall c | c in s :: c in NUMERALS[..base]
    decreases width
  {
    if width == 0 then "" else Write(n / base, width - 1, base) + [NUMERALS[n % base]]
  }

  function Numeral(c: char, base: nat): (r: Option<nat>)
    requires 2 <= base <= 16
    ensures r.Some? ==> r.value < base && NUMERALS[r.value] == c
  {
    var v := if '0' <= c <= '9' then c as int - '0' as int else if 'a' <= c <= 'f' then c as int - 'a' as int + 10 else 16;
    if v < base then Some(v) else None
  }

  /** The value of a numeral; None for the empty text and for other characters. */
  function Read(s: string, base: nat): (r: Option<nat>)
    requires 2 <= base <= 16
    ensures r.Some? ==> r.value < Power(base, |s|)
  {
    if s == "" then None else
      var last := Numeral(s[|s| - 1], base);
      if last.None? then None
      else if |s| == 1 then last
      else
        var rest := Read(s[..|s| - 1], base);
        if rest.None? then None else
          Bounded(rest.value, last.value, base, Power(base, |s| - 1));
          Some(rest.value * base + last.value)
  }

  lemma Bounded(rest: nat, digit: nat, base: nat, power: nat)
    requires rest < power && digit < base
    ensures rest * base + digit < base * power
  {
    assert (rest + 1) * base <= power * base;
  }

  lemma NumeralOf(d: nat, base: nat)
    requires 2 <= base <= 16 && d < base
    ensures Numeral(NUMERALS[d], base) == Some(d)
  {
  }

  lemma ShiftDown(n: nat, base: nat, power: nat)
    requires 0 < base && n < base * power
    ensures n / base < power && n == n / base * base + n % base
  {
    Scale(power, n / base, base);
  }

  lemma Scale(a: nat, b: nat, c: nat)
    ensures a <= b ==> a * c <= b * c
  {
  }

  /** A number that fits `width` digits leaves one that fits a digit less. */
  lemma LeadingDigitsFit(n: nat, width: nat, base: nat)
    requires 2 <= base && 0 < width && n < Power(base, width)
    ensures n / base < Power(base, width - 1) && n / base * base + n % base == n
  {
    ShiftDown(n, base, Power(base, width - 1));
  }

  /** Reading takes the value of what leads, moved up one place, and adds the last digit. */
  lemma ReadLast(leading: string, c: char, digit: nat, rest: nat, base: nat, n: nat)
    requires 2 <= base <= 16 && leading != "" && Numeral(c, base) == Some(digit) && Read(leading, base) == Some(rest)
    requires n == rest * base + digit
    ensures Read(leading + [c], base) == Some(n)
  {
    var s := leading + [c];
    assert s[..|s| - 1] == leading;
  }

  lemma ReadOne(c: char, digit: nat, base: nat)
    requires 2 <= base <= 16 && Numeral(c, base) == Some(digit)
    ensures Read([c], base) == Some(digit)
  {
  }

  /** The last digit of a number that fits, and what leads it. */
  lemma SplitLast(n: nat, width: nat, base: nat) returns (rest: nat, digit: nat)
    requires 2 <= base <= 16 && 0 < width && n < Power(base, width)
    ensures digit < base && rest < Power(base, width - 1) && Write(n, width, base) == Write(rest, width - 1, base) + [NUMERALS[digit]]
    ensures n == rest * base + digit
    ensures width == 1 ==> rest == 0
  {
    rest, digit := n / base, n % base;
    LeadingDigitsFit(n, width, base);
  }

  /** Written in enough digits, a number is read back. */
  lemma {:induction false} ReadOfWrite(n: nat, width: nat, base: nat)
    requires 2 <= base <= 16 && 0 < width && n < Power(base, width)
    ensures Read(Write(n, width, base), base) == Some(n)
    decreases width
  {
    var rest, digit := SplitLast(n, width, base);
    NumeralOf(digit, base);
    if width == 1 {
      ReadOne(NUMERALS[digit], digit, base);
    } else {
      ReadOfWrite(rest, width - 1, base);
      ReadLast(Write(rest, width - 1, base), NUMERALS[digit], digit, rest, base, n);
    }
  }
}
