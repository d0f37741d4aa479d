/** The decimal arithmetic of a token amount: a division by a power of ten in a
    context of so many significant digits (28 by default), rounding half to even. */
module TokenAmounts {
  import opened Common

  /** How many decimal digits a number has. */
  function NumDigits(n: nat): (d: nat)
    ensures d > 0
  {
    if n < 10 then 1 else 1 + NumDigits(n / 10)
  }

  /** The digits beyond the precision. */
  function Excess(n: nat, precision: nat): nat {
    if NumDigits(n) <= precision then 0 else NumDigits(n) - precision
  }

  /** The nearest multiple of a unit, the even one of two equally near. */
  function HalfEven(n: nat, unit: nat): nat
    requires unit > 0
  {
    var q, r := n / unit, n % unit;
    if 2 * r > unit || (2 * r == unit && q % 2 == 1) then (q + 1) * unit else q * unit
  }

  function RoundNat(n: nat, precision: nat): nat {
    HalfEven(n, Pow10(Excess(n, precision)))
  }

  function Abs(n: int): nat {
    if n < 0 then -n else n
  }

  function Round(n: int, precision: nat): int {
    var size: int := RoundNat(Abs(n), precision);
    if n < 0 then -size else size
  }

  /** So many minimal units, as an amount. */
  function Amount(units: int, decimals: nat): real {
    units as real / Pow10(decimals) as real
  }

  /** `_to_decimal`: shifting the point does not change the digits that are kept. */
  function ToDecimal(raw: int, decimals: nat, precision: nat): real {
    Amount(Round(raw, precision), decimals)
  }

  /** A number without its trailing zeros. */
  function StripZeros(n: nat): nat
  {
    if n != 0 && n % 10 == 0 then StripZeros(n / 10) else n
  }

  /** At most so many digits from the first to the last that is not zero. */
  predicate Significant(n: nat, precision: nat) {
    StripZeros(n) < Pow10(precision)
  }

  // ── lemmas ──

  lemma {:induction false} NumDigitsBound(n: nat, k: nat)
    ensures k > 0 ==> (NumDigits(n) <= k <==> n < Pow10(k))
  {
    if n >= 10 && k > 1 {
      NumDigitsBound(n / 10, k - 1);
    } else if k > 1 {
      Pow10Grows(1, k);
      assert Pow10(1) == 10 by { assert Pow10(0) == 1; }
    } else if k == 1 {
      assert Pow10(1) == 10 by { assert Pow10(0) == 1; }
    }
  }

  lemma {:induction false} Pow10Grows(j: nat, k: nat)
    requires j <= k
    ensures Pow10(j) <= Pow10(k)
  {
    if j < k { Pow10Grows(j, k - 1); }
  }

  lemma HalfEvenExactIff(n: nat, unit: nat)
    requires unit > 0
    ensures HalfEven(n, unit) == n <==> n % unit == 0
  {
    var q, r := n / unit, n % unit;
    assert n == q * unit + r;
    assert (q + 1) * unit == q * unit + unit;
  }

  /** The rounded number is within half a unit. */
  lemma HalfEvenIsNearest(n: nat, unit: nat)
    requires unit > 0
    ensures -(unit as int) <= 2 * (HalfEven(n, unit) - n) <= unit
    ensures HalfEven(n, unit) % unit == 0
  {
    var q, r := n / unit, n % unit;
    assert n == q * unit + r;
    assert (q + 1) * unit == q * unit + unit;
    MultipleMod(q, unit);
    MultipleMod(q + 1, unit);
  }

  lemma {:induction false} MultipleMod(q: nat, unit: nat)
    requires unit > 0
    ensures (q * unit) % unit == 0
  {
    if q > 0 {
      MultipleMod(q - 1, unit);
      assert q * unit == (q - 1) * unit + unit;
      ModPlus((q - 1) * unit, unit);
    }
  }

  lemma ModPlus(a: nat, unit: nat)
    requires unit > 0
    ensures (a + unit) % unit == a % unit
  {
    var q := a / unit;
    assert a + unit == (q + 1) * unit + a % unit;
    DivModUnique(a + unit, unit, q + 1, a % unit);
  }

  lemma {:induction false} MulOrder(p: nat, q: nat, unit: nat)
    ensures p < q ==> p * unit + unit <= q * unit
  {
    if p + 1 < q {
      MulOrder(p, q - 1, unit);
    }
  }

  lemma DivModUnique(a: nat, unit: nat, q: nat, r: nat)
    requires unit > 0 && a == q * unit + r && r < unit
    ensures a / unit == q && a % unit == r
  {
    var p := a / unit;
    assert a == p * unit + a % unit;
    MulOrder(p, q, unit);
    MulOrder(q, p, unit);
  }

  /** A multiple of 10^(k+1) is ten times a multiple of 10^k. */
  lemma ModTens(n: nat, p: nat)
    requires p > 0
    ensures n % (10 * p) == 0 <==> n % 10 == 0 && (n / 10) % p == 0
  {
    var m, d := n / 10, n % 10;
    var q, r := m / p, m % p;
    assert n == 10 * m + d && m == q * p + r;
    assert n == q * (10 * p) + (10 * r + d);
    assert 10 * r + d < 10 * p;
    DivModUnique(n, 10 * p, q, 10 * r + d);
  }

  /** The digits beyond the precision are zeros exactly when the rest fits in it. */
  lemma {:induction false} ExcessIsZeros(n: nat, precision: nat)
    requires precision > 0
    ensures n % Pow10(Excess(n, precision)) == 0 <==> Significant(n, precision)
  {
    NumDigitsBound(n, precision);
    if Excess(n, precision) == 0 {
      StripZerosShrinks(n);
      assert Pow10(0) == 1;
    } else {
      assert n >= 10;
      assert Excess(n / 10, precision) == Excess(n, precision) - 1;
      ModTens(n, Pow10(Excess(n, precision) - 1));
      if n % 10 == 0 {
        ExcessIsZeros(n / 10, precision);
      }
    }
  }

  lemma {:induction false} StripZerosShrinks(n: nat)
    ensures StripZeros(n) <= n
  {
    if n != 0 && n % 10 == 0 { StripZerosShrinks(n / 10); }
  }

  lemma RoundExactIff(raw: int, precision: nat)
    requires precision > 0
    ensures Round(raw, precision) == raw <==> Significant(Abs(raw), precision)
  {
    ExcessIsZeros(Abs(raw), precision);
    HalfEvenExactIff(Abs(raw), Pow10(Excess(Abs(raw), precision)));
  }

  lemma Unscaled(x: real, p: real)
    requires p > 0.0
    ensures x / p * p == x
  {
  }

  /** Amounts tell numbers of units apart. */
  lemma AmountInjective(a: int, b: int, decimals: nat)
    ensures Amount(a, decimals) == Amount(b, decimals) <==> a == b
    ensures Amount(a, decimals) * Pow10(decimals) as real == a as real
  {
    Unscaled(a as real, Pow10(decimals) as real);
    Unscaled(b as real, Pow10(decimals) as real);
  }

  /** The amount read from the chain is exactly the sum of the transfers if and only if
      that sum has no more significant digits than the context keeps. */
  lemma ToDecimalExactIff(raw: int, decimals: nat, precision: nat)
    requires precision > 0
    ensures ToDecimal(raw, decimals, precision) == Amount(raw, decimals) <==> Significant(Abs(raw), precision)
  {
    RoundExactIff(raw, precision);
    AmountInjective(Round(raw, precision), raw, decimals);
  }

  /** Otherwise it is the nearest of that many digits: off by at most half a unit of
      the last digit kept. */
  lemma ToDecimalIsNearest(raw: nat, decimals: nat, precision: nat)
    ensures var unit := Pow10(Excess(raw, precision));
      && ToDecimal(raw, decimals, precision) == Amount(Round(raw, precision), decimals)
      && Round(raw, precision) % unit == 0
      && -(unit as int) <= 2 * (Round(raw, precision) - raw) <= unit
  {
    HalfEvenIsNearest(raw, Pow10(Excess(raw, precision)));
  }

  /** Sums that lose digits: too long, and not ending in zero. */
  lemma TooManyDigits(raw: nat, decimals: nat, precision: nat)
    requires precision > 0 && raw % 10 != 0 && raw >= Pow10(precision)
    ensures ToDecimal(raw, decimals, precision) != Amount(raw, decimals)
  {
    assert StripZeros(raw) == raw;
    ToDecimalExactIff(raw, decimals, precision);
  }

  /** Whatever the context keeps, some sum does not fit it: with 28 digits, one minimal
      unit more than 10^28. */
  lemma SomeSumIsCut(decimals: nat, precision: nat) returns (raw: nat)
    requires precision > 0
    ensures raw == Pow10(precision) + 1 && ToDecimal(raw, decimals, precision) != Amount(raw, decimals)
  {
    raw := Pow10(precision) + 1;
    DivModUnique(raw, 10, Pow10(precision - 1), 1);
    TooManyDigits(raw, decimals, precision);
  }

  // ── into ledger units ──

  /** Ledger units in one whole unit of currency. */
  const UNITS: nat := 100_000_000

  /** An amount in ledger units, what is left over cut off. */
  function Units(amount: real): int {
    (amount * UNITS as real).Floor
  }

  lemma RealCancel(a: real, b: real, p: real)
    requires p > 0.0
    ensures a * p <= b * p ==> a <= b
    ensures a * p < b * p ==> a < b
  {
  }

  lemma FloorOf(x: real, q: int)
    requires q as real <= x < (q + 1) as real
    ensures x.Floor == q
  {
  }

  lemma CutProducts(x: real, p: real, n: int, u: int, q: int, k: int)
    requires x * p == n as real && p == k as real && q * k <= n * u < (q + 1) * k
    ensures q as real * p <= x * u as real * p < (q + 1) as real * p
  {
    assert x * u as real * p == x * p * u as real;
    assert (n * u) as real == n as real * u as real;
    assert (q * k) as real == q as real * p;
    assert ((q + 1) * k) as real == (q + 1) as real * p;
  }

  /** Cutting to units is a division of whole numbers. */
  lemma UnitsOfAmount(n: nat, decimals: nat)
    ensures Units(Amount(n, decimals)) == n * UNITS / Pow10(decimals)
  {
    var k, x := Pow10(decimals), Amount(n, decimals);
    var q := n * UNITS / k;
    QuotientBounds(n * UNITS, k);
    Unscaled(n as real, k as real);
    CutProducts(x, k as real, n, UNITS, q, k);
    RealCancel(q as real, x * UNITS as real, k as real);
    RealCancel(x * UNITS as real, (q + 1) as real, k as real);
    FloorOf(x * UNITS as real, q);
  }

  lemma QuotientBounds(a: nat, k: nat)
    requires k > 0
    ensures a / k * k <= a < (a / k + 1) * k
  {
    assert a == a / k * k + a % k;
  }

  lemma {:induction false} Pow10Sum(a: nat, b: nat)
    ensures Pow10(a + b) == Pow10(a) * Pow10(b)
  {
    if a > 0 {
      Pow10Sum(a - 1, b);
      assert 10 * (Pow10(a - 1) * Pow10(b)) == 10 * Pow10(a - 1) * Pow10(b);
    } else {
      assert Pow10(0) == 1;
    }
  }

  lemma UnitsArePow10()
    ensures UNITS == Pow10(8)
  {
    assert Pow10(8) == 10 * Pow10(7) && Pow10(7) == 10 * Pow10(6) && Pow10(6) == 10 * Pow10(5);
    assert Pow10(5) == 10 * Pow10(4);
    assert Pow10(4) == 10 * Pow10(3) && Pow10(3) == 10 * Pow10(2) && Pow10(2) == 10 * Pow10(1);
    assert Pow10(1) == 10 * Pow10(0);
  }

  lemma ExactDivision(a: nat, k: nat)
    requires k > 0
    ensures a / k * k == a <==> a % k == 0
  {
    assert a == a / k * k + a % k;
  }

  lemma DivisorOfMultiple(n: nat, a: nat, b: nat)
    requires a > 0 && b > 0 && n % (a * b) == 0
    ensures n % b == 0
  {
    var q := n / (a * b);
    assert n == q * (a * b) + n % (a * b);
    assert q * (a * b) == (q * a) * b;
    MultipleMod(q * a, b);
  }

  /** With few decimals every number of minimal units is a whole number of ledger units. */
  lemma FewDecimals(r: nat, decimals: nat)
    requires decimals <= 8
    ensures r * UNITS % Pow10(decimals) == 0
  {
    UnitsArePow10();
    Pow10Sum(8 - decimals, decimals);
    var k, u := Pow10(decimals), Pow10(8 - decimals);
    assert r * UNITS == r * (u * k) == (r * u) * k;
    MultipleMod(r * u, k);
  }

  /** With more, the division drops the extra ones. */
  lemma ManyDecimals(r: nat, decimals: nat)
    requires decimals > 8
    ensures Pow10(decimals) == UNITS * Pow10(decimals - 8)
    ensures r * UNITS / Pow10(decimals) == r / Pow10(decimals - 8)
  {
    UnitsArePow10();
    Pow10Sum(8, decimals - 8);
    CancelFactor(r, UNITS, Pow10(decimals - 8));
  }

  lemma CancelFactor(r: nat, k: nat, u: nat)
    requires k > 0 && u > 0
    ensures k * u > 0 && r * k / (k * u) == r / u
  {
    var q, m := r / u, r % u;
    assert r * k == q * (k * u) + m * k by {
      assert r == q * u + m;
      assert (q * u + m) * k == q * (k * u) + m * k;
    }
    assert m * k < k * u;
    DivModUnique(r * k, k * u, q, m * k);
  }

  /** What the ledger gets of a number of minimal units, back in minimal units times
      the ledger's own. */
  function Credited(raw: nat, decimals: nat, precision: nat): int {
    Units(ToDecimal(raw, decimals, precision)) * Pow10(decimals)
  }

  lemma CreditedUnits(raw: nat, decimals: nat, precision: nat)
    ensures Credited(raw, decimals, precision) == RoundNat(raw, precision) * UNITS / Pow10(decimals) * Pow10(decimals)
  {
    UnitsOfAmount(RoundNat(raw, precision), decimals);
  }

  lemma CutAway(r: nat, raw: nat, decimals: nat, precision: nat)
    requires decimals > 8 && r == RoundNat(raw, precision)
    requires r / Pow10(decimals - 8) * Pow10(decimals - 8) == raw
    ensures r == raw
  {
    var e, u := Excess(raw, precision), Pow10(decimals - 8);
    HalfEvenIsNearest(raw, Pow10(e));
    HalfEvenExactIff(raw, Pow10(e));
    MultipleMod(r / u, u);
    if e <= decimals - 8 {
      Pow10Sum(decimals - 8 - e, e);
      DivisorOfMultiple(raw, Pow10(decimals - 8 - e), Pow10(e));
    } else {
      Pow10Sum(e - (decimals - 8), decimals - 8);
      DivisorOfMultiple(r, Pow10(e - (decimals - 8)), u);
      ExactDivision(r, u);
    }
  }

  /** The credit is the exact amount of the transfers if and only if their sum fits the
      context and is a whole number of ledger units. */
  lemma CreditIsExactIff(raw: nat, decimals: nat, precision: nat)
    requires precision > 0
    ensures Credited(raw, decimals, precision) == raw * UNITS
       <==> Significant(raw, precision) && raw * UNITS % Pow10(decimals) == 0
  {
    var r, k := RoundNat(raw, precision), Pow10(decimals);
    CreditedUnits(raw, decimals, precision);
    RoundExactIff(raw, precision);
    ExactDivision(raw * UNITS, k);
    if r != raw && r * UNITS / k * k == raw * UNITS {
      NoCoincidence(raw, decimals, precision);
    }
    if r * UNITS / k * k == raw * UNITS {
      MultipleMod(r * UNITS / k, k);
    }
  }

  lemma CancelUnits(x: nat, u: nat, raw: nat)
    requires x * (UNITS * u) == raw * UNITS
    ensures x * u == raw
  {
    assert x * (UNITS * u) == (x * u) * UNITS;
  }

  lemma NoCoincidence(raw: nat, decimals: nat, precision: nat)
    requires RoundNat(raw, precision) * UNITS / Pow10(decimals) * Pow10(decimals) == raw * UNITS
    ensures RoundNat(raw, precision) == raw
  {
    if decimals <= 8 {
      FewCoincide(RoundNat(raw, precision), raw, decimals);
    } else {
      ManyCoincide(RoundNat(raw, precision), raw, decimals);
      CutAway(RoundNat(raw, precision), raw, decimals, precision);
    }
  }

  lemma FewCoincide(r: nat, raw: nat, decimals: nat)
    requires decimals <= 8 && r * UNITS / Pow10(decimals) * Pow10(decimals) == raw * UNITS
    ensures r == raw
  {
    FewDecimals(r, decimals);
    ExactDivision(r * UNITS, Pow10(decimals));
  }

  lemma ManyCoincide(r: nat, raw: nat, decimals: nat)
    requires decimals > 8 && r * UNITS / Pow10(decimals) * Pow10(decimals) == raw * UNITS
    ensures r / Pow10(decimals - 8) * Pow10(decimals - 8) == raw
  {
    ManyDecimals(r, decimals);
    CancelUnits(r / Pow10(decimals - 8), Pow10(decimals - 8), raw);
  }
}
