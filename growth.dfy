/**
 * The asset-growth simulation (app.py lines 59-71): starting from nothing,
 * every month the balance earns the monthly rate and then receives the
 * month's investment; the page charts every month's balance and reports the
 * last one. Balances are exact reals.
 */
module Growth {

  /** `x` to the natural power `n`. */
  function Pow(x: real, n: nat): real
  {
    if n == 0 then 1.0 else x * Pow(x, n - 1)
  }

  /** The monthly rate that line 59 derives from an annual return: `1 + rate`
      is the non-negative twelfth root of `1 + annual`, so that compounding
      twelve months reproduces the annual return. */
  predicate IsMonthlyRateFor(annual: real, rate: real)
  {
    rate >= -1.0 && Pow(1.0 + rate, 12) == 1.0 + annual
  }

  /** One pass of the loop body: interest on the balance, then the month's
      investment. With a non-negative rate and investment a non-negative
      balance never shrinks. */
  function Step(balance: real, rate: real, investment: real): (b: real)
    ensures rate >= 0.0 && investment >= 0.0 && balance >= 0.0 ==> b >= balance + investment
  {
    balance * (1.0 + rate) + investment
  }

  /** The value of `balance` after `months` passes of the loop. With a
      non-negative rate and investment it is never negative, and from the
      first month on it holds at least one month's investment. */
  function Balance(months: nat, rate: real, investment: real): (b: real)
    ensures rate >= 0.0 && investment >= 0.0 ==> b >= 0.0 && (months > 0 ==> b >= investment)
  {
    if months == 0 then 0.0 else Step(Balance(months - 1, rate, investment), rate, investment)
  }

  /** The list `balances` after `months` passes: each pass appends the new
      balance computed from the previous entry (or from the initial 0). Entry
      `i` is the balance at the end of month `i + 1`. */
  function Projection(months: nat, rate: real, investment: real): (s: seq<real>)
    ensures |s| == months
    ensures forall i :: 0 <= i < months ==> s[i] == Balance(i + 1, rate, investment)
  {
    if months == 0 then []
    else
      var earlier := Projection(months - 1, rate, investment);
      earlier + [Step(if months == 1 then 0.0 else earlier[months - 2], rate, investment)]
  }

  /** The simulation loop of lines 60-66 for a horizon of `years` (the slider
      keeps it within 1..30) and a whole monthly investment (kept at zero or
      above by its input). Returns the list that is charted and the final
      balance that line 71 reports. */
  method Simulate(years: int, rate: real, investment: nat) returns (balances: seq<real>, balance: real)
    requires 1 <= years <= 30
    ensures |balances| == years * 12 && 12 <= |balances| <= 360
    ensures balances == Projection(years * 12, rate, investment as real)
    ensures balance == balances[|balances| - 1] == Balance(years * 12, rate, investment as real)
    ensures rate >= 0.0 ==> forall i, j :: 0 <= i <= j < |balances| ==> 0.0 <= balances[i] <= balances[j]
    ensures investment == 0 ==> forall i :: 0 <= i < |balances| ==> balances[i] == 0.0
  {
    var totalMonths := years * 12;
    balance := 0.0;
    balances := [];
    for m := 0 to totalMonths
      invariant balances == Projection(m, rate, investment as real)
      invariant balance == Balance(m, rate, investment as real)
    {
      balance := balance * (1.0 + rate) + investment as real;
      balances := balances + [balance];
      assert balance == Balance(m + 1, rate, investment as real);
      assert balances == Projection(m + 1, rate, investment as real);
    }
    if rate >= 0.0 {
      ProjectionNonDecreasing(totalMonths, rate, investment as real);
    }
    if investment == 0 {
      ProjectionAllZero(totalMonths, rate);
    }
  }

  /** The first entry is the first investment, and every later entry follows
      from the one before it by one month's compounding and contribution. */
  lemma ProjectionRecurrence(months: nat, rate: real, investment: real)
    requires months >= 1
    ensures Projection(months, rate, investment)[0] == investment
    ensures forall i :: 1 <= i < months ==>
      Projection(months, rate, investment)[i] ==
        Projection(months, rate, investment)[i - 1] * (1.0 + rate) + investment
  {
  }

  /** With a non-negative rate and investment every balance is non-negative
      and the next month's is at least as large; strictly larger when
      something is invested. */
  lemma {:induction false} BalanceGrows(n: nat, rate: real, investment: real)
    requires rate >= 0.0 && investment >= 0.0
    ensures 0.0 <= Balance(n, rate, investment) <= Balance(n + 1, rate, investment)
    ensures investment > 0.0 ==> Balance(n, rate, investment) < Balance(n + 1, rate, investment)
  {
    if n > 0 {
      BalanceGrows(n - 1, rate, investment);
    }
  }

  /** Balances never decrease from one month to any later month. */
  lemma {:induction false} BalanceMonotone(i: nat, j: nat, rate: real, investment: real)
    requires i <= j
    requires rate >= 0.0 && investment >= 0.0
    ensures 0.0 <= Balance(i, rate, investment) <= Balance(j, rate, investment)
  {
    if i < j {
      BalanceMonotone(i, j - 1, rate, investment);
      BalanceGrows(j - 1, rate, investment);
    } else {
      BalanceGrows(i, rate, investment);
    }
  }

  /** The charted series is non-negative and non-decreasing. */
  lemma ProjectionNonDecreasing(months: nat, rate: real, investment: real)
    requires rate >= 0.0 && investment >= 0.0
    ensures forall i, j :: 0 <= i <= j < months ==>
      0.0 <= Projection(months, rate, investment)[i] <= Projection(months, rate, investment)[j]
  {
    forall i, j | 0 <= i <= j < months
      ensures 0.0 <= Projection(months, rate, investment)[i] <= Projection(months, rate, investment)[j]
    {
      BalanceMonotone(i + 1, j + 1, rate, investment);
    }
  }

  /** With a non-negative rate and investment the balance is at least the
      sum of the contributions made so far: interest never eats into them. */
  lemma {:induction false} BalanceAtLeastContributions(n: nat, rate: real, investment: real)
    requires rate >= 0.0 && investment >= 0.0
    ensures Balance(n, rate, investment) >= n as real * investment
  {
    if n > 0 {
      BalanceAtLeastContributions(n - 1, rate, investment);
      assert (n - 1) as real * investment + investment == n as real * investment;
    }
  }

  /** Nothing invested, nothing grown: the balance stays 0 at every rate. */
  lemma {:induction false} NothingInvestedStaysZero(n: nat, rate: real)
    ensures Balance(n, rate, 0.0) == 0.0
  {
    if n > 0 {
      NothingInvestedStaysZero(n - 1, rate);
    }
  }

  /** With no investment every entry of the charted series is 0. */
  lemma ProjectionAllZero(months: nat, rate: real)
    ensures forall i :: 0 <= i < months ==> Projection(months, rate, 0.0)[i] == 0.0
  {
    forall i | 0 <= i < months
      ensures Projection(months, rate, 0.0)[i] == 0.0
    {
      NothingInvestedStaysZero(i + 1, rate);
    }
  }

  /** The geometric-series closed form of the loop:
      rate * balance = investment * ((1 + rate)^n - 1). */
  lemma {:induction false} ClosedForm(n: nat, rate: real, investment: real)
    ensures rate * Balance(n, rate, investment) == investment * (Pow(1.0 + rate, n) - 1.0)
  {
    if n > 0 {
      ClosedForm(n - 1, rate, investment);
      var b := Balance(n - 1, rate, investment);
      var p := Pow(1.0 + rate, n - 1);
      var b' := Balance(n, rate, investment);
      var p' := Pow(1.0 + rate, n);
      assert b' == Step(b, rate, investment);
      assert p' == (1.0 + rate) * p;
      ClosedFormStep(rate, investment, b, p, b', p');
    }
  }

  /** The algebra of one step of ClosedForm. */
  lemma ClosedFormStep(rate: real, investment: real, b: real, p: real, b': real, p': real)
    requires rate * b == investment * (p - 1.0)
    requires b' == b * (1.0 + rate) + investment && p' == (1.0 + rate) * p
    ensures rate * b' == investment * (p' - 1.0)
  {
    calc {
      rate * b';
      rate * (b * (1.0 + rate) + investment);
      (1.0 + rate) * (rate * b) + rate * investment;
      (1.0 + rate) * (investment * (p - 1.0)) + rate * investment;
      investment * ((1.0 + rate) * p - 1.0);
      investment * (p' - 1.0);
    }
  }

  /** At a zero rate the loop only adds up the contributions. */
  lemma {:induction false} ZeroRateIsLinear(n: nat, investment: real)
    ensures Balance(n, 0.0, investment) == n as real * investment
  {
    if n > 0 {
      ZeroRateIsLinear(n - 1, investment);
    }
  }

  /** Powers of 1 are 1. */
  lemma {:induction false} PowOfOne(n: nat)
    ensures Pow(1.0, n) == 1.0
  {
    if n > 0 {
      PowOfOne(n - 1);
    }
  }

  /** A positive power of a base in [0, 1) stays below 1. */
  lemma {:induction false} PowBelowOne(x: real, n: nat)
    requires 0.0 <= x < 1.0 && n >= 1
    ensures 0.0 <= Pow(x, n) < 1.0
  {
    if n > 1 {
      PowBelowOne(x, n - 1);
      var p := Pow(x, n - 1);
      assert Pow(x, n) == x * p;
      assert 0.0 <= x * p <= p;
    }
  }

  /** The monthly rate derived from a non-negative annual return is itself
      non-negative, and positive when the annual return is. */
  lemma MonthlyRateNonNegative(annual: real, rate: real)
    requires annual >= 0.0 && IsMonthlyRateFor(annual, rate)
    ensures rate >= 0.0
    ensures annual > 0.0 ==> rate > 0.0
  {
    if rate < 0.0 {
      PowBelowOne(1.0 + rate, 12);
      assert false;
    }
    if annual > 0.0 && rate == 0.0 {
      PowOfOne(12);
      assert false;
    }
  }

  /** After the first year, the interest earned on a year's contributions
      matches the annual return: rate * balance = investment * annual. */
  lemma FirstYear(annual: real, rate: real, investment: real)
    requires IsMonthlyRateFor(annual, rate)
    ensures rate * Balance(12, rate, investment) == investment * annual
  {
    ClosedForm(12, rate, investment);
  }
}
