/**
 * The monthly budget check (app.py lines 16-18 and 25-32): the money left
 * after fixed expenses and the monthly investment, and the three-way verdict
 * the page shows for it.
 */
module Budget {

  /** What the page reports about the month: money left over, an exact
      balance, or an overspend (reported as a positive amount). */
  datatype Verdict = Surplus(left: nat) | BreakEven | Overspent(over: nat)

  /** The signed monthly remainder. The three inputs are whole amounts the
      input widgets keep at zero or above, and Python integers do not wrap. */
  function Remaining(income: nat, expense: nat, investment: nat): (r: int)
    ensures r + expense + investment == income
    ensures -(expense + investment) <= r <= income
  {
    income - expense - investment
  }

  /** Python's `abs` on integers. */
  function Abs(x: int): (a: nat)
    ensures a == x || a == -x
    ensures x != 0 ==> a > 0
  {
    if x < 0 then -x else x
  }

  /** The `if / elif / else` on the remainder. */
  function Classify(remaining: int): (v: Verdict)
    ensures v.Surplus? <==> remaining > 0
    ensures v.BreakEven? <==> remaining == 0
    ensures v.Overspent? <==> remaining < 0
    ensures v.Surplus? ==> v.left == remaining
    ensures v.Overspent? ==> v.over > 0 && v.over == -remaining
  {
    if remaining > 0 then Surplus(remaining)
    else if remaining == 0 then BreakEven
    else Overspent(Abs(remaining))
  }

  /** The verdict for a month, stated on the inputs alone: the overspent
      amount is exactly what expenses and investment exceed income by. */
  lemma VerdictOfInputs(income: nat, expense: nat, investment: nat)
    ensures Classify(Remaining(income, expense, investment)) ==
      if income > expense + investment then Surplus(income - expense - investment)
      else if income == expense + investment then BreakEven
      else Overspent(expense + investment - income)
  {
  }

  /** The month is overspent by `k` exactly when expenses plus investment
      exceed income by `k`; such a `k` is never zero. */
  lemma OverspentBy(income: nat, expense: nat, investment: nat, k: nat)
    ensures Classify(Remaining(income, expense, investment)) == Overspent(k)
      <==> expense + investment > income && k == expense + investment - income
    ensures Classify(Remaining(income, expense, investment)) == Overspent(k) ==> k > 0
  {
    VerdictOfInputs(income, expense, investment);
  }

  /** The inputs the page starts with (30000 income, 15000 expenses,
      5000 invested) leave a surplus of 10000. */
  lemma DefaultInputs()
    ensures Classify(Remaining(30000, 15000, 5000)) == Surplus(10000)
  {
  }
}
