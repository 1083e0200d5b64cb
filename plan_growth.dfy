/**
 * The link between the risk lookup and the growth simulation (app.py lines
 * 37-45 and 59-66): the annual return of the selected plan determines the
 * monthly rate the simulation compounds at.
 */
module PlanGrowth {
  import opened RiskProfile
  import opened Growth

  /** The monthly rate derived from any plan's annual return is positive. */
  lemma PlanRatePositive(risk: Risk, rate: real)
    requires IsMonthlyRateFor(PlanOf(risk).annualReturn, rate)
    ensures rate > 0.0
  {
    MonthlyRateNonNegative(PlanOf(risk).annualReturn, rate);
  }

  /** Whatever label is selected, the series charted with the monthly rate
      derived from its plan is non-negative and non-decreasing for a
      non-negative investment, and strictly increasing for a positive one. */
  lemma SelectedPlanGrows(choice: string, rate: real, investment: real, months: nat)
    requires IsMonthlyRateFor(PlanOf(RiskOf(choice)).annualReturn, rate)
    requires investment >= 0.0
    ensures forall i, j :: 0 <= i <= j < months ==>
      0.0 <= Projection(months, rate, investment)[i] <= Projection(months, rate, investment)[j]
    ensures investment > 0.0 ==> forall i :: 0 < i < months ==>
      Projection(months, rate, investment)[i - 1] < Projection(months, rate, investment)[i]
  {
    PlanRatePositive(RiskOf(choice), rate);
    ProjectionNonDecreasing(months, rate, investment);
    forall i | 0 < i < months && investment > 0.0
      ensures Projection(months, rate, investment)[i - 1] < Projection(months, rate, investment)[i]
    {
      BalanceGrows(i, rate, investment);
    }
  }
}
