# Personal finance calculator — Dafny model

The repository is a single Streamlit page (`app.py`). It asks for a monthly
income, fixed expenses, a monthly investment, a risk preference and a horizon
in years. It then shows four things: the monthly surplus or deficit, an
allocation table for the chosen risk profile, a chart of the simulated growth
of the invested money, and the balance after the horizon. This project models
the three pieces of logic behind those outputs:

- `Budget` (`budget.dfy`): the signed monthly remainder
  `income - expense - investment` and its three-way verdict (surplus, exact
  balance, overspent by `abs(remaining)`).
- `RiskProfile` (`risk_profile.dfy`): the `if / elif / else` that maps the
  selector's label to an annual return and an ordered allocation table. Labels
  are strings, and any label other than the first two falls through to the
  aggressive plan. Returns and weights are exact reals (0.03, 0.6, ...).
- `Growth` (`growth.dfy`): the monthly compounding loop. `Simulate` is a
  method with a loop. It is proved against the recursive specification
  functions `Balance` (the accumulator) and `Projection` (the appended list).
  Lemmas state growth, zero-investment, closed-form and monthly-rate facts
  about those functions.

The input widgets keep income, expenses and investment at zero or above and
the horizon within 1..30 years. The model states these ranges as parameter
types (`nat`) and preconditions.

No label raises an error. Every label other than "保守型" or "穩健型" takes
the `else` branch (app.py:43) and gets the aggressive plan (`RiskOf`,
`SelectedPlan`).

A fourth module, `PlanGrowth` (`plan_growth.dfy`), links the two halves of
the page: the selected plan's annual return determines the monthly rate, and
that rate is positive, so the growth facts hold for every label.

## Model

| member | source | states |
|---|---|---|
| `Budget.Remaining` | app.py:16-25 | The remainder plus expenses plus investment gives back the income exactly, in unbounded integers. It lies between `-(expense + investment)` and `income`. |
| `Budget.Abs` | app.py:32 | Python `abs`: the result is the input or its negation, is never negative, and is positive for a non-zero input. |
| `Budget.Classify` | app.py:27-32 | Exactly one verdict holds. It is a surplus iff the remainder is positive, and that surplus is the remainder. It is break-even iff the remainder is 0. It is overspent iff the remainder is negative, and the amount reported is `-remaining > 0`. |
| `Budget.VerdictOfInputs` | app.py:25-32 | The verdict stated on the raw inputs: surplus of `income - expense - investment`, break-even, or overspent by `expense + investment - income`. |
| `Budget.OverspentBy` | app.py:25-32 | The month is reported overspent by `k` iff expenses plus investment exceed income by exactly `k`, and such a `k` is positive. |
| `Budget.DefaultInputs` | app.py:16-28 | The page's initial inputs (30000, 15000, 5000) give a surplus of 10000. |
| `RiskProfile.RiskOf` | app.py:37-43 | "保守型" selects conservative and "穩健型" selects balanced. Every other string selects aggressive (iff in each direction). |
| `RiskProfile.PlanOf` | app.py:37-45 | Each branch gives a positive return and a three-entry table with no repeated asset. Every weight is strictly between 0 and 1, and the weights sum to exactly 1. |
| `RiskProfile.Label` | app.py:19-44 | The selector option of each risk profile is one of the three offered options, and the `if / elif / else` on it selects that same profile. |
| `RiskProfile.SelectorRoundTrip` | app.py:19-44 | Each offered option selects a profile whose option is that same option, and the three offered options are distinct. |
| `RiskProfile.AssetName` | app.py:39-45 | The key text of each asset class is one of the four keys the allocation tables use. |
| `RiskProfile.AssetNamesDistinct` | app.py:39-45 | Two asset classes have the same table key iff they are the same class, so a table without repeated classes has distinct keys. |
| `RiskProfile.SelectedPlan` | app.py:37-45 | Every label yields one of exactly three plans. A label other than the first two yields the aggressive plan with return 0.09 instead of an error. |
| `RiskProfile.ReturnIncreasesWithRisk` | app.py:38-44 | The annual returns are 0.03, 0.06 and 0.09, strictly increasing with risk. |
| `Growth.Step` | app.py:65 | One month's update never lowers a non-negative balance when rate and investment are non-negative; it adds at least the investment. |
| `Growth.Balance` | app.py:61-65 | The accumulator `balance` after `n` passes (the figure line 71 reports after `years*12` passes). For non-negative rate and investment it is never negative, and from the first month on it is at least one month's investment. |
| `Growth.BalanceAtLeastContributions` | app.py:61-65 | For non-negative rate and investment the balance after `n` months is at least `n * investment`, the sum of the contributions. |
| `Growth.Projection` | app.py:61-66 | The list after `n` passes has exactly `n` entries, and entry `i` equals the accumulator after `i + 1` passes. |
| `Growth.Simulate` | app.py:60-71 | The loop builds exactly the specified list, with `years*12` entries (between 12 and 360). The returned balance is the last entry. For `rate >= 0` the list is non-negative and non-decreasing, and with no investment every entry is 0. |
| `Growth.ProjectionRecurrence` | app.py:61-66 | The first entry is the investment, and each later entry is the previous one times `1 + rate` plus the investment. |
| `Growth.BalanceGrows` | app.py:61-66 | For non-negative rate and investment the balance is non-negative and does not decrease month to month. It strictly increases when the investment is positive. |
| `Growth.BalanceMonotone` | app.py:61-66 | For non-negative rate and investment, a later month's balance is at least any earlier month's. |
| `Growth.ProjectionNonDecreasing` | app.py:61-66 | The charted list is non-negative and non-decreasing for non-negative rate and investment. |
| `Growth.NothingInvestedStaysZero` | app.py:61-66 | With zero investment the balance stays 0 at any rate. |
| `Growth.ProjectionAllZero` | app.py:61-66 | With zero investment every charted entry is 0. |
| `Growth.ClosedForm` | app.py:61-66 | Geometric-series closed form: `rate * balance(n) = investment * ((1 + rate)^n - 1)`. |
| `Growth.ZeroRateIsLinear` | app.py:61-66 | At a zero rate the balance after `n` months is `n * investment`. |
| `Growth.MonthlyRateNonNegative` | app.py:59 | A monthly rate whose twelfth compounding gives `1 + annual` is non-negative for a non-negative annual return, and positive for a positive one. |
| `Growth.FirstYear` | app.py:59-66 | With the monthly rate derived from the annual return, after twelve months `rate * balance = investment * annual`. |
| `PlanGrowth.PlanRatePositive` | app.py:37-59 | The monthly rate derived from any plan's annual return is positive, so every plan meets the `rate >= 0` hypothesis of the growth lemmas. |
| `PlanGrowth.SelectedPlanGrows` | app.py:37-66 | For any label, the series charted with the monthly rate derived from the selected plan is non-negative and non-decreasing for a non-negative investment, and strictly increasing for a positive one. |

## Left out

- All Streamlit calls: page setup, titles, dividers, input widgets, message boxes, chart and tables. They are presentation. The widget ranges are stated as preconditions and `nat` types instead.
- The pandas DataFrames built for display (the allocation table, the growth chart, the fund table). They come from a foreign library used only for display.
- The fractional power `(1 + annual_return) ** (1/12) - 1` (line 59). Dafny has no real exponent, so the monthly rate is a parameter of `Simulate`. The predicate `IsMonthlyRateFor` records what the power means (`(1 + rate)^12 = 1 + annual`, with `rate >= -1`). No numeric value of the rate is computed. The float Python computes rounds both `1/12` and `**`, so it meets that equation only approximately; `FirstYear`, `MonthlyRateNonNegative` and the `PlanGrowth` lemmas hold for the exact real rate.
- IEEE floating-point rounding in the loop. Balances are exact reals.
- The `int(balance)` truncation, the thousands separators and the percent formatting in the messages. They are presentation only.
- The hardcoded reference table of five funds. It is constant display data with no behaviour.
