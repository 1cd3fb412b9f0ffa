# Loan investment profit simulator, modelled in Dafny

The simulator in `invest.py` spreads a lump investment over four loan levels
and projects the profit over a horizon given in months.

* **Loan rules** (`Invest.Loans`): four levels, each with a unit amount, an
  interest rate per repayment cycle and a cycle length in days.
* **Allocation scaling** (module `Scaling`): a dictionary maps each level to a
  capital share. The shares sum to 150000. When the investment differs from
  that sum, every share is multiplied in place by `investment / sum` and rounded
  to a whole amount. The class `Scaling.Allocation` is that dictionary: its
  keys in insertion order and its shares. `ScaleTo` is the in-place loop.
* **Profit projection** (module `Invest`): for each rule, in table order, the
  loop looks up the level's capital (0 when the level is absent). It then
  computes:
  * the number of whole loans, by floor division;
  * the cycles in the horizon, with a 30-day month;
  * the profit of one loan per cycle;
  * the level's total profit.

  It appends one record per rule. Cycles and total profit are rounded to
  cents in the record. `ProjectProfits` is that loop. `Records` is the same
  list as a value.
* **Grand total**: the sum of the records' rounded profits, rounded again to
  cents.
* **Rounding** (module `Rounding`): Python's `round(x)` and `round(x, 2)`,
  stated over exact reals. Both round to nearest, with ties to even.

Amounts, loan counts and months are `int`. The two inputs come from numeric
fields whose default and step are integers, so they are integers too. The
decimal rates and the true divisions are exact `real`s. Python's `//` with a
positive divisor is floor division. It equals Dafny's `/` on `int`, also for
negative capital. The investment field has no minimum, so capital can be
negative.

Three behaviours of the code are worth stating plainly:

* The grand total sums the displayed, already-rounded profits
  (invest.py:200-201), not the unrounded ones. `GrandTotalError` bounds the
  difference: at most half a cent per record plus half a cent for the final
  rounding.
* With negative capital the loan count is negative. `NumLoans` states that
  the count is non-negative exactly when the capital is.
* Only the unrounded cycles are linear in the number of months. The displayed
  "Cycles Total" is rounded to cents, so it is not: with 7-day cycles, one
  month shows 4.29 and two months show 8.57, not 8.58
  (`DisplayedCyclesNotLinear`).

## Model

| member | source | states |
|---|---|---|
| `Rounding.RoundHalfEven` | invest.py:166 | the result is within one half of the input, and on an exact tie it is even |
| `Rounding.RoundNearestUnique` | invest.py:166 | an integer closer than one half to the input is the rounded value |
| `Rounding.RoundMonotone` | invest.py:166 | rounding preserves order |
| `Rounding.Round2` | invest.py:188-189 | `round(x, 2)` lies within half a cent of `x`, is a whole number of cents, and on an exact half-cent tie is an even number of cents |
| `Rounding.Round2NonNegative` | invest.py:189 | rounding a non-negative profit to cents keeps it non-negative |
| `Scaling.ScaleFactor` | invest.py:164 | the factor times the allocation total gives the investment |
| `Scaling.ScaledShares` | invest.py:165-166 | rescaling keeps the key set |
| `Scaling.Allocation.Default` | invest.py:154-159 | the dictionary starts with the four levels, in order, at 30000/40000/40000/40000 |
| `Scaling.Allocation.ScaleTo` | invest.py:161-166 | keys and their order are unchanged; shares are untouched when the total equals the investment; otherwise each share becomes `round(share * investment / total)` |
| `Scaling.SameOnKeys` | invest.py:165-166 | updating every listed key gives the fully rescaled dictionary |
| `Scaling.ExactSumLinear` | invest.py:164-166 | scaling each share and then summing equals scaling the total |
| `Scaling.RoundedSumError` | invest.py:166 | shares each within one half of their exact scaled value sum to within one half per share of the exact total |
| `Scaling.ScaledSharesNear` | invest.py:166 | each rescaled share (`Scaled`, `round(allocation[k] * scale)`, collected by `ScaledShares`) is within one half of `share * scale` |
| `Scaling.ScaledSumError` | invest.py:165-166 | rounding moves the sum of the rescaled shares by at most one half per share |
| `Scaling.ExactSumOfFactor` | invest.py:164-166 | with the source's factor, the exact rescaled shares sum to the investment |
| `Scaling.ScaledSumClose` | invest.py:161-166 | after rescaling, the shares sum to the investment give or take one half per share |
| `Scaling.ScaledByOne` | invest.py:163-166 | rescaling by factor one changes no share, so the guard on equal totals only saves work |
| `Scaling.DefaultTotal` | invest.py:154-161 | `sum(allocation.values())` of the default table (`SumOver`, which `Allocation.Total` applies to the dictionary) is 150000 |
| `Scaling.AllocationForSum` | invest.py:154-166 | for every investment, the table the scaling step leaves (`AllocationFor`: the default table, rescaled unless the totals match) keeps its keys and sums to within 2 of the investment |
| `Invest.LoansValid` | invest.py:144-149 | the rule table `Loans` holds four rules with positive amounts and cycle lengths and non-negative rates, whose loan types are the allocation keys in the same order |
| `Invest.NumLoans` | invest.py:177 | `n * Amount <= capital < (n + 1) * Amount`, and `n >= 0` exactly when `capital >= 0` |
| `Invest.CyclesTotal` | invest.py:178 | cycles times the cycle length equals months times 30 |
| `Invest.RecordMeaning` | invest.py:174-190 | the record `RecordFor` appends carries its rule's loan type, the capital (`CapitalOf`: 0 for an absent level), the floor-division loan count, `Amount * Interest` (`ProfitPerLoan`), and cycles and total profit (`UnroundedProfit`) within half a cent of their exact values |
| `Invest.ProjectProfits` | invest.py:171-190 | one record per rule, in rule order, each the record for that rule |
| `Invest.Records` | invest.py:171-190 | the record list has one entry per rule |
| `Invest.RecordsAt` | invest.py:171-190 | entry `i` of the record list is the record for rule `i` |
| `Invest.RecordsUnique` | invest.py:171-190 | any list matching the rules record by record is the record list |
| `Invest.DisplayedSumError` | invest.py:189-200 | the sum of the rounded profits (`SumDisplayed`, the column sum) is within half a cent per record of the sum of the exact profits |
| `Invest.GrandTotalError` | invest.py:200-201 | the grand total (`GrandTotal`: the column sum rounded to cents) is within half a cent per record, plus half a cent, of the exact profit sum |
| `Invest.ZeroHorizon` | invest.py:178-201 | with zero months every record has zero cycles and zero profit, and the grand total is zero |
| `Invest.HorizonLinear` | invest.py:178-181 | unrounded cycles and unrounded profit are linear in the number of months: `k` times the months gives `k` times each |
| `Invest.DisplayedCyclesNotLinear` | invest.py:178-188 | the displayed cycles are not linear: 1 month of 7-day cycles shows 4.29, 2 months show 8.57, which is not twice 4.29 |
| `Invest.ProfitPerLoanIndependent` | invest.py:180 | the profit per loan per cycle depends on neither the allocation nor the months |
| `Invest.ProfitNonNegative` | invest.py:177-189 | non-negative capital, rate and months give a non-negative loan count and profit, before and after rounding |
| `Invest.Simulate` | invest.py:154-201 | the run's records are the record list for the scaled default table, and its total is the grand total of those records |
| `Invest.SimulationShape` | invest.py:161-185 | four records in rule order carrying the rules' loan types; each capital is the default share when the investment is 150000 and the rounded rescaled share otherwise |
| `Invest.DefaultScenario` | invest.py:138-189 | for 150000 over 2 months, Level_1 gets 30000 capital, 15 loans, 100 per loan per cycle, 8.57 cycles and 12857.14 profit |
| `Invest.HalfInvestmentScenario` | invest.py:161-166 | an investment of 75000 halves every default share exactly |

## Left out

- The page set-up, styling, banner image, input widgets, table display and success message (invest.py:1-139, 197-201). These are calls into the UI library. The two inputs become parameters of `Simulate`.
- The DataFrame construction and the bar chart (invest.py:192, 206-215). These are calls into foreign libraries with no logic of their own.
- Rounding.RoundHalfEven: rounds the exact rational value. Python rounds the nearest binary float, so results on values that are not exactly representable can differ in the last cent. Binary floating point is not modelled.
- Rounding.Round2: the same gap as `RoundHalfEven`. Python's `round(x, 2)` works on the decimal expansion of the binary float.
- Invest.Simulate: the pandas column sum is exact real addition here, not a sequence of float additions.
- Scaling.Allocation.ScaleTo: requires the allocation total to be non-zero or equal to the investment. Otherwise Python raises `ZeroDivisionError`. The default table totals 150000, so `Simulate` always meets this.
- Invest.ProjectProfits: requires every rule to have a positive amount and cycle length, as the fixed table does. A zero amount or cycle length makes Python raise `ZeroDivisionError`. Negative ones are not modelled: Python's `//` floors, while Dafny's `/` is Euclidean for negative divisors. The fixed table has neither.
- Inputs that are not integers: the number fields use integer defaults and steps, so they return integers. Float inputs are not modelled.
