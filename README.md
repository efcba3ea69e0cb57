# Plan-change pricing, modelled in Dafny

This project models the plan-change pricing calculator of django-plans
(`plans/plan_change.py`). It works out what a subscriber pays to move from one
plan to another for the days left in a billing period.

- **Tier selection.** Each plan has a price list of tiers, longest period first.
  The calculator walks the list and stops at the first tier whose period fits
  into the requested number of days. When no tier fits, it keeps the last tier
  it visited, which is the shortest one.
- **Daily cost.** The daily cost is the selected tier's price divided by its
  period, quantized to cents. A plan with no tiers raises the "no pricings"
  error.
- **Change price.** A change over less than one day is free. Otherwise the two
  daily costs are compared. If the new plan is not dearer per day, the change is
  treated as a downgrade. If it is dearer, the positive daily difference is
  passed to a final-price hook.
- **Final-price hook.** There are two versions.
  - The base policy charges nothing on a downgrade and `period × difference` on
    an upgrade.
  - The standard policy charges its configurable downgrade charge (none by
    default) on a downgrade. On an upgrade it charges
    `round₂(period × difference × (1 + rate/100) + charge)`, with rate 10 and
    charge 0 by default.

How the model represents the system:

- Money amounts are exact decimals, written as Dafny `real`.
- `Quantize` models `quantize(Decimal('1.00'))`. It rounds to the nearest cent
  and breaks exact ties towards an even number of cents. That is
  ROUND_HALF_EVEN, the rounding of Python's default decimal context.
- "No charge" (`None`) is `Option.None`.
- The `ValueError` is `Result.Failure(NoPricings)`.
- A plan is given as the sequence of its `PlanPricing(period, price)` rows, in
  the order the store returns them.
- The two policy classes are the two constructors of the `Policy` datatype:
  `Base`, and `Standard(upgradePercentRate, upgradeCharge, downgradeCharge)`.
  `DefaultStandard` holds the shipped constants.

The walk over the price list is an imperative loop in the source. The model has
it as the loop method `SelectPricing`, proved equal to the function
`SelectedPricing`. `CalculateDayCost` is the method that runs the loop and then
divides, and it is proved equal to the function `DayCost`.
`get_change_price` and the two hooks contain no loops, so they are functions.

Files:

- `wrappers.dfy`: `Option` and `Result`.
- `money.dfy`: whole-cent amounts and half-even rounding to cents.
- `plan_change.dfy`: selection, daily cost, the policies and the change price.
- `plan_change_examples.dfy`: worked scenarios.

`quantize(Decimal('1.00'))` names no rounding mode, so the decimal context's
default, ROUND_HALF_EVEN, applies: a daily cost of exactly 0.125 becomes 0.12,
where round-half-up would give 0.13 (`PlanChangeExamples.DailyCostTieRoundsToEven`).

## Model

| member | source | states |
|---|---|---|
| PlanChange.FittingIndex | plans/plan_change.py:12-15 | returns the position of the first row whose period is at most the requested days, or the list length when no row fits: every earlier row is too long and the row at that position fits |
| PlanChange.FittingIndexUnique | plans/plan_change.py:12-15 | those three facts determine the stopping position uniquely |
| PlanChange.SelectedPricing | plans/plan_change.py:11-15 | the walk ends on nothing exactly when the price list is empty, and otherwise on one of the list's own rows |
| PlanChange.SelectPricing | plans/plan_change.py:10-15 | the loop that remembers each visited row and breaks at the first fitting one ends on exactly the row `SelectedPricing` describes |
| PlanChange.SelectedIsLongestFitting | plans/plan_change.py:10-15 | on a list sorted longest-first with some fitting tier: the first fitting row is selected, it fits, and no fitting tier is longer |
| PlanChange.FallbackIsShortest | plans/plan_change.py:11-15 | when every tier is longer than the request, the last row is selected, and on a sorted list its period is the smallest |
| PlanChange.DayCost | plans/plan_change.py:5-20 | the "no pricings" error happens exactly when the price list is empty; otherwise the daily cost is a whole number of cents |
| PlanChange.CalculateDayCost | plans/plan_change.py:5-20 | the method version (walk, then divide and quantize, else raise) gives the same result or error as `DayCost` |
| PlanChange.DayCostRoundsSelectedRate | plans/plan_change.py:17-18 | the daily cost of a non-empty list is a whole-cent amount within half a cent of the selected tier's price / period; on an exact tie the cent count is even |
| PlanChange.FinalPrice | plans/plan_change.py:22-61 | downgrade: the base hook gives no charge and the standard hook gives its downgrade charge; an upgrade always gets a price; the standard hook's upgrade price is in whole cents. Its body uses `PeriodCost` for `period * day_cost_diff` (line 26) and `Surcharged` for line 61's amount before quantization |
| PlanChange.SurchargeNeverLowers | plans/plan_change.py:61 | a non-negative percentage rate and flat charge never lower the amount given by `Surcharged` (line 61 before quantization) |
| PlanChange.BaseUpgradePrice | plans/plan_change.py:22-26 | on an upgrade with a positive whole-cent difference and at least one day, the base price is period × difference, a whole number of cents and at least 0.01 |
| PlanChange.StandardUpgradePrice | plans/plan_change.py:57-61 | the standard upgrade price is a whole-cent amount within half a cent of base price × (1 + rate/100) + charge, with an even cent count on an exact tie; with `Money.QuantizeUnique` this fixes the price for every rate and charge |
| PlanChange.StandardAtLeastBase | plans/plan_change.py:45-61 | with a non-negative rate and charge, the standard policy never charges less than the base policy for the same upgrade, so it charges at least 0.01 |
| PlanChange.DefaultStandardPrice | plans/plan_change.py:52-61 | with the shipped constants, held in `DefaultStandard` (rate 10, charge 0, no downgrade charge, lines 52-54), a downgrade is free and an upgrade costs round₂(1.1 × period × difference) |
| PlanChange.GetChangePrice | plans/plan_change.py:28-41 | a period of less than one day gives no charge whatever the price lists hold; for one day or more the error happens exactly when either plan has no pricings |
| PlanChange.ChangePriceDowngrade | plans/plan_change.py:38-39 | when the new daily cost is no higher than the old one, the result is the hook's downgrade answer, which is no charge under the base policy |
| PlanChange.ChangePriceUpgrade | plans/plan_change.py:40-41 | when the new daily cost is higher, the hook receives the difference, and that difference is a positive whole number of cents |
| PlanChange.BaseChangePrice | plans/plan_change.py:22-41 | under the base policy a charge is made if and only if the new plan is dearer per day; the charge is period × difference, in whole cents and at least 0.01 |
| PlanChange.SamePlanIsNotAnUpgrade | plans/plan_change.py:35-39 | moving a plan onto itself is priced as a downgrade, so it is free under the base policy |
| Money.RoundHalfEven | plans/plan_change.py:18 | the result is within one half of the input, and an exact tie goes to the even integer |
| Money.Quantize | plans/plan_change.py:18 | the result is a whole number of cents, within half a cent of the input, with an even cent count on a tie |
| Money.QuantizeUnique | plans/plan_change.py:61 | any whole-cent value that meets the rounding rule for an input is the quantized value, so the rule fixes the result |
| Money.QuantizeOfCents | plans/plan_change.py:61 | quantizing an amount that is already in whole cents leaves it unchanged |
| Money.QuantizeMonotone | plans/plan_change.py:61 | quantizing preserves the order of two amounts |
| Money.CentsDifference | plans/plan_change.py:41 | the difference of two whole-cent daily costs is in whole cents |
| Money.CentsScale | plans/plan_change.py:26 | a whole number of days times a whole-cent amount is in whole cents |
| Money.PositiveCentsAtLeastOneCent | plans/plan_change.py:26 | a positive whole-cent amount is at least 0.01 |
| PlanChangeExamples.DailyCosts | plans/plan_change.py:5-20 | one tier of 20.00, 10.00 or 30.00 per 30 days gives 0.67, 0.33 or 1.00 a day |
| PlanChangeExamples.DowngradeIsFree | plans/plan_change.py:28-61 | moving from 0.67 to 0.33 a day for 10 days is free under both policies |
| PlanChangeExamples.UpgradeIsCharged | plans/plan_change.py:28-61 | moving from 0.67 to 1.00 a day for 10 days costs 3.30 under the base policy and 3.63 under the default standard policy |
| PlanChangeExamples.FallbackToShortestTier | plans/plan_change.py:11-15 | a 10-day request against 90- and 30-day tiers selects the 30-day tier |
| PlanChangeExamples.LongestFittingTier | plans/plan_change.py:11-15 | a 45-day request against 90-, 30- and 7-day tiers selects the 30-day tier |
| PlanChangeExamples.DailyCostTieRoundsToEven | plans/plan_change.py:18 | 3.75 over 30 days (0.125 a day) rounds to 0.12 |
| PlanChangeExamples.EqualPeriodsDependOnOrder | plans/plan_change.py:12-15 | of two rows with the same period, the one listed first sets the daily cost |
| PlanChangeExamples.NoPricingsOnlyWhenConsulted | plans/plan_change.py:17-41 | an empty price list fails the daily cost and any change of one day or more, but not a change over less than one day |

## Left out

- The database query that fetches a plan's rows sorted by descending period
  (plans/plan_change.py:10). It is an external store, so a plan is an input
  sequence. Sortedness is assumed only by the lemmas that interpret the
  selection. The store leaves the order of equal periods unspecified, and no
  order among them is assumed.
- The plan's text in the error message (plans/plan_change.py:20). The model
  records only that the error occurs, and not which of the two plans caused it.
- Python `Decimal`'s 28-digit working precision. Division is exact and followed
  by one rounding. For that reason the model does not capture the
  `InvalidOperation` that `quantize` raises on results too large for the
  context.
- Decimal contexts other than the default (another rounding mode, traps). Only
  ROUND_HALF_EVEN is modelled.
- Price lists with a zero-period row. The source divides only by the selected
  row's period (plans/plan_change.py:18), so such a row raises a division error
  only when the walk reaches it. The model instead requires every row's period
  to be positive whenever the lists are read (a period of one day or more).
  It therefore excludes lists the source prices normally, such as rows
  (7 days, 7.00) then (0 days, 1.00) for a 10-day period, which the source
  prices at 1.00 a day from the 7-day row.
- Class inheritance and the overriding of class attributes. The two policies,
  and any choice of the three constants, are values of the `Policy` datatype.
- Arguments of other Python types, such as non-integer or non-numeric periods.
  The period is an integer.
