/** The price of moving a subscriber from one plan to another for the remaining
    days of a billing period (plans/plan_change.py).

    A plan's price list is given as its `PlanPricing` rows in the order the
    store returns them: by non-increasing tier period. Amounts are exact
    decimals (`real`); "no charge" is `None`. */
module PlanChange {
  import opened Wrappers
  import opened Money

  /** One price-list row of a plan: the tier's length in days and the price
      the plan charges for a tier of that length. */
  datatype PlanPricing = PlanPricing(period: nat, price: real)

  /** The exception raised for a plan without any price-list rows. */
  datatype Error = NoPricings

  /** Every tier covers at least one day, so its daily rate is defined. */
  predicate PositivePeriods(pricings: seq<PlanPricing>) {
    forall i :: 0 <= i < |pricings| ==> pricings[i].period > 0
  }

  /** The order the store returns a plan's rows in: longest tier first. Rows of
      equal period may come in any order. */
  predicate SortedByDescendingPeriod(pricings: seq<PlanPricing>) {
    forall i, j :: 0 <= i < j < |pricings| ==> pricings[i].period >= pricings[j].period
  }

  // ---------------------------------------------------------------------------
  // Tier selection

  /** The position of the first row whose tier fits into `period` days, or
      `|pricings|` when none fits. */
  function FittingIndex(pricings: seq<PlanPricing>, period: int): (k: nat)
    ensures k <= |pricings|
    ensures forall j :: 0 <= j < k ==> pricings[j].period > period
    ensures k < |pricings| ==> pricings[k].period <= period
  {
    if |pricings| == 0 then 0
    else if pricings[0].period <= period then 0
    else 1 + FittingIndex(pricings[1..], period)
  }

  /** The row the walk over the price list ends on: the first row that fits,
      or, when none fits, the last row visited; nothing for an empty list. */
  function SelectedPricing(pricings: seq<PlanPricing>, period: int): (selected: Option<PlanPricing>)
    ensures selected.None? <==> |pricings| == 0
    ensures selected.Some? ==> selected.value in pricings
  {
    if |pricings| == 0 then None
    else
      var k := FittingIndex(pricings, period);
      Some(pricings[if k < |pricings| then k else |pricings| - 1])
  }

  /** The loop of `_calculate_day_cost`: remember each row visited and stop at
      the first one whose tier fits into `period` days. */
  method SelectPricing(pricings: seq<PlanPricing>, period: int) returns (selected: Option<PlanPricing>)
    ensures selected == SelectedPricing(pricings, period)
  {
    selected := None;
    var i := 0;
    while i < |pricings|
      invariant 0 <= i <= |pricings|
      invariant forall j :: 0 <= j < i ==> pricings[j].period > period
      invariant selected == if i == 0 then None else Some(pricings[i - 1])
    {
      selected := Some(pricings[i]);
      if pricings[i].period <= period {
        break;
      }
      i := i + 1;
    }
    FittingIndexUnique(pricings, period, i);
  }

  /** The three facts in the contract of `FittingIndex` pin it down. */
  lemma FittingIndexUnique(pricings: seq<PlanPricing>, period: int, k: nat)
    requires k <= |pricings|
    requires forall j :: 0 <= j < k ==> pricings[j].period > period
    requires k < |pricings| ==> pricings[k].period <= period
    ensures FittingIndex(pricings, period) == k
  {
  }

  /** On a sorted list with some tier that fits, the walk selects the first
      fitting row, and that row's tier is the longest one not exceeding
      `period`. */
  lemma SelectedIsLongestFitting(pricings: seq<PlanPricing>, period: int, k: nat)
    requires SortedByDescendingPeriod(pricings)
    requires k < |pricings| && pricings[k].period <= period
    ensures FittingIndex(pricings, period) <= k
    ensures SelectedPricing(pricings, period) == Some(pricings[FittingIndex(pricings, period)])
    ensures SelectedPricing(pricings, period).value.period <= period
    ensures forall j :: 0 <= j < |pricings| && pricings[j].period <= period ==>
              pricings[j].period <= SelectedPricing(pricings, period).value.period
  {
    var f := FittingIndex(pricings, period);
    forall j | 0 <= j < |pricings| && pricings[j].period <= period
      ensures pricings[j].period <= pricings[f].period
    {
      assert f <= j;
    }
  }

  /** When every tier is longer than `period`, the walk falls back to the last
      row, which on a sorted list has the shortest tier. */
  lemma FallbackIsShortest(pricings: seq<PlanPricing>, period: int)
    requires |pricings| > 0
    requires forall j :: 0 <= j < |pricings| ==> pricings[j].period > period
    ensures SelectedPricing(pricings, period) == Some(pricings[|pricings| - 1])
    ensures SortedByDescendingPeriod(pricings) ==>
              forall j :: 0 <= j < |pricings| ==>
                SelectedPricing(pricings, period).value.period <= pricings[j].period
  {
    FittingIndexUnique(pricings, period, |pricings|);
  }

  // ---------------------------------------------------------------------------
  // Daily cost

  /** `_calculate_day_cost`: the selected row's price per day, rounded to cents,
      or the "no pricings" error for an empty price list. */
  function DayCost(pricings: seq<PlanPricing>, period: int): (r: Result<real, Error>)
    requires PositivePeriods(pricings)
    ensures r.Failure? <==> |pricings| == 0
    ensures r.Success? ==> IsCents(r.value)
  {
    match SelectedPricing(pricings, period)
    case None => Failure(NoPricings)
    case Some(p) => Success(Quantize(p.price / p.period as real))
  }

  /** `_calculate_day_cost` as the source runs it: the walk, then the division. */
  method CalculateDayCost(pricings: seq<PlanPricing>, period: int) returns (r: Result<real, Error>)
    requires PositivePeriods(pricings)
    ensures r == DayCost(pricings, period)
  {
    var selected := SelectPricing(pricings, period);
    if selected.Some? {
      return Success(Quantize(selected.value.price / selected.value.period as real));
    }
    return Failure(NoPricings);
  }

  /** The daily cost of a non-empty price list is within half a cent of the
      selected row's exact price per day, and is the whole-cent value the
      half-even rule picks. */
  lemma DayCostRoundsSelectedRate(pricings: seq<PlanPricing>, period: int)
    requires PositivePeriods(pricings) && |pricings| > 0
    ensures var p := SelectedPricing(pricings, period).value;
            var c := DayCost(pricings, period).value;
            p.period > 0 &&
            IsCents(c) &&
            -0.005 <= c - p.price / p.period as real <= 0.005 &&
            (c - p.price / p.period as real == 0.005 || p.price / p.period as real - c == 0.005 ==>
               (c * 100.0).Floor % 2 == 0)
  {
  }

  // ---------------------------------------------------------------------------
  // Final-price policies

  /** The final-price hook: the base `PlanChangePolicy`, or
      `StandardPlanChangePolicy` with its three class constants. */
  datatype Policy =
    | Base
    | Standard(upgradePercentRate: real, upgradeCharge: real, downgradeCharge: Option<real>)

  /** `StandardPlanChangePolicy` with the constants it ships with. */
  const DefaultStandard: Policy := Standard(10.0, 0.0, None)

  /** `_calculate_final_price(period, day_cost_diff)`; `dayCostDiff` is `None`
      on a downgrade or lateral move and the positive difference otherwise. */
  function FinalPrice(policy: Policy, period: int, dayCostDiff: Option<real>): (r: Option<real>)
    ensures dayCostDiff.None? && policy.Base? ==> r.None?
    ensures dayCostDiff.None? && policy.Standard? ==> r == policy.downgradeCharge
    ensures dayCostDiff.Some? ==> r.Some?
    ensures dayCostDiff.Some? && policy.Standard? ==> IsCents(r.value)
  {
    match dayCostDiff
    case None =>
      if policy.Base? then None else policy.downgradeCharge
    case Some(diff) =>
      match policy
      case Base => Some(PeriodCost(period, diff))
      case Standard(rate, charge, _) =>
        Some(Quantize(Surcharged(PeriodCost(period, diff), rate, charge)))
  }

  /** `period * day_cost_diff`: a daily amount over `period` days. */
  function PeriodCost(period: int, daily: real): real {
    period as real * daily
  }

  /** The standard policy's upgrade amount before rounding: the base amount
      raised by `rate` percent, plus the flat `charge`. */
  function Surcharged(amount: real, rate: real, charge: real): real {
    amount * (rate / 100.0 + 1.0) + charge
  }

  /** Non-negative surcharges never lower the amount. */
  lemma SurchargeNeverLowers(amount: real, rate: real, charge: real)
    requires amount >= 0.0 && rate >= 0.0 && charge >= 0.0
    ensures Surcharged(amount, rate, charge) >= amount
  {
    assert amount * (rate / 100.0 + 1.0) == amount * (rate / 100.0) + amount;
    assert amount * (rate / 100.0) >= 0.0;
  }

  /** The base policy charges, on an upgrade of a whole-cent daily difference,
      at least one cent and a whole number of cents: `period` days of the
      difference. */
  lemma BaseUpgradePrice(period: int, diff: real)
    requires period >= 1 && diff > 0.0 && IsCents(diff)
    ensures FinalPrice(Base, period, Some(diff)) == Some(period as real * diff)
    ensures IsCents(FinalPrice(Base, period, Some(diff)).value)
    ensures FinalPrice(Base, period, Some(diff)).value >= 0.01
  {
    CentsScale(period, diff);
    PositiveCentsAtLeastOneCent(diff);
    assert (period - 1) as real * diff >= 0.0;
  }

  /** The standard policy is the base price with the surcharges added, then
      rounded to cents, an exact tie going to an even cent count; with
      `QuantizeUnique` this fixes the price. */
  lemma StandardUpgradePrice(rate: real, charge: real, downgrade: Option<real>, period: int, diff: real)
    ensures var r := FinalPrice(Standard(rate, charge, downgrade), period, Some(diff)).value;
            var exact := Surcharged(FinalPrice(Base, period, Some(diff)).value, rate, charge);
            IsCents(r) && -0.005 <= r - exact <= 0.005 &&
            (r - exact == 0.005 || exact - r == 0.005 ==> (r * 100.0).Floor % 2 == 0)
  {
  }

  /** With non-negative surcharges the standard policy never asks less than the
      base policy for the same upgrade, and so asks at least one cent. */
  lemma StandardAtLeastBase(rate: real, charge: real, downgrade: Option<real>, period: int, diff: real)
    requires rate >= 0.0 && charge >= 0.0
    requires period >= 1 && diff > 0.0 && IsCents(diff)
    ensures FinalPrice(Standard(rate, charge, downgrade), period, Some(diff)).value >=
            FinalPrice(Base, period, Some(diff)).value >= 0.01
  {
    var base := period as real * diff;
    BaseUpgradePrice(period, diff);
    SurchargeNeverLowers(base, rate, charge);
    QuantizeMonotone(base, Surcharged(base, rate, charge));
    QuantizeOfCents(base);
  }

  /** With its shipped constants the standard policy charges nothing on a
      downgrade and 110% of the base price, rounded to cents, on an upgrade. */
  lemma DefaultStandardPrice(period: int, diff: real)
    ensures FinalPrice(DefaultStandard, period, None) == None
    ensures FinalPrice(DefaultStandard, period, Some(diff)) == Some(Quantize(1.1 * (period as real * diff)))
  {
    assert PeriodCost(period, diff) == period as real * diff;
    assert Surcharged(PeriodCost(period, diff), 10.0, 0.0) == 1.1 * PeriodCost(period, diff);
  }

  // ---------------------------------------------------------------------------
  // Change price

  /** `get_change_price(plan_old, plan_new, period)`: `Success(None)` when no
      payment is due, `Success(Some(amount))` when one is, `Failure` when a plan
      has no price list. Price lists are only read for a period of a day or
      more. */
  function GetChangePrice(policy: Policy, pricingsOld: seq<PlanPricing>, pricingsNew: seq<PlanPricing>,
                          period: int): (r: Result<Option<real>, Error>)
    requires period >= 1 ==> PositivePeriods(pricingsOld) && PositivePeriods(pricingsNew)
    ensures period < 1 ==> r == Success(None)
    ensures period >= 1 ==> (r.Failure? <==> |pricingsOld| == 0 || |pricingsNew| == 0)
  {
    if period < 1 then Success(None)
    else
      var oldDayCost :- DayCost(pricingsOld, period);
      var newDayCost :- DayCost(pricingsNew, period);
      if newDayCost <= oldDayCost then Success(FinalPrice(policy, period, None))
      else Success(FinalPrice(policy, period, Some(newDayCost - oldDayCost)))
  }

  /** A move to a plan whose daily cost is no higher is priced as a downgrade;
      under the base policy it costs nothing. */
  lemma ChangePriceDowngrade(policy: Policy, pricingsOld: seq<PlanPricing>, pricingsNew: seq<PlanPricing>,
                             period: int)
    requires period >= 1
    requires PositivePeriods(pricingsOld) && |pricingsOld| > 0
    requires PositivePeriods(pricingsNew) && |pricingsNew| > 0
    requires DayCost(pricingsNew, period).value <= DayCost(pricingsOld, period).value
    ensures GetChangePrice(policy, pricingsOld, pricingsNew, period) == Success(FinalPrice(policy, period, None))
    ensures GetChangePrice(Base, pricingsOld, pricingsNew, period) == Success(None)
  {
  }

  /** A move to a plan with a higher daily cost is priced with the difference,
      which is a positive whole number of cents. */
  lemma ChangePriceUpgrade(policy: Policy, pricingsOld: seq<PlanPricing>, pricingsNew: seq<PlanPricing>,
                           period: int)
    requires period >= 1
    requires PositivePeriods(pricingsOld) && |pricingsOld| > 0
    requires PositivePeriods(pricingsNew) && |pricingsNew| > 0
    requires DayCost(pricingsNew, period).value > DayCost(pricingsOld, period).value
    ensures var diff := DayCost(pricingsNew, period).value - DayCost(pricingsOld, period).value;
            diff > 0.0 && IsCents(diff) &&
            GetChangePrice(policy, pricingsOld, pricingsNew, period) == Success(FinalPrice(policy, period, Some(diff)))
  {
    CentsDifference(DayCost(pricingsNew, period).value, DayCost(pricingsOld, period).value);
  }

  /** Under the base policy a change costs something exactly when the new plan
      is dearer per day, and then it costs `period` days of the difference: a
      positive whole number of cents. */
  lemma BaseChangePrice(pricingsOld: seq<PlanPricing>, pricingsNew: seq<PlanPricing>, period: int)
    requires period >= 1
    requires PositivePeriods(pricingsOld) && |pricingsOld| > 0
    requires PositivePeriods(pricingsNew) && |pricingsNew| > 0
    ensures var oldDay, newDay := DayCost(pricingsOld, period).value, DayCost(pricingsNew, period).value;
            var r := GetChangePrice(Base, pricingsOld, pricingsNew, period);
            r.Success? &&
            (r.value.Some? <==> newDay > oldDay) &&
            (r.value.Some? ==> r.value.value == period as real * (newDay - oldDay) &&
                               IsCents(r.value.value) && r.value.value >= 0.01)
  {
    var oldDay, newDay := DayCost(pricingsOld, period).value, DayCost(pricingsNew, period).value;
    if newDay > oldDay {
      ChangePriceUpgrade(Base, pricingsOld, pricingsNew, period);
      BaseUpgradePrice(period, newDay - oldDay);
    }
  }

  /** Staying on the same plan is never an upgrade: it is priced as a downgrade,
      which under the base policy is free. */
  lemma SamePlanIsNotAnUpgrade(policy: Policy, pricings: seq<PlanPricing>, period: int)
    requires period >= 1
    requires PositivePeriods(pricings) && |pricings| > 0
    ensures GetChangePrice(policy, pricings, pricings, period) == Success(FinalPrice(policy, period, None))
    ensures GetChangePrice(Base, pricings, pricings, period) == Success(None)
  {
  }
}
