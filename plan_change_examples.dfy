/** Worked scenarios for the plan-change calculator: a downgrade, an upgrade
    under both policies, the fallback to the shortest tier, the half-even tie
    rule and the dependence on the order of rows of equal period. */
module PlanChangeExamples {
  import opened Wrappers
  import opened Money
  import opened PlanChange

  /** A plan at 20.00 per 30 days: 0.67 per day. */
  const Monthly20: seq<PlanPricing> := [PlanPricing(30, 20.0)]
  /** A plan at 10.00 per 30 days: 0.33 per day. */
  const Monthly10: seq<PlanPricing> := [PlanPricing(30, 10.0)]
  /** A plan at 30.00 per 30 days: 1.00 per day. */
  const Monthly30: seq<PlanPricing> := [PlanPricing(30, 30.0)]

  lemma DailyCosts()
    ensures DayCost(Monthly20, 10) == Success(0.67)
    ensures DayCost(Monthly10, 10) == Success(0.33)
    ensures DayCost(Monthly30, 10) == Success(1.0)
  {
    assert SelectedPricing(Monthly20, 10) == Some(PlanPricing(30, 20.0));
    assert SelectedPricing(Monthly10, 10) == Some(PlanPricing(30, 10.0));
    assert SelectedPricing(Monthly30, 10) == Some(PlanPricing(30, 30.0));
    assert (0.67 * 100.0).Floor == 67;
    QuantizeUnique(20.0 / 30.0, 0.67);
    assert (0.33 * 100.0).Floor == 33;
    QuantizeUnique(10.0 / 30.0, 0.33);
    assert (1.0 * 100.0).Floor == 100;
    QuantizeOfCents(1.0);
  }

  /** Moving from 0.67 to 0.33 a day is free under both policies. */
  lemma DowngradeIsFree()
    ensures GetChangePrice(Base, Monthly20, Monthly10, 10) == Success(None)
    ensures GetChangePrice(DefaultStandard, Monthly20, Monthly10, 10) == Success(None)
  {
    DailyCosts();
  }

  /** Moving from 0.67 to 1.00 a day for 10 days: 10 x 0.33 = 3.30 under the base
      policy, and 3.30 x 1.10 = 3.63 under the standard one. */
  lemma UpgradeIsCharged()
    ensures GetChangePrice(Base, Monthly20, Monthly30, 10) == Success(Some(3.3))
    ensures GetChangePrice(DefaultStandard, Monthly20, Monthly30, 10) == Success(Some(3.63))
  {
    DailyCosts();
    assert PeriodCost(10, 1.0 - 0.67) == 3.3;
    DefaultStandardPrice(10, 1.0 - 0.67);
    assert (3.63 * 100.0).Floor == 363;
    QuantizeOfCents(3.63);
  }

  /** A 10-day request against 90- and 30-day tiers uses the 30-day tier. */
  lemma FallbackToShortestTier()
    ensures SelectedPricing([PlanPricing(90, 60.0), PlanPricing(30, 25.0)], 10) == Some(PlanPricing(30, 25.0))
  {
    FallbackIsShortest([PlanPricing(90, 60.0), PlanPricing(30, 25.0)], 10);
  }

  /** A 45-day request against 90-, 30- and 7-day tiers uses the 30-day tier. */
  lemma LongestFittingTier()
    ensures SelectedPricing([PlanPricing(90, 60.0), PlanPricing(30, 25.0), PlanPricing(7, 7.0)], 45)
            == Some(PlanPricing(30, 25.0))
  {
    SelectedIsLongestFitting([PlanPricing(90, 60.0), PlanPricing(30, 25.0), PlanPricing(7, 7.0)], 45, 1);
  }

  /** 3.75 over 30 days is 0.125 a day, an exact tie: it rounds to the even
      0.12, not up to 0.13. */
  lemma DailyCostTieRoundsToEven()
    ensures DayCost([PlanPricing(30, 3.75)], 30) == Success(0.12)
  {
    assert SelectedPricing([PlanPricing(30, 3.75)], 30) == Some(PlanPricing(30, 3.75));
    assert (0.12 * 100.0).Floor == 12;
    QuantizeUnique(3.75 / 30.0, 0.12);
  }

  /** Two rows of the same period are taken in the order given: the first one
      visited decides the daily cost. */
  lemma EqualPeriodsDependOnOrder()
    ensures DayCost([PlanPricing(30, 30.0), PlanPricing(30, 60.0)], 30) == Success(1.0)
    ensures DayCost([PlanPricing(30, 60.0), PlanPricing(30, 30.0)], 30) == Success(2.0)
  {
    assert SelectedPricing([PlanPricing(30, 30.0), PlanPricing(30, 60.0)], 30) == Some(PlanPricing(30, 30.0));
    assert SelectedPricing([PlanPricing(30, 60.0), PlanPricing(30, 30.0)], 30) == Some(PlanPricing(30, 60.0));
    assert (1.0 * 100.0).Floor == 100;
    QuantizeOfCents(1.0);
    assert (2.0 * 100.0).Floor == 200;
    QuantizeOfCents(2.0);
  }

  /** A plan without pricings fails for the daily cost, but not for a change
      over less than one day. */
  lemma NoPricingsOnlyWhenConsulted()
    ensures DayCost([], 30) == Failure(NoPricings)
    ensures GetChangePrice(Base, [], [], 0) == Success(None)
    ensures GetChangePrice(Base, [], Monthly10, 10).Failure?
    ensures GetChangePrice(DefaultStandard, Monthly10, [], 10).Failure?
  {
  }
}
