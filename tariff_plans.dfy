/**
 * The shipping-rate tables (Korea to Uzbekistan) and the plan picker.
 *
 * Each plan's `pricing` list is: the price of the first 0.5 kg, the price
 * of each additional 0.5 kg, then the quoted prices for 1, 2, 3, 5 and
 * 10 kg. Weights are counted in half-kilos so that every price is an
 * integer number of dollars.
 */
module TariffPlans {

  datatype Tier = Tier(weight: string, price: int)

  datatype Plan = Plan(key: string, name: string, pricePerKg: int, pricing: seq<Tier>)

  const Standard := Plan("standard", "Standard", 8, [
    Tier("First 0.5kg", 8), Tier("Each additional 0.5kg", 4),
    Tier("1kg", 12), Tier("2kg", 20), Tier("3kg", 28), Tier("5kg", 44), Tier("10kg", 84)])

  const Express := Plan("express", "Express", 12, [
    Tier("First 0.5kg", 12), Tier("Each additional 0.5kg", 6),
    Tier("1kg", 18), Tier("2kg", 30), Tier("3kg", 42), Tier("5kg", 66), Tier("10kg", 126)])

  const Premium := Plan("premium", "Premium VIP", 18, [
    Tier("First 0.5kg", 18), Tier("Each additional 0.5kg", 9),
    Tier("1kg", 27), Tier("2kg", 45), Tier("3kg", 63), Tier("5kg", 99), Tier("10kg", 189)])

  /** `Object.entries(tariffPlans)`, in declaration order. */
  const Plans := [Standard, Express, Premium]

  /** The weights of the quoted tiers after the two rate rows, in half-kilos: 1, 2, 3, 5 and 10 kg. */
  const QuotedHalfKilos: seq<nat> := [2, 4, 6, 10, 20]

  /** A plan's table has the two rate rows followed by one row per quoted weight. */
  predicate WellShaped(plan: Plan)
  {
    |plan.pricing| == 2 + |QuotedHalfKilos|
  }

  /** The price of a parcel of `halfKilos` half-kilos: the first half-kilo, then `step` for each further one. */
  function Quote(first: int, step: int, halfKilos: nat): (r: int)
    requires halfKilos >= 1
    ensures halfKilos == 1 ==> r == first
  {
    first + step * (halfKilos - 1)
  }

  /** With a positive step, a heavier parcel always costs strictly more. */
  lemma QuoteIncreasing(first: int, step: int, lighter: nat, heavier: nat)
    requires step > 0 && 1 <= lighter < heavier
    ensures Quote(first, step, lighter) < Quote(first, step, heavier)
  {
    assert step * (heavier - 1) == step * (lighter - 1) + step * (heavier - lighter);
  }

  /** Every quoted tier is the first-half-kilo price plus the step for each further half-kilo. */
  predicate FollowsRates(plan: Plan)
    requires WellShaped(plan)
  {
    forall i :: 0 <= i < |QuotedHalfKilos| ==>
      plan.pricing[2 + i].price == Quote(plan.pricing[0].price, plan.pricing[1].price, QuotedHalfKilos[i])
  }

  /**
   * The prices listed for the 0.5 kg row and the quoted weights, in table
   * order, increase strictly.
   */
  predicate PricesIncrease(plan: Plan)
    requires WellShaped(plan)
  {
    && plan.pricing[0].price < plan.pricing[2].price
    && forall i, j :: 2 <= i < j < |plan.pricing| ==> plan.pricing[i].price < plan.pricing[j].price
  }

  /** A table that follows its rates with a positive step lists strictly increasing prices. */
  lemma RatesGiveIncreasingPrices(plan: Plan)
    requires WellShaped(plan) && FollowsRates(plan) && plan.pricing[1].price > 0
    ensures PricesIncrease(plan)
  {
    var first, step := plan.pricing[0].price, plan.pricing[1].price;
    QuoteIncreasing(first, step, 1, QuotedHalfKilos[0]);
    forall i, j | 2 <= i < j < |plan.pricing| ensures plan.pricing[i].price < plan.pricing[j].price {
      QuoteIncreasing(first, step, QuotedHalfKilos[i - 2], QuotedHalfKilos[j - 2]);
    }
  }

  /** Standard: 8 for the first half-kilo and 4 for each further one (1 kg 12, 2 kg 20, 3 kg 28, 5 kg 44, 10 kg 84). */
  lemma StandardFollowsRates()
    ensures WellShaped(Standard) && Standard.pricing[0].price == 8 && Standard.pricing[1].price == 4
    ensures FollowsRates(Standard) && PricesIncrease(Standard)
  {
    RatesGiveIncreasingPrices(Standard);
  }

  /** Express: 12 for the first half-kilo and 6 for each further one. */
  lemma ExpressFollowsRates()
    ensures WellShaped(Express) && Express.pricing[0].price == 12 && Express.pricing[1].price == 6
    ensures FollowsRates(Express) && PricesIncrease(Express)
  {
    RatesGiveIncreasingPrices(Express);
  }

  /** Premium: 18 for the first half-kilo and 9 for each further one. */
  lemma PremiumFollowsRates()
    ensures WellShaped(Premium) && Premium.pricing[0].price == 18 && Premium.pricing[1].price == 9
    ensures FollowsRates(Premium) && PricesIncrease(Premium)
  {
    RatesGiveIncreasingPrices(Premium);
  }

  /**
   * The headline price shown "per kg" is the first-half-kilo price, which
   * is less than the listed price of 1 kg in every plan.
   */
  lemma HeadlineIsFirstHalfKilo()
    ensures forall i :: 0 <= i < |Plans| ==> |Plans[i].pricing| == 7
    ensures forall i :: 0 <= i < |Plans| ==>
      Plans[i].pricePerKg == Plans[i].pricing[0].price < Plans[i].pricing[2].price
  {
  }

  /** The plan keys are distinct. */
  lemma PlanKeysDistinct()
    ensures forall i, j :: 0 <= i < j < |Plans| ==> Plans[i].key != Plans[j].key
  {
  }

  /** `isPopular`. */
  predicate IsPopular(plan: Plan)
  {
    plan.key == "express"
  }

  /** Exactly one plan, Express, carries the popular badge. */
  lemma OnlyExpressIsPopular()
    ensures forall i :: 0 <= i < |Plans| ==> (IsPopular(Plans[i]) <==> Plans[i] == Express)
    ensures IsPopular(Plans[1]) && Plans[1] == Express
  {
  }

  /** `selectedPlan` starts at `standard`. */
  const InitialSelection := "standard"

  /** A plan's button shows "Selected Plan" when its key is the selected one. */
  predicate IsSelected(selectedPlan: string, plan: Plan)
  {
    selectedPlan == plan.key
  }

  /** The Standard plan is the one selected at first, and no other. */
  lemma StandardSelectedAtFirst()
    ensures forall i :: 0 <= i < |Plans| ==> (IsSelected(InitialSelection, Plans[i]) <==> i == 0)
  {
  }

  /** Clicking a plan's button: `setSelectedPlan(key)`. */
  function Click(selectedPlan: string, plan: Plan): (r: string)
    ensures IsSelected(r, plan)
  {
    plan.key
  }

  /** After clicking any plan, exactly that plan is marked selected, whatever was selected before. */
  lemma ClickSelectsOnlyThatPlan(selectedPlan: string, k: nat)
    requires k < |Plans|
    ensures forall i :: 0 <= i < |Plans| ==> (IsSelected(Click(selectedPlan, Plans[k]), Plans[i]) <==> i == k)
  {
    PlanKeysDistinct();
  }
}
