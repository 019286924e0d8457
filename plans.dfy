/**
 * The pricing catalogue of config/plans.ts: three plans priced in integer
 * cents, the yearly-savings percentage, and the two lookups.
 */
module Plans {
  import opened Wrappers

  datatype PricingInterval = Month | Year

  datatype PricingFeature = PricingFeature(name: string, included: bool)

  datatype PricingPlan = PricingPlan(
    id: string,
    name: string,
    description: string,
    priceMonthly: nat,  // cents
    priceYearly: nat,   // cents
    interval: PricingInterval,
    features: seq<PricingFeature>,
    popular: Option<bool>,
    recommended: Option<bool>,
    cta: string,
    polarProductIdMonthly: Option<string>,
    polarProductIdYearly: Option<string>)

  const Starter := PricingPlan(
    "starter", "Starter", "Perfect for individuals and small projects",
    999, 9588, Month,
    [ PricingFeature("Basic Features", true),
      PricingFeature("Up to 1,000 API calls/month", true),
      PricingFeature("1 GB Storage", true),
      PricingFeature("Email Support", true),
      PricingFeature("Community Access", true),
      PricingFeature("Advanced Analytics", false),
      PricingFeature("Priority Support", false),
      PricingFeature("Custom Integrations", false) ],
    Some(false), Some(false), "Get Started",
    Some("prod_starter_monthly"), Some("prod_starter_yearly"))

  const Pro := PricingPlan(
    "pro", "Pro", "Ideal for growing businesses and teams",
    2999, 28788, Month,
    [ PricingFeature("All Starter Features", true),
      PricingFeature("Up to 10,000 API calls/month", true),
      PricingFeature("10 GB Storage", true),
      PricingFeature("Priority Email Support", true),
      PricingFeature("Advanced Analytics", true),
      PricingFeature("Custom Integrations", true),
      PricingFeature("Team Collaboration (up to 5 users)", true),
      PricingFeature("Unlimited Team Members", false) ],
    Some(true), Some(true), "Start Free Trial",
    Some("prod_pro_monthly"), Some("prod_pro_yearly"))

  const Enterprise := PricingPlan(
    "enterprise", "Enterprise", "For large organizations with custom needs",
    9999, 95988, Month,
    [ PricingFeature("All Pro Features", true),
      PricingFeature("Unlimited API calls", true),
      PricingFeature("100 GB Storage", true),
      PricingFeature("24/7 Phone & Email Support", true),
      PricingFeature("Advanced Security & Compliance", true),
      PricingFeature("Custom Integrations & Workflows", true),
      PricingFeature("Unlimited Team Members", true),
      PricingFeature("Dedicated Account Manager", true),
      PricingFeature("SLA Guarantee (99.9% uptime)", true),
      PricingFeature("Custom Onboarding & Training", true) ],
    Some(false), Some(false), "Contact Sales",
    Some("prod_enterprise_monthly"), Some("prod_enterprise_yearly"))

  /** `pricingPlans`, in the order `Array.find` scans them. */
  const PricingPlans: seq<PricingPlan> := [Starter, Pro, Enterprise]

  // ---------------------------------------------------------------------------
  // Yearly savings
  // ---------------------------------------------------------------------------

  /**
   * `Math.round(p / q)` on the exact quotient, for q > 0: the nearest
   * integer, with halves sent toward +infinity.
   */
  function RoundQuotient(p: int, q: int): (r: int)
    requires q > 0
    ensures 2 * q * r - q <= 2 * p < 2 * q * r + q
  {
    (2 * p + q) / (2 * q)
  }

  /** Only one integer lies within half a unit (inclusive below) of p / q. */
  lemma RoundQuotientUnique(p: int, q: int, r: int)
    requires q > 0
    requires 2 * q * r - q <= 2 * p < 2 * q * r + q
    ensures r == RoundQuotient(p, q)
  {
    var s := RoundQuotient(p, q);
    if r < s {
      MulStrictMono(2 * q, r, s);
    } else if r > s {
      MulStrictMono(2 * q, s, r);
    }
  }

  lemma MulStrictMono(a: int, x: int, y: int)
    requires a > 0 && x < y
    ensures a * (x + 1) <= a * y
  {
    var d := y - x - 1;
    assert d >= 0;
    assert a * y == a * (x + 1) + a * d;
  }

  /**
   * `calculateYearlySavings`: the percentage saved by paying yearly,
   * `round(100 * (12 * monthly - yearly) / (12 * monthly))`. With a zero
   * monthly price the source divides by zero and yields NaN (or an
   * infinity); the model answers None there.
   */
  function CalculateYearlySavings(plan: PricingPlan): (r: Option<int>)
    ensures r.None? <==> plan.priceMonthly == 0
    ensures r.Some? ==>
              var monthlyAnnual := plan.priceMonthly * 12;
              var savings := monthlyAnnual - plan.priceYearly;
              2 * monthlyAnnual * r.value - monthlyAnnual <= 200 * savings < 2 * monthlyAnnual * r.value + monthlyAnnual
  {
    var monthlyAnnual := plan.priceMonthly * 12;
    var savings := monthlyAnnual - plan.priceYearly;
    if monthlyAnnual == 0 then None else Some(RoundQuotient(100 * savings, monthlyAnnual))
  }

  /** Every configured plan saves exactly 20 percent, as its price comment says. */
  lemma ConfiguredPlansSaveTwentyPercent()
    ensures forall plan :: plan in PricingPlans ==> CalculateYearlySavings(plan) == Some(20)
  {
    forall plan | plan in PricingPlans
      ensures CalculateYearlySavings(plan) == Some(20)
    {
      var q := plan.priceMonthly * 12;
      var p := 100 * (q - plan.priceYearly);
      assert 2 * q * 20 - q <= 2 * p < 2 * q * 20 + q;
      RoundQuotientUnique(p, q, 20);
    }
  }

  /** Every configured plan is cheaper paid yearly than paid monthly for a year. */
  lemma ConfiguredYearlyIsCheaper()
    ensures forall plan :: plan in PricingPlans ==> 0 < plan.priceYearly < 12 * plan.priceMonthly
  {
  }

  // ---------------------------------------------------------------------------
  // Lookups
  // ---------------------------------------------------------------------------

  /** The index of the first plan satisfying `p`, as `Array.find` scans. */
  function FindIndex(plans: seq<PricingPlan>, p: PricingPlan -> bool): (r: Option<nat>)
    ensures r.Some? ==> r.value < |plans| && p(plans[r.value])
    ensures r.Some? ==> forall k :: 0 <= k < r.value ==> !p(plans[k])
    ensures r.None? ==> forall k :: 0 <= k < |plans| ==> !p(plans[k])
  {
    if plans == [] then None
    else if p(plans[0]) then Some(0)
    else
      match FindIndex(plans[1..], p)
      case None => None
      case Some(k) => Some(k + 1)
  }

  /** `Array.find` over the catalogue. */
  function Find(p: PricingPlan -> bool): Option<PricingPlan>
  {
    match FindIndex(PricingPlans, p)
    case None => None
    case Some(k) => Some(PricingPlans[k])
  }

  function HasId(planId: string): PricingPlan -> bool {
    (plan: PricingPlan) => plan.id == planId
  }

  function SoldAs(polarProductId: string): PricingPlan -> bool {
    (plan: PricingPlan) => plan.polarProductIdMonthly == Some(polarProductId) || plan.polarProductIdYearly == Some(polarProductId)
  }

  /** `getPlanById`: the first plan with that id, or undefined. */
  function GetPlanById(planId: string): (r: Option<PricingPlan>)
    ensures r.Some? ==> r.value in PricingPlans && r.value.id == planId
    ensures r.None? <==> forall plan :: plan in PricingPlans ==> plan.id != planId
  {
    Find(HasId(planId))
  }

  /** `getPlanByPolarProductId`: the first plan sold under that Polar product id, or undefined. */
  function GetPlanByPolarProductId(polarProductId: string): (r: Option<PricingPlan>)
    ensures r.Some? ==> r.value in PricingPlans &&
                        (r.value.polarProductIdMonthly == Some(polarProductId) ||
                         r.value.polarProductIdYearly == Some(polarProductId))
    ensures r.None? <==> forall plan :: plan in PricingPlans ==>
                          plan.polarProductIdMonthly != Some(polarProductId) &&
                          plan.polarProductIdYearly != Some(polarProductId)
  {
    Find(SoldAs(polarProductId))
  }

  /** All Polar product ids of the catalogue, monthly and yearly. */
  function PolarProductIds(plans: seq<PricingPlan>): seq<Option<string>>
  {
    if plans == [] then []
    else [plans[0].polarProductIdMonthly, plans[0].polarProductIdYearly] + PolarProductIds(plans[1..])
  }

  /** Plan ids are pairwise distinct, and so are the six Polar product ids. */
  lemma CatalogueKeysDistinct()
    ensures forall i, j :: 0 <= i < j < |PricingPlans| ==> PricingPlans[i].id != PricingPlans[j].id
    ensures |PolarProductIds(PricingPlans)| == 6
    ensures forall i, j :: 0 <= i < j < 6 ==>
              PolarProductIds(PricingPlans)[i].Some? && PolarProductIds(PricingPlans)[i] != PolarProductIds(PricingPlans)[j]
  {
    assert PricingPlans[1..] == [Pro, Enterprise];
    assert [Pro, Enterprise][1..] == [Enterprise];
    assert [Enterprise][1..] == [];
    assert PolarProductIds([Enterprise]) == [Some("prod_enterprise_monthly"), Some("prod_enterprise_yearly")];
    assert PolarProductIds([Pro, Enterprise]) == [Some("prod_pro_monthly"), Some("prod_pro_yearly")] + PolarProductIds([Enterprise]);
    var ids := PolarProductIds(PricingPlans);
    assert ids == [Some("prod_starter_monthly"), Some("prod_starter_yearly"),
                   Some("prod_pro_monthly"), Some("prod_pro_yearly"),
                   Some("prod_enterprise_monthly"), Some("prod_enterprise_yearly")];
  }

  /** Lookup by id is unambiguous: it finds a plan exactly when that plan has the id. */
  lemma GetPlanByIdExact(planId: string, plan: PricingPlan)
    requires plan in PricingPlans
    ensures GetPlanById(planId) == Some(plan) <==> plan.id == planId
  {
    CatalogueKeysDistinct();
  }

  /** Lookup by Polar product id is unambiguous in the same sense. */
  lemma GetPlanByPolarProductIdExact(polarProductId: string, plan: PricingPlan)
    requires plan in PricingPlans
    ensures GetPlanByPolarProductId(polarProductId) == Some(plan) <==>
              plan.polarProductIdMonthly == Some(polarProductId) || plan.polarProductIdYearly == Some(polarProductId)
  {
    CatalogueKeysDistinct();
  }
}
