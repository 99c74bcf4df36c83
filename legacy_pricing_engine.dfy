/** The first-generation pricing engine: base hours and materials come from a
    fixed job-type table rather than from an estimator, the material band
    scales the materials, and only the old-wiring flag adds risk. */
module LegacyPricingEngine {
  import opened Common
  import opened Schemas
  import PricingEngine

  datatype LegacyPricingOutput = LegacyPricingOutput(
    internalCostEstimate: real, priceBands: PricingBands, minRecommendedPrice: real)

  type PricingError = PricingEngine.PricingError

  datatype Baseline = Baseline(hours: int, materials: int)

  /** The job-type table: base hours and base materials cost. */
  function JobBaseline(jobType: string): (b: Baseline)
    ensures b.hours > 0 && b.materials > 0
    ensures jobType == "roof_repair" ==> b == Baseline(16, 500)
    ensures jobType == "bathroom_remodel" ==> b == Baseline(80, 3000)
    ensures jobType == "electrical_rewire" ==> b == Baseline(40, 1500)
    ensures jobType == "general_renovation" ==> b == Baseline(120, 5000)
    ensures jobType !in {"roof_repair", "bathroom_remodel", "electrical_rewire", "general_renovation"}
      ==> b == Baseline(20, 1000)
  {
    if jobType == "roof_repair" then Baseline(16, 500)
    else if jobType == "bathroom_remodel" then Baseline(80, 3000)
    else if jobType == "electrical_rewire" then Baseline(40, 1500)
    else if jobType == "general_renovation" then Baseline(120, 5000)
    else Baseline(20, 1000)
  }

  /** 1.15 when the exact old-wiring flag is present, else 1.0. */
  function LegacyRiskMultiplier(flags: seq<string>): (m: real)
    ensures m == 1.15 <==> OldWiringFlag in flags
    ensures m == 1.0 <==> OldWiringFlag !in flags
  {
    if OldWiringFlag in flags then 1.0 + 0.15 else 1.0
  }

  /** Materials scaled by the band: x1.3 for "high", x0.9 for "low". */
  function ScaledMaterials(band: string, materials: real): (m: real)
    ensures band == "high" ==> m == 1.3 * materials
    ensures band == "low" ==> m == 0.9 * materials
    ensures band != "high" && band != "low" ==> m == materials
    ensures materials >= 0.0 ==> 0.9 * materials <= m <= 1.3 * materials
  {
    if band == "high" then materials * 1.3
    else if band == "low" then materials * 0.9
    else materials
  }

  function LegacyInternalCost(context: PropertyContext, jobType: string, labourRate: real): real {
    var b := JobBaseline(jobType);
    (b.hours as real * labourRate + ScaledMaterials(context.materialCostBand, b.materials as real))
      * LegacyRiskMultiplier(context.likelyRiskFlags)
  }

  /** `PricingEngine.calculate_pricing` of the first-generation service. */
  function CalculatePricing(context: PropertyContext, jobType: string, labourRate: real,
                            desiredMargin: real): (r: Result<LegacyPricingOutput, PricingError>)
    ensures r.Ok? <==> desiredMargin != 1.0 && desiredMargin + 0.15 != 1.0
    ensures r.Ok? ==> r.value.minRecommendedPrice == r.value.priceBands.winAtAllCosts
    ensures r.Ok? ==>
      var internal := LegacyInternalCost(context, jobType, labourRate);
      && r.value.internalCostEstimate == Round2(internal)
      && r.value.priceBands.winAtAllCosts == Round2(internal / (1.0 - 0.15))
      && r.value.priceBands.balanced == Round2(internal / (1.0 - desiredMargin))
      && r.value.priceBands.premium == Round2(internal / (1.0 - (desiredMargin + 0.15)))
  {
    var internal := LegacyInternalCost(context, jobType, labourRate);
    var win := PricingEngine.PriceWithMargin(internal, 0.15);
    var balanced := PricingEngine.PriceWithMargin(internal, desiredMargin);
    var premium := PricingEngine.PriceWithMargin(internal, desiredMargin + 0.15);
    if balanced.Err? || premium.Err? then Err(PricingEngine.ZeroDivision)
    else
      Ok(LegacyPricingOutput(
        Round2(internal),
        PricingBands(Round2(win.value), Round2(balanced.value), Round2(premium.value)),
        Round2(win.value)))
  }

  // ---------------------------------------------------------------------------
  // Properties

  /** The labour band is never consulted. */
  lemma LabourBandHasNoEffect(context: PropertyContext, band: string, jobType: string,
                              labourRate: real, desiredMargin: real)
    ensures CalculatePricing(context.(labourRateBand := band), jobType, labourRate, desiredMargin)
         == CalculatePricing(context, jobType, labourRate, desiredMargin)
  {
    var banded := context.(labourRateBand := band);
    assert LegacyInternalCost(banded, jobType, labourRate) == LegacyInternalCost(context, jobType, labourRate);
  }

  /** The old-wiring flag raises the internal cost by exactly 15%. */
  lemma RiskFlagAddsFifteenPercent(context: PropertyContext, jobType: string, labourRate: real)
    requires OldWiringFlag !in context.likelyRiskFlags
    ensures LegacyInternalCost(context.(likelyRiskFlags := context.likelyRiskFlags + [OldWiringFlag]), jobType, labourRate)
         == 1.15 * LegacyInternalCost(context, jobType, labourRate)
  {
    var flags := context.likelyRiskFlags + [OldWiringFlag];
    assert flags[|flags| - 1] == OldWiringFlag;
    assert LegacyRiskMultiplier(flags) == 1.15;
  }

  /** The figures the repository's tests expect: a roof repair at £50/h costs
      1300 and is quoted 1625 at a 20% margin; with the old-wiring flag it
      costs 1495. */
  lemma ReferenceQuotes()
    ensures var r := CalculatePricing(NewContext("medium", "medium"), "roof_repair", 50.0, 0.2);
      r.Ok? && r.value.internalCostEstimate == 1300.0 && r.value.priceBands.balanced == 1625.0
    ensures var flagged := NewContext("medium", "medium").(likelyRiskFlags := [OldWiringFlag]);
      var r := CalculatePricing(flagged, "roof_repair", 50.0, 0.2);
      r.Ok? && r.value.internalCostEstimate == 1495.0
  {
    var plain := NewContext("medium", "medium");
    var flagged := plain.(likelyRiskFlags := [OldWiringFlag]);
    assert LegacyRiskMultiplier(flagged.likelyRiskFlags) == 1.15 by {
      assert OldWiringFlag in flagged.likelyRiskFlags;
    }
    assert LegacyInternalCost(plain, "roof_repair", 50.0) == 1300.0;
    assert LegacyInternalCost(flagged, "roof_repair", 50.0) == 1495.0;
    assert 1300.0 / (1.0 - 0.2) == 1625.0;
    Round2WholeCents(130000);
    Round2WholeCents(162500);
    Round2WholeCents(149500);
  }
}
