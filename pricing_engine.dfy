/** The backend pricing engine: a risk multiplier from the property's risk
    flags and the job's urgency, labour and material cost from the estimator's
    breakdowns (or its headline figures), three margin bands over the internal
    cost, and synthetic market statistics placed around the balanced band. */
module PricingEngine {
  import opened Common
  import opened Schemas
  import Materials

  const WinMargin: real := 0.15
  const PremiumMarginUplift: real := 0.15

  datatype PricingOutput = PricingOutput(
    internalCostEstimate: real,
    priceBands: PricingBands,
    minRecommendedPrice: real,
    marketStats: MarketStats,
    materialsBreakdown: seq<MaterialLineItem>,
    labourBreakdown: seq<LabourTask>,
    totalMaterialsCost: real,
    totalLabourCost: real)

  /** `cost / (1 - margin)` raises ZeroDivisionError when a margin is exactly 1. */
  datatype PricingError = ZeroDivision

  /** 1.0, plus 0.15 for the exact old-wiring flag, plus 0.10 for "high" or
      0.30 for "emergency" urgency. */
  function RiskMultiplier(flags: seq<string>, urgency: string): (m: real)
    ensures 1.0 <= m <= 1.45
    ensures m == 1.0 <==> OldWiringFlag !in flags && urgency != "high" && urgency != "emergency"
  {
    var base := if OldWiringFlag in flags then 1.0 + 0.15 else 1.0;
    if urgency == "high" then base + 0.10
    else if urgency == "emergency" then base + 0.30
    else base
  }

  /** The labour rate, raised by 20% for a "high" labour band. */
  function AdjustedLabourRate(labourRateBand: string, labourRate: real): real {
    if labourRateBand == "high" then labourRate * 1.2 else labourRate
  }

  /** Σ hours × rate × workers over the labour tasks. */
  function TaskLabourSum(tasks: seq<LabourTask>, rate: real): real {
    if tasks == [] then 0.0
    else tasks[0].hours * rate * tasks[0].workers as real + TaskLabourSum(tasks[1..], rate)
  }

  /** Labour cost from the task breakdown when there is one, else from the headline hours. */
  function LabourCost(tasks: seq<LabourTask>, estimatedHours: real, rate: real): real {
    if tasks != [] then TaskLabourSum(tasks, rate) else estimatedHours * rate
  }

  /** Σ catalogue price of each line item (its own stated cost is ignored here). */
  function CatalogueMaterialsSum(items: seq<MaterialLineItem>): real {
    if items == [] then 0.0
    else Materials.GetMaterialCost(items[0].item, items[0].quantity) + CatalogueMaterialsSum(items[1..])
  }

  /** Σ the line items' own `total_cost`, the figure reported back to the client. */
  function StatedMaterialsSum(items: seq<MaterialLineItem>): real {
    if items == [] then 0.0 else items[0].totalCost + StatedMaterialsSum(items[1..])
  }

  /** Materials cost used for the internal cost: catalogue-priced breakdown when
      present, else the estimator's headline figure. The material cost band has
      no say: the source scales the headline figure by it and then overwrites
      the scaled value on both branches. */
  function MaterialsCost(items: seq<MaterialLineItem>, estimatedMaterials: real): real {
    if items != [] then CatalogueMaterialsSum(items) else estimatedMaterials
  }

  function InternalCost(context: PropertyContext, labourRate: real, estimatedHours: real,
                        estimatedMaterials: real, tasks: seq<LabourTask>,
                        items: seq<MaterialLineItem>, urgency: string): real
  {
    var rate := AdjustedLabourRate(context.labourRateBand, labourRate);
    (LabourCost(tasks, estimatedHours, rate) + MaterialsCost(items, estimatedMaterials))
      * RiskMultiplier(context.likelyRiskFlags, urgency)
  }

  /** The nested `price_with_margin`: the price at which `margin` of it is profit. */
  function PriceWithMargin(cost: real, margin: real): (r: Result<real, PricingError>)
    ensures r.Ok? <==> margin != 1.0
    ensures r.Ok? ==> r.value * (1.0 - margin) == cost
  {
    if margin == 1.0 then Err(ZeroDivision) else Ok(cost / (1.0 - margin))
  }

  /** The simulated market, before rounding: the mean sits 1% above the
      balanced price, the spread is 12% of the mean, and the bounds are three
      spreads either side. */
  function SimulatedMarket(balanced: real): MarketStats {
    var mean := balanced / 0.99;
    var stdDev := mean * 0.12;
    MarketStats(mean, stdDev, mean - 3.0 * stdDev, mean + 3.0 * stdDev)
  }

  function RoundStats(m: MarketStats): MarketStats {
    MarketStats(Round2(m.mean), Round2(m.stdDev), Round2(m.lowerBound), Round2(m.upperBound))
  }

  /** `PricingEngine.calculate_pricing` of the backend. */
  function CalculatePricing(context: PropertyContext, jobType: string, labourRate: real,
                            desiredMargin: real, estimatedHours: real, estimatedMaterials: real,
                            labourTasks: seq<LabourTask>, materials: seq<MaterialLineItem>,
                            urgency: string): (r: Result<PricingOutput, PricingError>)
    ensures r.Ok? <==> desiredMargin != 1.0 && desiredMargin + PremiumMarginUplift != 1.0
    ensures r.Ok? ==> r.value.minRecommendedPrice == r.value.priceBands.winAtAllCosts
    ensures r.Ok? ==> r.value.labourBreakdown == labourTasks && r.value.materialsBreakdown == materials
    ensures r.Ok? ==>
      var internal := InternalCost(context, labourRate, estimatedHours, estimatedMaterials,
                                   labourTasks, materials, urgency);
      && r.value.internalCostEstimate == Round2(internal)
      && r.value.priceBands.winAtAllCosts == Round2(internal / (1.0 - WinMargin))
      && r.value.priceBands.balanced == Round2(internal / (1.0 - desiredMargin))
      && r.value.priceBands.premium == Round2(internal / (1.0 - (desiredMargin + PremiumMarginUplift)))
      && r.value.marketStats == RoundStats(SimulatedMarket(internal / (1.0 - desiredMargin)))
    ensures r.Ok? ==>
      r.value.totalMaterialsCost == Round2(if materials != [] then StatedMaterialsSum(materials) else estimatedMaterials)
    ensures r.Ok? ==>
      r.value.totalLabourCost
        == Round2(LabourCost(labourTasks, estimatedHours, AdjustedLabourRate(context.labourRateBand, labourRate)))
  {
    var rate := AdjustedLabourRate(context.labourRateBand, labourRate);
    var internal := InternalCost(context, labourRate, estimatedHours, estimatedMaterials,
                                 labourTasks, materials, urgency);
    var reportedMaterials := if materials != [] then StatedMaterialsSum(materials)
                             else MaterialsCost(materials, estimatedMaterials);
    Quote(internal, LabourCost(labourTasks, estimatedHours, rate), reportedMaterials,
          desiredMargin, labourTasks, materials)
  }

  /** The bands, market statistics and totals built from the internal cost. */
  function Quote(internal: real, labour: real, reportedMaterials: real, desiredMargin: real,
                 labourTasks: seq<LabourTask>, materials: seq<MaterialLineItem>)
    : Result<PricingOutput, PricingError>
  {
    var win := PriceWithMargin(internal, WinMargin);
    var balanced := PriceWithMargin(internal, desiredMargin);
    var premium := PriceWithMargin(internal, desiredMargin + PremiumMarginUplift);
    if balanced.Err? || premium.Err? then Err(ZeroDivision)
    else
      Ok(PricingOutput(
        Round2(internal),
        PricingBands(Round2(win.value), Round2(balanced.value), Round2(premium.value)),
        Round2(win.value),
        RoundStats(SimulatedMarket(balanced.value)),
        materials,
        labourTasks,
        Round2(reportedMaterials),
        Round2(labour)))
  }

  // ---------------------------------------------------------------------------
  // Properties

  /** The old-wiring flag adds exactly 0.15 and urgency adds 0.10 ("high") or
      0.30 ("emergency") on top of whatever the flags give; any other urgency
      adds nothing. */
  lemma RiskMultiplierDecomposes(flags: seq<string>, urgency: string)
    ensures RiskMultiplier(flags, urgency) ==
      1.0 + (if OldWiringFlag in flags then 0.15 else 0.0)
          + (if urgency == "high" then 0.10 else if urgency == "emergency" then 0.30 else 0.0)
    ensures urgency != "high" && urgency != "emergency" ==>
      RiskMultiplier(flags, urgency) == RiskMultiplier(flags, "medium")
  {
  }

  /** A labour cost scales linearly with the rate, so the "high" labour band
      raises the labour cost by exactly 20%. */
  lemma {:induction false} TaskLabourSumScales(tasks: seq<LabourTask>, rate: real, k: real)
    ensures TaskLabourSum(tasks, k * rate) == k * TaskLabourSum(tasks, rate)
  {
    if tasks != [] {
      TaskLabourSumScales(tasks[1..], rate, k);
      var t := tasks[0];
      assert t.hours * (k * rate) * t.workers as real == k * (t.hours * rate * t.workers as real);
    }
  }

  lemma HighLabourBandPremium(tasks: seq<LabourTask>, estimatedHours: real, labourRate: real)
    ensures LabourCost(tasks, estimatedHours, AdjustedLabourRate("high", labourRate))
         == 1.2 * LabourCost(tasks, estimatedHours, labourRate)
    ensures LabourCost(tasks, estimatedHours, AdjustedLabourRate("medium", labourRate))
         == LabourCost(tasks, estimatedHours, labourRate)
  {
    assert labourRate * 1.2 == 1.2 * labourRate;
    TaskLabourSumScales(tasks, labourRate, 1.2);
  }

  /** The context's material cost band never changes the quote. */
  lemma MaterialBandHasNoEffect(context: PropertyContext, band: string, jobType: string,
                                labourRate: real, desiredMargin: real, estimatedHours: real,
                                estimatedMaterials: real, labourTasks: seq<LabourTask>,
                                materials: seq<MaterialLineItem>, urgency: string)
    ensures CalculatePricing(context.(materialCostBand := band), jobType, labourRate, desiredMargin,
                             estimatedHours, estimatedMaterials, labourTasks, materials, urgency)
         == CalculatePricing(context, jobType, labourRate, desiredMargin,
                             estimatedHours, estimatedMaterials, labourTasks, materials, urgency)
  {
    var banded := context.(materialCostBand := band);
    assert InternalCost(banded, labourRate, estimatedHours, estimatedMaterials, labourTasks, materials, urgency)
        == InternalCost(context, labourRate, estimatedHours, estimatedMaterials, labourTasks, materials, urgency);
  }

  predicate NonNegativeTasks(tasks: seq<LabourTask>) {
    forall i :: 0 <= i < |tasks| ==> tasks[i].hours >= 0.0 && tasks[i].workers >= 0
  }

  predicate NonNegativeQuantities(items: seq<MaterialLineItem>) {
    forall i :: 0 <= i < |items| ==> items[i].quantity >= 0.0
  }

  lemma {:induction false} TaskLabourSumNonNegative(tasks: seq<LabourTask>, rate: real)
    requires NonNegativeTasks(tasks) && rate >= 0.0
    ensures TaskLabourSum(tasks, rate) >= 0.0
  {
    if tasks != [] {
      TaskLabourSumNonNegative(tasks[1..], rate);
      var t := tasks[0];
      assert t.hours * rate >= 0.0;
      assert t.hours * rate * t.workers as real >= 0.0;
    }
  }

  lemma {:induction false} CatalogueMaterialsSumNonNegative(items: seq<MaterialLineItem>)
    requires NonNegativeQuantities(items)
    ensures CatalogueMaterialsSum(items) >= 0.0
  {
    if items != [] {
      CatalogueMaterialsSumNonNegative(items[1..]);
      Materials.CostNonNegative(items[0].item, items[0].quantity);
    }
  }

  /** Non-negative hours, workers, quantities, rate and headline figures give a
      non-negative internal cost. */
  lemma InternalCostNonNegative(context: PropertyContext, labourRate: real, estimatedHours: real,
                                estimatedMaterials: real, tasks: seq<LabourTask>,
                                items: seq<MaterialLineItem>, urgency: string)
    requires labourRate >= 0.0 && estimatedHours >= 0.0 && estimatedMaterials >= 0.0
    requires NonNegativeTasks(tasks) && NonNegativeQuantities(items)
    ensures InternalCost(context, labourRate, estimatedHours, estimatedMaterials, tasks, items, urgency) >= 0.0
  {
    var rate := AdjustedLabourRate(context.labourRateBand, labourRate);
    TaskLabourSumNonNegative(tasks, rate);
    CatalogueMaterialsSumNonNegative(items);
    assert estimatedHours * rate >= 0.0;
    var sum := LabourCost(tasks, estimatedHours, rate) + MaterialsCost(items, estimatedMaterials);
    assert sum >= 0.0;
    assert sum * RiskMultiplier(context.likelyRiskFlags, urgency) >= 0.0;
  }

  /** Asking for a larger share of the price as margin never lowers the price. */
  lemma MarginPriceMonotonic(cost: real, m1: real, m2: real)
    requires cost >= 0.0 && m1 <= m2 < 1.0
    ensures cost / (1.0 - m1) <= cost / (1.0 - m2)
  {
    var a, b := 1.0 - m1, 1.0 - m2;
    var x, y := cost / a, cost / b;
    assert x * a == cost && y * b == cost;
  }

  /** For a non-negative cost and a desired margin in [0.15, 0.85), the three
      bands are ordered: win-at-all-costs <= balanced <= premium. */
  lemma BandsOrdered(context: PropertyContext, jobType: string, labourRate: real,
                     desiredMargin: real, estimatedHours: real, estimatedMaterials: real,
                     labourTasks: seq<LabourTask>, materials: seq<MaterialLineItem>, urgency: string)
    requires 0.15 <= desiredMargin < 0.85
    requires labourRate >= 0.0 && estimatedHours >= 0.0 && estimatedMaterials >= 0.0
    requires NonNegativeTasks(labourTasks) && NonNegativeQuantities(materials)
    ensures var r := CalculatePricing(context, jobType, labourRate, desiredMargin, estimatedHours,
                                      estimatedMaterials, labourTasks, materials, urgency);
      && r.Ok?
      && r.value.priceBands.winAtAllCosts <= r.value.priceBands.balanced <= r.value.priceBands.premium
  {
    var internal := InternalCost(context, labourRate, estimatedHours, estimatedMaterials,
                                 labourTasks, materials, urgency);
    InternalCostNonNegative(context, labourRate, estimatedHours, estimatedMaterials,
                            labourTasks, materials, urgency);
    var rate := AdjustedLabourRate(context.labourRateBand, labourRate);
    var reportedMaterials := if materials != [] then StatedMaterialsSum(materials)
                             else MaterialsCost(materials, estimatedMaterials);
    QuoteBandsOrdered(internal, LabourCost(labourTasks, estimatedHours, rate), reportedMaterials,
                      desiredMargin, labourTasks, materials);
  }

  lemma QuoteBandsOrdered(internal: real, labour: real, reportedMaterials: real, desiredMargin: real,
                          labourTasks: seq<LabourTask>, materials: seq<MaterialLineItem>)
    requires internal >= 0.0 && 0.15 <= desiredMargin < 0.85
    ensures var r := Quote(internal, labour, reportedMaterials, desiredMargin, labourTasks, materials);
      && r.Ok?
      && r.value.priceBands.winAtAllCosts <= r.value.priceBands.balanced <= r.value.priceBands.premium
  {
    MarginPriceMonotonic(internal, WinMargin, desiredMargin);
    MarginPriceMonotonic(internal, desiredMargin, desiredMargin + PremiumMarginUplift);
    Round2Monotonic(internal / (1.0 - WinMargin), internal / (1.0 - desiredMargin));
    Round2Monotonic(internal / (1.0 - desiredMargin), internal / (1.0 - (desiredMargin + PremiumMarginUplift)));
  }

  /** For a positive balanced price the simulated market mean lies above it,
      and the bounds bracket the mean (strictly before rounding, weakly after). */
  lemma MarketBracketsBalanced(balanced: real)
    requires balanced > 0.0
    ensures var m := SimulatedMarket(balanced);
      && balanced < m.mean && m.stdDev == 0.12 * m.mean
      && m.lowerBound < m.mean < m.upperBound
    ensures var m := RoundStats(SimulatedMarket(balanced));
      m.lowerBound <= m.mean <= m.upperBound
  {
    var m := SimulatedMarket(balanced);
    assert m.mean * 0.99 == balanced;
    Round2Monotonic(m.lowerBound, m.mean);
    Round2Monotonic(m.mean, m.upperBound);
  }

  /** The figures the repository's own tests expect: 16 h at £50 plus £500 of
      materials costs 1300 and is quoted 1625 at a 20% margin; with the
      old-wiring flag it costs 1495; 10 h with the flag costs 1150. */
  lemma ReferenceQuotes()
    ensures var plain := NewContext("medium", "medium");
      var r := CalculatePricing(plain, "roof_repair", 50.0, 0.2, 16.0, 500.0, [], [], "medium");
      r.Ok? && r.value.internalCostEstimate == 1300.0 && r.value.priceBands.balanced == 1625.0
    ensures var flagged := NewContext("medium", "medium").(likelyRiskFlags := [OldWiringFlag]);
      var r := CalculatePricing(flagged, "roof_repair", 50.0, 0.2, 16.0, 500.0, [], [], "medium");
      r.Ok? && r.value.internalCostEstimate == 1495.0
    ensures var flagged := NewContext("medium", "medium").(likelyRiskFlags := [OldWiringFlag]);
      var r := CalculatePricing(flagged, "roof_repair", 50.0, 0.2, 10.0, 500.0, [], [], "medium");
      r.Ok? && r.value.internalCostEstimate == 1150.0
  {
    var plain := NewContext("medium", "medium");
    var flagged := plain.(likelyRiskFlags := [OldWiringFlag]);
    assert RiskMultiplier(plain.likelyRiskFlags, "medium") == 1.0;
    assert RiskMultiplier(flagged.likelyRiskFlags, "medium") == 1.15 by {
      assert OldWiringFlag in flagged.likelyRiskFlags;
    }
    assert InternalCost(plain, 50.0, 16.0, 500.0, [], [], "medium") == 1300.0;
    assert InternalCost(flagged, 50.0, 16.0, 500.0, [], [], "medium") == 1495.0;
    assert InternalCost(flagged, 50.0, 10.0, 500.0, [], [], "medium") == 1150.0;
    assert 1300.0 / (1.0 - 0.2) == 1625.0;
    Round2WholeCents(130000);
    Round2WholeCents(162500);
    Round2WholeCents(149500);
    Round2WholeCents(115000);
  }

  /** With a materials breakdown, the reported materials total is the items'
      own stated costs while the internal cost prices them from the catalogue:
      a line item named as the estimator's prompt names it ("Roof tiles") is
      reported at 250 but priced at 0. */
  lemma ReportedMaterialsDifferFromPriced()
    ensures var item := MaterialLineItem("Roof tiles", 25.0, "tiles", 10.0, 250.0);
      var r := CalculatePricing(NewContext("medium", "medium"), "roof_repair", 50.0, 0.2,
                                16.0, 500.0, [], [item], "medium");
      r.Ok? && r.value.totalMaterialsCost == 250.0 && r.value.internalCostEstimate == 800.0
  {
    var item := MaterialLineItem("Roof tiles", 25.0, "tiles", 10.0, 250.0);
    var plain := NewContext("medium", "medium");
    assert "Roof tiles" !in Materials.Catalogue;
    assert CatalogueMaterialsSum([item]) == 0.0;
    assert StatedMaterialsSum([item]) == 250.0;
    assert RiskMultiplier(plain.likelyRiskFlags, "medium") == 1.0;
    assert InternalCost(plain, 50.0, 16.0, 500.0, [], [item], "medium") == 800.0;
    Round2WholeCents(25000);
    Round2WholeCents(80000);
  }
}
