/** The first-generation context optimiser: the same heuristic extraction,
    without the estimated-value and zoning keys, and with a single GBP 800k
    neighbourhood-median threshold for the labour band. */
module LegacyContextOptimizer {
  import opened Common
  import opened Schemas
  import opened ContextRules
  import ContextOptimizer

  const HighValueThreshold: real := 800000.0

  function LabourBandFor(median: Option<real>): (band: string)
    ensures band == "high" <==> Above(median, HighValueThreshold)
    ensures band == "medium" <==> !Above(median, HighValueThreshold)
  {
    if Above(median, HighValueThreshold) then "high" else "medium"
  }

  /** `ContextOptimizer.optimize` of the first-generation service. */
  method Optimize(rawResults: seq<RawResult>, currentYear: int) returns (context: PropertyContext)
    ensures context.propertyYearBuilt == LastWith(rawResults, YearBuiltOf)
    ensures context.lastSalePrice == LastWith(rawResults, LastSalePriceOf)
    ensures context.lastSaleDate == LastWith(rawResults, LastSaleDateOf)
    ensures context.ownershipDurationYears == LastOwnership(rawResults, currentYear)
    ensures context.neighbourhoodPriceMedian == LastWith(rawResults, MedianPriceOf)
    ensures context.neighbourhoodPriceTrend == LastWith(rawResults, TrendOf)
    ensures context.estimatedValue == None && context.zoning == None
    ensures context.permits == PermitsOf(rawResults)
    ensures context.likelyRiskFlags == RiskFlagsFor(context.propertyYearBuilt)
    ensures context.materialCostBand == MaterialBandFor(context.propertyYearBuilt)
    ensures context.labourRateBand == LabourBandFor(context.neighbourhoodPriceMedian)
    ensures context.detectedLabourRate == None
  {
    context := NewContext("medium", "medium");
    for i := 0 to |rawResults|
      invariant var done := rawResults[..i];
        && context.propertyYearBuilt == LastWith(done, YearBuiltOf)
        && context.lastSalePrice == LastWith(done, LastSalePriceOf)
        && context.lastSaleDate == LastWith(done, LastSaleDateOf)
        && context.ownershipDurationYears == LastOwnership(done, currentYear)
        && context.neighbourhoodPriceMedian == LastWith(done, MedianPriceOf)
        && context.neighbourhoodPriceTrend == LastWith(done, TrendOf)
        && context.permits == PermitsOf(done)
      invariant context.estimatedValue == None && context.zoning == None
      invariant context.likelyRiskFlags == [] && context.detectedLabourRate == None
      invariant context.materialCostBand == "medium" && context.labourRateBand == "medium"
    {
      var done, d := rawResults[..i], rawResults[i];
      assert rawResults[..i + 1] == done + [d];
      LastWithStep(done, d, YearBuiltOf);
      LastWithStep(done, d, LastSalePriceOf);
      LastWithStep(done, d, LastSaleDateOf);
      LastOwnershipStep(done, d, currentYear);
      LastWithStep(done, d, MedianPriceOf);
      LastWithStep(done, d, TrendOf);
      PermitsOfStep(done, d);
      context := MergeMetadata(context, d.meta, currentYear, false);
    }
    assert rawResults[..|rawResults|] == rawResults;
    if IsOldProperty(context.propertyYearBuilt) {
      context := context.(likelyRiskFlags := context.likelyRiskFlags + [OldWiringFlag], materialCostBand := "high");
    }
    if Above(context.neighbourhoodPriceMedian, HighValueThreshold) {
      context := context.(labourRateBand := "high");
    }
  }

  /** The backend lowered the threshold and added the property's own value,
      so every area the first generation prices as high value still is. */
  lemma BackendBandAtLeastAsHigh(median: Option<real>, estimatedValue: Option<real>)
    ensures LabourBandFor(median) == "high" ==> ContextOptimizer.LabourBandFor(median, estimatedValue) == "high"
    ensures var m := Some(700000.0);
      LabourBandFor(m) == "medium" && ContextOptimizer.LabourBandFor(m, None) == "high"
  {
  }
}
