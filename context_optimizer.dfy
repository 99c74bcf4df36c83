/** The backend context optimiser without a language model: the heuristic
    extraction of a property context from search results, and the text
    rendering of the results that the language-model prompt would carry. */
module ContextOptimizer {
  import opened Common
  import opened Schemas
  import opened Numerals
  import opened ContextRules
  import PricingEngine

  /** GBP 600k: above it the area or the property counts as high value. */
  const HighValueThreshold: real := 600000.0
  const MaxFormattedResults: nat := 10
  const MaxContentLength: nat := 2000

  /** The labour band: "high" for a high-value neighbourhood or property. */
  function LabourBandFor(median: Option<real>, estimatedValue: Option<real>): (band: string)
    ensures band == "high" <==> Above(median, HighValueThreshold) || Above(estimatedValue, HighValueThreshold)
    ensures band == "medium" <==> !(Above(median, HighValueThreshold) || Above(estimatedValue, HighValueThreshold))
  {
    if Above(median, HighValueThreshold) || Above(estimatedValue, HighValueThreshold) then "high" else "medium"
  }

  /** `_heuristic_optimize`: start from a context with both bands "medium",
      merge every result's metadata into it in order, then derive the risk
      flag and the two bands. */
  method HeuristicOptimize(rawResults: seq<RawResult>, currentYear: int) returns (context: PropertyContext)
    ensures context.propertyYearBuilt == LastWith(rawResults, YearBuiltOf)
    ensures context.lastSalePrice == LastWith(rawResults, LastSalePriceOf)
    ensures context.lastSaleDate == LastWith(rawResults, LastSaleDateOf)
    ensures context.ownershipDurationYears == LastOwnership(rawResults, currentYear)
    ensures context.neighbourhoodPriceMedian == LastWith(rawResults, MedianPriceOf)
    ensures context.neighbourhoodPriceTrend == LastWith(rawResults, TrendOf)
    ensures context.estimatedValue == LastWith(rawResults, EstimatedValueOf)
    ensures context.zoning == LastWith(rawResults, ZoningOf)
    ensures context.permits == PermitsOf(rawResults)
    ensures context.likelyRiskFlags == RiskFlagsFor(context.propertyYearBuilt)
    ensures context.materialCostBand == MaterialBandFor(context.propertyYearBuilt)
    ensures context.labourRateBand == LabourBandFor(context.neighbourhoodPriceMedian, context.estimatedValue)
    ensures context.detectedLabourRate == None
  {
    context := NewContext("medium", "medium");
    for i := 0 to |rawResults|
      invariant var done := rawResults[..i];
        && context.propertyYearBuilt == LastWith(done, YearBuiltOf)
        && context.lastSalePrice == LastWith(done, LastSalePriceOf)
        && context.lastSaleDate == LastWith(done, LastSaleDateOf)
        && context.ownershipDurationYears == LastOwnership(done, currentYear)
        && context.neighbourhoodPriceMedian == LastWith(done, MedianPriceOf)
        && context.neighbourhoodPriceTrend == LastWith(done, TrendOf)
        && context.estimatedValue == LastWith(done, EstimatedValueOf)
        && context.zoning == LastWith(done, ZoningOf)
        && context.permits == PermitsOf(done)
      invariant context.likelyRiskFlags == [] && context.detectedLabourRate == None
      invariant context.materialCostBand == "medium" && context.labourRateBand == "medium"
    {
      var done, d := rawResults[..i], rawResults[i];
      assert rawResults[..i + 1] == done + [d];
      LastWithStep(done, d, YearBuiltOf);
      LastWithStep(done, d, LastSalePriceOf);
      LastWithStep(done, d, LastSaleDateOf);
      LastOwnershipStep(done, d, currentYear);
      LastWithStep(done, d, MedianPriceOf);
      LastWithStep(done, d, TrendOf);
      LastWithStep(done, d, EstimatedValueOf);
      LastWithStep(done, d, ZoningOf);
      PermitsOfStep(done, d);
      context := MergeMetadata(context, d.meta, currentYear, true);
    }
    assert rawResults[..|rawResults|] == rawResults;
    if IsOldProperty(context.propertyYearBuilt) {
      context := context.(likelyRiskFlags := context.likelyRiskFlags + [OldWiringFlag], materialCostBand := "high");
    }
    var isHighValue := false;
    if Above(context.neighbourhoodPriceMedian, HighValueThreshold) {
      isHighValue := true;
    } else if Above(context.estimatedValue, HighValueThreshold) {
      isHighValue := true;
    }
    if isHighValue {
      context := context.(labourRateBand := "high");
    }
  }

  // ---------------------------------------------------------------------------
  // `_format_raw_results`

  /** A result's content: the full content when non-empty, else the snippet,
      cut to its first 2000 characters. */
  function ResultContent(r: RawResult): (content: string)
    ensures |content| <= MaxContentLength
    ensures var source := if r.meta.fullContent.Present? && r.meta.fullContent.value != "" then r.meta.fullContent.value
                          else r.snippet.GetOr("");
      && content <= source
      && |content| == if |source| < MaxContentLength then |source| else MaxContentLength
  {
    var full := if r.meta.fullContent.Present? then r.meta.fullContent.value else "";
    Take(if full != "" then full else r.snippet.GetOr(""), MaxContentLength)
  }

  /** How the f-string writes `result.get(key, "")`: "" for a missing key,
      "None" for a key holding `None`. */
  function FieldText(v: Nullable<string>): (s: string)
    ensures v.Present? ==> s == v.value
    ensures v.Missing? ==> s == ""
    ensures v.Null? ==> s == "None"
  {
    match v
    case Missing => ""
    case Null => "None"
    case Present(x) => x
  }

  /** The block for the `n`-th result (counting from 1). */
  function ResultBlock(n: nat, r: RawResult): string {
    BlockText(NatToDecimal(n), FieldText(r.title), ResultContent(r), FieldText(r.url))
  }

  /** The f-string of one block. */
  function BlockText(number: string, title: string, content: string, url: string): string {
    "Result " + number + ":\nTitle: " + title + "\nContent: " + content + "\nURL: " + url + "\n"
  }

  /** The blocks of the first ten results, numbered from 1. */
  function ResultBlocks(rawResults: seq<RawResult>): (blocks: seq<string>)
    ensures |blocks| == if |rawResults| < MaxFormattedResults then |rawResults| else MaxFormattedResults
    ensures forall k :: 0 <= k < |blocks| ==> blocks[k] == ResultBlock(k + 1, rawResults[k])
  {
    var n := if |rawResults| < MaxFormattedResults then |rawResults| else MaxFormattedResults;
    seq(n, k requires 0 <= k < n => ResultBlock(k + 1, rawResults[k]))
  }

  /** `sep.join(parts)`. */
  function Join(parts: seq<string>, sep: string): string {
    if parts == [] then ""
    else if |parts| == 1 then parts[0]
    else Join(parts[..|parts| - 1], sep) + sep + parts[|parts| - 1]
  }

  /** `_format_raw_results`: the blocks of the first ten results joined by
      newlines. */
  method FormatRawResults(rawResults: seq<RawResult>) returns (text: string)
    ensures text == Join(ResultBlocks(rawResults), "\n")
  {
    var formatted: seq<string> := [];
    var i := 0;
    while i < |rawResults| && i < MaxFormattedResults
      invariant 0 <= i <= |rawResults| && i <= MaxFormattedResults
      invariant formatted == ResultBlocks(rawResults[..i])
    {
      assert rawResults[..i + 1][..i] == rawResults[..i];
      formatted := formatted + [ResultBlock(i + 1, rawResults[i])];
      i := i + 1;
    }
    assert formatted == ResultBlocks(rawResults);
    text := Join(formatted, "\n");
  }

  // ---------------------------------------------------------------------------
  // Properties

  /** Results after the tenth never reach the text. */
  lemma OnlyFirstTenFormatted(rawResults: seq<RawResult>, more: seq<RawResult>)
    requires |rawResults| >= MaxFormattedResults
    ensures ResultBlocks(rawResults + more) == ResultBlocks(rawResults)
  {
  }

  /** Each block opens with its 1-based number, which reads back as that number. */
  lemma {:induction false} BlocksNumberedFromOne(rawResults: seq<RawResult>, k: nat)
    requires k < |ResultBlocks(rawResults)|
    ensures "Result " + NatToDecimal(k + 1) + ":" <= ResultBlocks(rawResults)[k]
    ensures ParseInt(NatToDecimal(k + 1)) == Some(k + 1)
  {
    var r := rawResults[k];
    assert ResultBlocks(rawResults)[k] == ResultBlock(k + 1, r);
    BlockStartsWithNumber(NatToDecimal(k + 1), FieldText(r.title), ResultContent(r), FieldText(r.url));
    ParseDecimal(k + 1);
  }

  lemma BlockStartsWithNumber(number: string, title: string, content: string, url: string)
    ensures "Result " + number + ":" <= BlockText(number, title, content, url)
  {
    var tail := "\nTitle: " + title + "\nContent: " + content + "\nURL: " + url + "\n";
    assert ":\nTitle: " == ":" + "\nTitle: ";
    assert BlockText(number, title, content, url) == "Result " + number + ":" + tail;
  }

  /** A title key that is missing is written empty; one that holds `None`
      (a search hit without a title) is written "None". */
  lemma {:induction false} TitleWrittenAsStored(n: nat, r: RawResult)
    ensures r.title.Missing? ==> "Result " + NatToDecimal(n) + ":\nTitle: \nContent: " <= ResultBlock(n, r)
    ensures r.title.Null? ==> "Result " + NatToDecimal(n) + ":\nTitle: None\nContent: " <= ResultBlock(n, r)
  {
    BlockStartsWithTitle(NatToDecimal(n), FieldText(r.title), ResultContent(r), FieldText(r.url));
  }

  lemma BlockStartsWithTitle(number: string, title: string, content: string, url: string)
    ensures "Result " + number + ":\nTitle: " + title + "\nContent: " <= BlockText(number, title, content, url)
  {
    var head := "Result " + number + ":\nTitle: " + title + "\nContent: ";
    assert BlockText(number, title, content, url) == head + (content + "\nURL: " + url + "\n");
  }

  /** A property built before 1970 is quoted with the old-wiring risk
      surcharge, whatever the job's urgency. */
  lemma OldPropertyRaisesRisk(context: PropertyContext, urgency: string)
    requires context.likelyRiskFlags == RiskFlagsFor(context.propertyYearBuilt)
    ensures IsOldProperty(context.propertyYearBuilt) ==>
      PricingEngine.RiskMultiplier(context.likelyRiskFlags, urgency) >= 1.15
    ensures !IsOldProperty(context.propertyYearBuilt) && urgency != "high" && urgency != "emergency" ==>
      PricingEngine.RiskMultiplier(context.likelyRiskFlags, urgency) == 1.0
  {
    PricingEngine.RiskMultiplierDecomposes(context.likelyRiskFlags, urgency);
  }
}
