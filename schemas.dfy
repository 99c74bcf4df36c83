/** The record shapes that the backend services pass to each other: the
    property context, breakdown line items, price bands and market statistics,
    and the raw search results that the search client produces and the context
    optimiser consumes. */
module Schemas {
  import opened Common

  /** The risk flag the context optimiser raises for old properties and the
      pricing engines look for, character for character. */
  const OldWiringFlag: string := "Old wiring/plumbing risk"

  /** A normalised planning permit: both parts stringified, "unknown" when absent. */
  datatype Permit = Permit(permitType: string, year: string)

  datatype PropertyContext = PropertyContext(
    propertyYearBuilt: Option<int>,
    lastSalePrice: Option<real>,
    lastSaleDate: Option<string>,
    ownershipDurationYears: Option<real>,
    neighbourhoodPriceMedian: Option<real>,
    neighbourhoodPriceTrend: Option<string>,
    estimatedValue: Option<real>,
    zoning: Option<string>,
    permits: seq<Permit>,
    likelyRiskFlags: seq<string>,
    materialCostBand: string,
    labourRateBand: string,
    detectedLabourRate: Option<real>)

  /** `PropertyContext(material_cost_band=..., labour_rate_band=...)`: every
      optional field unset and both lists empty. */
  function NewContext(materialCostBand: string, labourRateBand: string): (c: PropertyContext)
    ensures c.materialCostBand == materialCostBand && c.labourRateBand == labourRateBand
    ensures c.permits == [] && c.likelyRiskFlags == []
    ensures c.propertyYearBuilt == None && c.estimatedValue == None
  {
    PropertyContext(None, None, None, None, None, None, None, None, [], [],
                    materialCostBand, labourRateBand, None)
  }

  datatype LabourTask = LabourTask(task: string, hours: real, workers: int)

  datatype MaterialLineItem = MaterialLineItem(
    item: string, quantity: real, unit: string, unitCost: real, totalCost: real)

  datatype PricingBands = PricingBands(winAtAllCosts: real, balanced: real, premium: real)

  datatype MarketStats = MarketStats(mean: real, stdDev: real, lowerBound: real, upperBound: real)

  /** A value read from a dictionary that may lack the key, hold `None`, or hold a value. */
  datatype Nullable<+T> = Missing | Null | Present(value: T)

  /** An attribute that may be `None`, stored under its key. */
  function Stored<T>(attribute: Option<T>): (v: Nullable<T>)
    ensures v.Null? <==> attribute.None?
    ensures attribute.Some? ==> v == Present(attribute.value)
  {
    match attribute
    case Some(x) => Present(x)
    case None => Null
  }

  /** One permit entry as found in search metadata; each part may be absent. */
  datatype PermitEntry = PermitEntry(permitType: Option<string>, year: Option<string>)

  /** The `raw_metadata` dictionary of a search result. Each field is `None`
      when its key is absent; a `permits` value that is not a list is skipped
      by every consumer and is represented as absent. */
  datatype Metadata = Metadata(
    fullContent: Nullable<string>,
    url: Nullable<string>,
    yearBuilt: Option<int>,
    lastSalePrice: Option<real>,
    lastSaleDate: Option<string>,
    medianPrice: Option<real>,
    trend: Option<string>,
    estimatedValue: Option<real>,
    zoning: Option<string>,
    permits: Option<seq<PermitEntry>>)

  const NoMetadata: Metadata :=
    Metadata(Missing, Missing, None, None, None, None, None, None, None, None)

  /** One search result dictionary; a missing `raw_metadata` key reads as `{}`.
      The title and url keys may be absent or hold `None`, which the
      formatter writes differently. */
  datatype RawResult = RawResult(
    title: Nullable<string>, snippet: Option<string>, url: Nullable<string>, meta: Metadata)
}
