/** The extraction rules both context optimisers apply to search results:
    for each scalar field the last result whose metadata has the key wins,
    permits accumulate in result order, the ownership duration comes from the
    year prefix of the last sale date, and a property built before 1970 is
    flagged for old wiring and priced with the high material band. */
module ContextRules {
  import opened Common
  import opened Schemas
  import opened Numerals

  /** The value of the last result whose metadata yields one under `f`. */
  function LastWith<T>(docs: seq<RawResult>, f: Metadata -> Option<T>): Option<T> {
    if docs == [] then None
    else
      var v := f(docs[|docs| - 1].meta);
      if v.Some? then v else LastWith(docs[..|docs| - 1], f)
  }

  // Field readers, passed to `LastWith`.
  function YearBuiltOf(m: Metadata): Option<int> { m.yearBuilt }
  function LastSalePriceOf(m: Metadata): Option<real> { m.lastSalePrice }
  function LastSaleDateOf(m: Metadata): Option<string> { m.lastSaleDate }
  function MedianPriceOf(m: Metadata): Option<real> { m.medianPrice }
  function TrendOf(m: Metadata): Option<string> { m.trend }
  function EstimatedValueOf(m: Metadata): Option<real> { m.estimatedValue }
  function ZoningOf(m: Metadata): Option<string> { m.zoning }

  /** A permit entry with both parts defaulting to "unknown". */
  function NormalizePermit(p: PermitEntry): (q: Permit)
    ensures p.permitType.Some? ==> q.permitType == p.permitType.value
    ensures p.permitType.None? ==> q.permitType == "unknown"
    ensures p.year.Some? ==> q.year == p.year.value
    ensures p.year.None? ==> q.year == "unknown"
  {
    Permit(p.permitType.GetOr("unknown"), p.year.GetOr("unknown"))
  }

  function NormalizePermits(ps: seq<PermitEntry>): (qs: seq<Permit>)
    ensures |qs| == |ps| && forall i :: 0 <= i < |ps| ==> qs[i] == NormalizePermit(ps[i])
  {
    seq(|ps|, i requires 0 <= i < |ps| => NormalizePermit(ps[i]))
  }

  /** Every permit of every result, in result order. */
  function PermitsOf(docs: seq<RawResult>): seq<Permit> {
    if docs == [] then []
    else PermitsOf(docs[..|docs| - 1]) + NormalizePermits(docs[|docs| - 1].meta.permits.GetOr([]))
  }

  /** The ownership duration one result implies: the current year minus the
      integer before the first '-' of its sale date, when that parses. */
  function SaleOwnership(m: Metadata, currentYear: int): (d: Option<real>)
    ensures d.Some? ==> m.lastSaleDate.Some?
    ensures m.lastSaleDate.Some? ==>
      var year := ParseInt(BeforeFirst(m.lastSaleDate.value, '-'));
      && (d.Some? <==> year.Some?)
      && (year.Some? ==> d.value == (currentYear - year.value) as real)
  {
    match m.lastSaleDate
    case None => None
    case Some(date) =>
      match ParseInt(BeforeFirst(date, '-'))
      case Some(year) => Some((currentYear - year) as real)
      case None => None
  }

  /** The ownership duration: from the last result whose sale date parses. */
  function LastOwnership(docs: seq<RawResult>, currentYear: int): Option<real> {
    LastWith(docs, m => SaleOwnership(m, currentYear))
  }

  /** One more result: its parsed sale year, if any, replaces the duration. */
  lemma LastOwnershipStep(docs: seq<RawResult>, d: RawResult, currentYear: int)
    ensures LastOwnership(docs + [d], currentYear)
         == if SaleOwnership(d.meta, currentYear).Some? then SaleOwnership(d.meta, currentYear)
            else LastOwnership(docs, currentYear)
  {
    assert (docs + [d])[..|docs|] == docs;
  }

  /** A sale date that starts with a year and a '-' gives the years since
      that sale. */
  lemma IsoSaleDateOwnership(m: Metadata, year: nat, rest: string, currentYear: int)
    requires m.lastSaleDate == Some(NatToDecimal(year) + "-" + rest)
    ensures SaleOwnership(m, currentYear) == Some((currentYear - year) as real)
  {
    var digits := NatToDecimal(year);
    assert '-' !in digits by {
      forall i | 0 <= i < |digits|
        ensures digits[i] != '-'
      {
        assert IsDigit(digits[i]);
      }
    }
    assert digits + "-" + rest == digits + ['-'] + rest;
    BeforeFirstConcat(digits, '-', rest);
    ParseDecimal(year);
  }

  /** A sale date whose text before the first '-' has no digit leaves the
      duration unset. */
  lemma UndatedSaleNoOwnership(m: Metadata, currentYear: int)
    requires m.lastSaleDate.Some? && NoDigit(BeforeFirst(m.lastSaleDate.value, '-'))
    ensures SaleOwnership(m, currentYear) == None
  {
    NoDigitNoInt(BeforeFirst(m.lastSaleDate.value, '-'));
  }

  /** `year_built` is set, non-zero and before 1970. */
  predicate IsOldProperty(yearBuilt: Option<int>) {
    yearBuilt.Some? && yearBuilt.value != 0 && yearBuilt.value < 1970
  }

  function RiskFlagsFor(yearBuilt: Option<int>): (flags: seq<string>)
    ensures OldWiringFlag in flags <==> IsOldProperty(yearBuilt)
    ensures |flags| <= 1
  {
    if IsOldProperty(yearBuilt) then [OldWiringFlag] else []
  }

  function MaterialBandFor(yearBuilt: Option<int>): (band: string)
    ensures band == "high" <==> IsOldProperty(yearBuilt)
    ensures band == "medium" <==> !IsOldProperty(yearBuilt)
  {
    if IsOldProperty(yearBuilt) then "high" else "medium"
  }

  /** A set, non-zero amount above the threshold. */
  predicate Above(amount: Option<real>, threshold: real) {
    amount.Some? && amount.value != 0.0 && amount.value > threshold
  }

  // ---------------------------------------------------------------------------
  // Merging one result into the context

  /** Append the normalised permits of one result, in order. */
  method AppendPermits(context: PropertyContext, permits: seq<PermitEntry>) returns (next: PropertyContext)
    ensures next == context.(permits := context.permits + NormalizePermits(permits))
  {
    next := context;
    for j := 0 to |permits|
      invariant next == context.(permits := context.permits + NormalizePermits(permits[..j]))
    {
      assert permits[..j + 1][..j] == permits[..j];
      next := next.(permits := next.permits + [NormalizePermit(permits[j])]);
    }
    assert permits[..|permits|] == permits;
  }

  /** The body of the extraction loop for one result: every key present in
      its metadata overwrites the field, a parsable sale year sets the
      ownership duration, and its permits are appended. The first-generation
      service (`readsValuation` false) ignores the estimated value and the
      zoning keys. Flags, bands and the detected rate are untouched. */
  method MergeMetadata(context: PropertyContext, meta: Metadata, currentYear: int, readsValuation: bool)
    returns (next: PropertyContext)
    ensures next.propertyYearBuilt == if meta.yearBuilt.Some? then meta.yearBuilt else context.propertyYearBuilt
    ensures next.lastSalePrice == if meta.lastSalePrice.Some? then meta.lastSalePrice else context.lastSalePrice
    ensures next.lastSaleDate == if meta.lastSaleDate.Some? then meta.lastSaleDate else context.lastSaleDate
    ensures next.ownershipDurationYears ==
      if SaleOwnership(meta, currentYear).Some? then SaleOwnership(meta, currentYear) else context.ownershipDurationYears
    ensures next.neighbourhoodPriceMedian == if meta.medianPrice.Some? then meta.medianPrice else context.neighbourhoodPriceMedian
    ensures next.neighbourhoodPriceTrend == if meta.trend.Some? then meta.trend else context.neighbourhoodPriceTrend
    ensures next.estimatedValue == if readsValuation && meta.estimatedValue.Some? then meta.estimatedValue else context.estimatedValue
    ensures next.zoning == if readsValuation && meta.zoning.Some? then meta.zoning else context.zoning
    ensures next.permits == context.permits + NormalizePermits(meta.permits.GetOr([]))
    ensures next.likelyRiskFlags == context.likelyRiskFlags && next.detectedLabourRate == context.detectedLabourRate
    ensures next.materialCostBand == context.materialCostBand && next.labourRateBand == context.labourRateBand
  {
    var ownership := SaleOwnership(meta, currentYear);
    next := context.(
      propertyYearBuilt := if meta.yearBuilt.Some? then meta.yearBuilt else context.propertyYearBuilt,
      lastSalePrice := if meta.lastSalePrice.Some? then meta.lastSalePrice else context.lastSalePrice,
      lastSaleDate := if meta.lastSaleDate.Some? then meta.lastSaleDate else context.lastSaleDate,
      ownershipDurationYears := if ownership.Some? then ownership else context.ownershipDurationYears,
      neighbourhoodPriceMedian := if meta.medianPrice.Some? then meta.medianPrice else context.neighbourhoodPriceMedian,
      neighbourhoodPriceTrend := if meta.trend.Some? then meta.trend else context.neighbourhoodPriceTrend,
      estimatedValue := if readsValuation && meta.estimatedValue.Some? then meta.estimatedValue else context.estimatedValue,
      zoning := if readsValuation && meta.zoning.Some? then meta.zoning else context.zoning);
    // a result without a permit list appends nothing
    next := AppendPermits(next, meta.permits.GetOr([]));
  }

  /** One more result: a value under `f` replaces the one found so far. */
  lemma LastWithStep<T>(docs: seq<RawResult>, d: RawResult, f: Metadata -> Option<T>)
    ensures LastWith(docs + [d], f) == if f(d.meta).Some? then f(d.meta) else LastWith(docs, f)
  {
    assert (docs + [d])[..|docs|] == docs;
  }

  lemma PermitsOfStep(docs: seq<RawResult>, d: RawResult)
    ensures PermitsOf(docs + [d]) == PermitsOf(docs) + NormalizePermits(d.meta.permits.GetOr([]))
  {
    assert (docs + [d])[..|docs|] == docs;
  }

  // ---------------------------------------------------------------------------
  // Properties

  /** `LastWith` finds a value exactly when some result has one, and then it
      is the value of a result after which no result has one. */
  lemma {:induction false} LastWins<T>(docs: seq<RawResult>, f: Metadata -> Option<T>)
    ensures LastWith(docs, f).Some? <==> exists i :: 0 <= i < |docs| && f(docs[i].meta).Some?
    ensures LastWith(docs, f).Some? ==>
      exists i :: 0 <= i < |docs| && f(docs[i].meta) == LastWith(docs, f)
        && forall j :: i < j < |docs| ==> f(docs[j].meta).None?
  {
    if docs != [] {
      var n := |docs| - 1;
      var init := docs[..n];
      LastWins(init, f);
      if f(docs[n].meta).None? {
        if LastWith(init, f).Some? {
          var i :| 0 <= i < |init| && f(init[i].meta) == LastWith(init, f)
            && forall j :: i < j < |init| ==> f(init[j].meta).None?;
          assert docs[i] == init[i];
          assert forall j :: i < j < |docs| ==> f(docs[j].meta).None? by {
            forall j | i < j < |docs|
              ensures f(docs[j].meta).None?
            {
              if j < n {
                assert docs[j] == init[j];
              }
            }
          }
        } else {
          forall i | 0 <= i < |docs|
            ensures f(docs[i].meta).None?
          {
            if i < n {
              assert docs[i] == init[i];
            }
          }
        }
      }
    }
  }

  /** Permits of consecutive batches of results are the batches' permits
      concatenated: nothing is dropped, duplicated or reordered. */
  lemma {:induction false} PermitsOfConcat(a: seq<RawResult>, b: seq<RawResult>)
    ensures PermitsOf(a + b) == PermitsOf(a) + PermitsOf(b)
    decreases |b|
  {
    if b == [] {
      assert a + b == a;
    } else {
      var n := |b| - 1;
      var last := NormalizePermits(b[n].meta.permits.GetOr([]));
      assert (a + b)[..|a + b| - 1] == a + b[..n];
      assert (a + b)[|a + b| - 1] == b[n];
      assert PermitsOf(a + b) == PermitsOf(a + b[..n]) + last;
      PermitsOfConcat(a, b[..n]);
      assert PermitsOf(b) == PermitsOf(b[..n]) + last;
    }
  }
}
