/** The main page: it turns a submitted intake form into a bid request,
    cycles the scanning messages while the request is in flight, and derives
    the figures it shows from the returned bid (the selected price, the risk
    score, the two billing lines and the proposal text to copy). */
module IndexPage {
  import opened Common
  import opened Schemas

  /** The number of scanning messages the loading overlay cycles through. */
  const ScanStepCount: nat := 4

  const BidRegion: string := "London, UK"
  const BidMargin: real := 0.2
  const FallbackLabourRate: real := 65.0
  const LabourShare: real := 0.4
  const MaterialsShare: real := 0.6

  datatype Urgency = Low | Medium | High | Emergency

  datatype PriceOption = WinAtAllCosts | Balanced | Premium

  /** The intake form's payload as the page receives it. */
  datatype BidForm = BidForm(
    address: string,
    jobType: string,
    jobDescription: string,
    scopeOfWork: Option<string>,
    urgency: Option<Urgency>)

  /** The body of the create-bid request. */
  datatype BidRequest = BidRequest(
    address: string,
    region: string,
    jobType: string,
    jobDescription: string,
    scopeOfWork: Option<string>,
    urgency: Option<Urgency>,
    desiredMarginPercent: real)

  /** The parts of the bid response the page reads. */
  datatype BidView = BidView(
    proposalDraft: string,
    priceBands: PricingBands,
    internalCostEstimate: real,
    totalLabourCost: Option<real>,
    totalMaterialsCost: Option<real>,
    detectedLabourRate: Option<real>,
    materialCostBand: string)

  /** What the page remembers of the last submitted form. */
  datatype InspectionSummary = InspectionSummary(address: string, jobType: string, urgency: Urgency)

  datatype Issue = RatePerHour(rate: real) | Note(text: string)

  datatype BillingItem = BillingItem(id: nat, category: string, issue: Issue, cost: real)

  const BackendJobTypes: set<string> :=
    {"roof_repair", "bathroom_remodel", "electrical_rewire", "general_renovation", "other"}

  /** `mapJobTypeToBackend`: the five backend job types map to themselves,
      anything else to "other". */
  function MapJobTypeToBackend(jobType: string): (r: string)
    ensures r in BackendJobTypes
    ensures r == jobType <==> jobType in BackendJobTypes
    ensures jobType !in BackendJobTypes ==> r == "other"
  {
    if jobType in BackendJobTypes then jobType else "other"
  }

  /** `x || fallback` on an optional number: absent and 0 both fall back. */
  function OrElse(x: Option<real>, fallback: real): (r: real)
    ensures x.Some? && x.value != 0.0 ==> r == x.value
    ensures x.None? || x.value == 0.0 ==> r == fallback
  {
    if x.Some? && x.value != 0.0 then x.value else fallback
  }

  function BandPrice(bands: PricingBands, option: PriceOption): real {
    match option
    case WinAtAllCosts => bands.winAtAllCosts
    case Balanced => bands.balanced
    case Premium => bands.premium
  }

  /** `getSelectedPrice`. */
  function SelectedPrice(bid: Option<BidView>, option: PriceOption): (price: real)
    ensures bid.None? ==> price == 0.0
    ensures bid.Some? ==> price == BandPrice(bid.value.priceBands, option)
  {
    if bid.None? then 0.0 else BandPrice(bid.value.priceBands, option)
  }

  /** `riskScore`: the urgency's score. */
  function RiskScore(urgency: Urgency): (score: int)
    ensures 42 <= score <= 86
    ensures urgency == Low ==> score == 42
    ensures urgency == Medium ==> score == 57
    ensures urgency == High ==> score == 72
    ensures urgency == Emergency ==> score == 86
  {
    match urgency
    case Low => 42
    case Medium => 57
    case High => 72
    case Emergency => 86
  }

  /** The position of an urgency on the scale low < medium < high < emergency. */
  function UrgencyRank(urgency: Urgency): nat {
    match urgency
    case Low => 0
    case Medium => 1
    case High => 2
    case Emergency => 3
  }

  /** `billingItems`: a labour and a materials line, each falling back to its
      share of the internal cost when the bid reports no (or a zero) total. */
  function BillingItems(bid: Option<BidView>): (items: seq<BillingItem>)
    ensures bid.None? ==> items == []
    ensures bid.Some? ==>
      && |items| == 2
      && items[0].category == "Labour" && items[1].category == "Materials"
      && items[0].cost == OrElse(bid.value.totalLabourCost, bid.value.internalCostEstimate * LabourShare)
      && items[1].cost == OrElse(bid.value.totalMaterialsCost, bid.value.internalCostEstimate * MaterialsShare)
      && items[0].issue == RatePerHour(OrElse(bid.value.detectedLabourRate, FallbackLabourRate))
      && items[1].issue == Note(bid.value.materialCostBand + " cost materials")
  {
    match bid
    case None => []
    case Some(b) => [
      BillingItem(1, "Labour", RatePerHour(OrElse(b.detectedLabourRate, FallbackLabourRate)),
                  OrElse(b.totalLabourCost, b.internalCostEstimate * LabourShare)),
      BillingItem(2, "Materials", Note(b.materialCostBand + " cost materials"),
                  OrElse(b.totalMaterialsCost, b.internalCostEstimate * MaterialsShare))]
  }

  /** The copied proposal; `format` stands for `toLocaleString`. */
  function ProposalText(draft: string, price: real, format: real -> string): (text: string)
    ensures draft <= text
    ensures text[|draft|..] == "\n\nQuoted Price: £" + format(price)
  {
    draft + "\n\nQuoted Price: £" + format(price)
  }

  class IndexPage {
    var showResults: bool
    var loading: bool
    var scanIndex: nat
    var bidData: Option<BidView>
    var selectedPricing: PriceOption
    var inspection: InspectionSummary

    /** The scan index names one of the messages, and is 0 whenever no
        request is in flight. */
    predicate Valid()
      reads this
    {
      scanIndex < ScanStepCount && (!loading ==> scanIndex == 0)
    }

    constructor()
      ensures !showResults && !loading && scanIndex == 0 && bidData == None
      ensures selectedPricing == Balanced && inspection == InspectionSummary("", "", Medium)
      ensures Valid()
    {
      showResults, loading, scanIndex := false, false, 0;
      bidData := None;
      selectedPricing := Balanced;
      inspection := InspectionSummary("", "", Medium);
    }

    /** One tick of the 1.4 s interval, which only runs while loading. */
    method Tick()
      modifies this
      ensures loading == old(loading) && bidData == old(bidData) && showResults == old(showResults)
      ensures selectedPricing == old(selectedPricing) && inspection == old(inspection)
      ensures loading ==> scanIndex == (old(scanIndex) + 1) % ScanStepCount
      ensures !loading ==> scanIndex == old(scanIndex)
      ensures old(Valid()) ==> Valid()
    {
      if loading {
        scanIndex := (scanIndex + 1) % ScanStepCount;
      }
    }

    /** The start of `handleSubmit`: remember the form, start loading, and
        build the request. */
    method BeginSubmit(form: BidForm) returns (request: BidRequest)
      modifies this
      ensures inspection == InspectionSummary(form.address, form.jobType, form.urgency.GetOr(Medium))
      ensures loading
      ensures scanIndex == old(scanIndex) && bidData == old(bidData) && showResults == old(showResults)
      ensures selectedPricing == old(selectedPricing)
      ensures request.address == form.address && request.jobDescription == form.jobDescription
      ensures request.scopeOfWork == form.scopeOfWork && request.urgency == form.urgency
      ensures request.region == BidRegion && request.desiredMarginPercent == BidMargin
      ensures request.jobType == MapJobTypeToBackend(form.jobType)
      ensures old(Valid()) ==> Valid()
    {
      inspection := InspectionSummary(form.address, form.jobType, form.urgency.GetOr(Medium));
      loading := true;
      request := BidRequest(form.address, BidRegion, MapJobTypeToBackend(form.jobType),
                            form.jobDescription, form.scopeOfWork, form.urgency, BidMargin);
    }

    /** The end of `handleSubmit`: a response (`None` when the request
        failed) is shown, and loading stops, which resets the scan index. */
    method FinishSubmit(response: Option<BidView>)
      modifies this
      ensures response.Some? ==> bidData == response && showResults
      ensures response.None? ==> bidData == old(bidData) && showResults == old(showResults)
      ensures !loading && scanIndex == 0
      ensures selectedPricing == old(selectedPricing) && inspection == old(inspection)
      ensures Valid()
    {
      if response.Some? {
        bidData := response;
        showResults := true;
      }
      loading := false;
      scanIndex := 0;
    }

    method SelectPricing(option: PriceOption)
      modifies this
      ensures selectedPricing == option
      ensures bidData == old(bidData) && loading == old(loading) && scanIndex == old(scanIndex)
      ensures showResults == old(showResults) && inspection == old(inspection)
    {
      selectedPricing := option;
    }

    /** `handleCopyProposal`: nothing without a bid, else the proposal with
        the selected price. */
    method CopyProposal(format: real -> string) returns (text: Option<string>)
      ensures text.None? <==> bidData.None?
      ensures text.Some? ==>
        text.value == ProposalText(bidData.value.proposalDraft, SelectedPrice(bidData, selectedPricing), format)
    {
      if bidData.None? {
        return None;
      }
      text := Some(ProposalText(bidData.value.proposalDraft, SelectedPrice(bidData, selectedPricing), format));
    }
  }

  // ---------------------------------------------------------------------------
  // Properties

  /** Mapping twice maps once. */
  lemma MapJobTypeIdempotent(jobType: string)
    ensures MapJobTypeToBackend(MapJobTypeToBackend(jobType)) == MapJobTypeToBackend(jobType)
  {
  }

  /** The risk score rises strictly with urgency. */
  lemma RiskScoreIncreasing(a: Urgency, b: Urgency)
    ensures UrgencyRank(a) < UrgencyRank(b) <==> RiskScore(a) < RiskScore(b)
  {
  }

  /** When neither total is reported, the two billing lines split the
      internal cost 40/60 and add up to it. */
  lemma FallbackLinesSumToInternal(b: BidView)
    requires b.totalLabourCost.None? || b.totalLabourCost == Some(0.0)
    requires b.totalMaterialsCost.None? || b.totalMaterialsCost == Some(0.0)
    ensures var items := BillingItems(Some(b));
      items[0].cost + items[1].cost == b.internalCostEstimate
  {
  }

  /** With the bands the pricing engine produces (win <= balanced <=
      premium), the shown price follows the chosen option's order. */
  lemma SelectedPriceFollowsOption(bid: BidView)
    requires bid.priceBands.winAtAllCosts <= bid.priceBands.balanced <= bid.priceBands.premium
    ensures SelectedPrice(Some(bid), WinAtAllCosts) <= SelectedPrice(Some(bid), Balanced)
         <= SelectedPrice(Some(bid), Premium)
  {
  }
}
