/** The deterministic parts of the web-search client: reshaping search hits
    into raw results, extracting an hourly labour rate from their text, and
    the cache-first labour-rate search. The search service itself and the
    regular-expression matching are parameters: `search` answers a query with
    hits (or `None` when it raises), and `scan` lists the rate mentions the
    five rate patterns find in a text, in pattern order. */
module ValyuClient {
  import opened Common
  import opened Schemas
  import opened RateCache

  /** One hit as the search service returns it. */
  datatype SearchHit = SearchHit(title: Option<string>, content: Option<string>, url: Option<string>)

  /** A rate mention: a single amount or a "low - high" range. */
  datatype RateMatch = Single(amount: real) | Range(low: real, high: real)

  /** `snippet + " " + full_content` raises when `full_content` holds `None`. */
  datatype ContentError = FullContentIsNone

  const SnippetLength: nat := 300
  const MinPlausibleRate: real := 15.0
  const MaxPlausibleRate: real := 200.0

  // ---------------------------------------------------------------------------
  // `_transform_results`

  /** One transformed hit: the snippet is the first 300 characters of the
      content ("" when there is none), and the metadata carries the whole
      content and the url. */
  function Transform(hit: SearchHit): (r: RawResult)
    ensures r.title == Stored(hit.title) && r.url == Stored(hit.url) && r.meta.url == Stored(hit.url)
    ensures r.snippet.Some? && |r.snippet.value| <= SnippetLength
    ensures hit.content.Some? ==>
      && r.snippet.value <= hit.content.value
      && |r.snippet.value| == if |hit.content.value| < SnippetLength then |hit.content.value| else SnippetLength
    ensures hit.content.None? ==> r.snippet.value == "" && r.meta.fullContent == Null
    ensures hit.content.Some? ==> r.meta.fullContent == Present(hit.content.value)
  {
    var snippet := match hit.content
      case Some(c) => if c != "" then Take(c, SnippetLength) else ""
      case None => "";
    var full := match hit.content
      case Some(c) => Present(c)
      case None => Null;
    RawResult(Stored(hit.title), Some(snippet), Stored(hit.url),
              NoMetadata.(fullContent := full, url := Stored(hit.url)))
  }

  function TransformAll(hits: seq<SearchHit>): (r: seq<RawResult>)
    ensures |r| == |hits| && forall i :: 0 <= i < |hits| ==> r[i] == Transform(hits[i])
  {
    seq(|hits|, i requires 0 <= i < |hits| => Transform(hits[i]))
  }

  /** `_transform_results`: one raw result per hit, in order. */
  method TransformResults(hits: seq<SearchHit>) returns (transformed: seq<RawResult>)
    ensures transformed == TransformAll(hits)
  {
    transformed := [];
    for i := 0 to |hits|
      invariant transformed == TransformAll(hits[..i])
    {
      assert hits[..i + 1][..i] == hits[..i];
      transformed := transformed + [Transform(hits[i])];
    }
    assert hits[..|hits|] == hits;
  }

  // ---------------------------------------------------------------------------
  // `_extract_labour_rate`

  /** The rate a mention contributes: a range contributes its midpoint. */
  function MatchRate(m: RateMatch): (rate: real)
    ensures m.Single? ==> rate == m.amount
    ensures m.Range? && m.low <= m.high ==> m.low <= rate <= m.high
    ensures m.Range? ==> rate - m.low == m.high - rate
  {
    match m
    case Single(v) => v
    case Range(low, high) => (low + high) / 2.0
  }

  function MatchRates(ms: seq<RateMatch>): (rates: seq<real>)
    ensures |rates| == |ms| && forall i :: 0 <= i < |ms| ==> rates[i] == MatchRate(ms[i])
  {
    seq(|ms|, i requires 0 <= i < |ms| => MatchRate(ms[i]))
  }

  /** The text searched for rates: snippet, a space, and the full content;
      a missing key reads as "", a `None` full content fails. */
  function Content(r: RawResult): (c: Result<string, ContentError>)
    ensures c.Err? <==> r.meta.fullContent == Null
    ensures c.Ok? ==> r.snippet.GetOr("") + " " <= c.value
    ensures r.meta.fullContent.Present? ==> c.value == r.snippet.GetOr("") + " " + r.meta.fullContent.value
    ensures r.meta.fullContent.Missing? ==> c.value == r.snippet.GetOr("") + " "
  {
    match r.meta.fullContent
    case Null => Err(FullContentIsNone)
    case Missing => Ok(r.snippet.GetOr("") + " ")
    case Present(full) => Ok(r.snippet.GetOr("") + " " + full)
  }

  /** Every candidate rate, result by result and mention by mention; the
      first result whose full content is `None` aborts the whole extraction. */
  function Candidates(results: seq<RawResult>, scan: string -> seq<RateMatch>): (r: Result<seq<real>, ContentError>)
    ensures r.Err? <==> exists i :: 0 <= i < |results| && results[i].meta.fullContent == Null
  {
    if results == [] then Ok([])
    else
      var earlier := Candidates(results[..|results| - 1], scan);
      var last := results[|results| - 1];
      if earlier.Err? then earlier
      else match Content(last)
        case Err(e) => Err(e)
        case Ok(c) => Ok(earlier.value + MatchRates(scan(c)))
  }

  predicate Plausible(rate: real) {
    MinPlausibleRate <= rate <= MaxPlausibleRate
  }

  /** The candidates within [15, 200], both bounds included, in order. */
  function PlausibleRates(rates: seq<real>): (valid: seq<real>)
    ensures forall x :: x in valid <==> x in rates && Plausible(x)
    ensures forall x :: multiset(valid)[x] == if Plausible(x) then multiset(rates)[x] else 0
    ensures |valid| <= |rates|
  {
    assert rates != [] ==> rates == [rates[0]] + rates[1..];
    if rates == [] then []
    else if Plausible(rates[0]) then [rates[0]] + PlausibleRates(rates[1..])
    else PlausibleRates(rates[1..])
  }

  predicate Sorted(s: seq<real>) {
    forall i, j :: 0 <= i < j < |s| ==> s[i] <= s[j]
  }

  function Insert(x: real, s: seq<real>): (r: seq<real>)
    requires Sorted(s)
    ensures Sorted(r) && multiset(r) == multiset(s) + multiset{x}
    ensures |r| == |s| + 1 && forall y :: y in r <==> y in s || y == x
  {
    if s == [] || x <= s[0] then [x] + s
    else
      var rest := Insert(x, s[1..]);
      assert s == [s[0]] + s[1..];
      BoundedBelow(s[0], x, s[1..], rest);
      [s[0]] + rest
  }

  /** A lower bound of `t` and of `x` bounds every value drawn from them. */
  lemma BoundedBelow(m: real, x: real, t: seq<real>, rest: seq<real>)
    requires m <= x && forall i :: 0 <= i < |t| ==> m <= t[i]
    requires forall y :: y in rest ==> y in t || y == x
    ensures forall k :: 0 <= k < |rest| ==> m <= rest[k]
  {
    forall k | 0 <= k < |rest|
      ensures m <= rest[k]
    {
      assert rest[k] in rest;
    }
  }

  /** `list.sort()`: the ascending arrangement of the same values. */
  function Sort(s: seq<real>): (r: seq<real>)
    ensures Sorted(r) && multiset(r) == multiset(s) && |r| == |s|
  {
    if s == [] then []
    else
      assert s == [s[0]] + s[1..];
      Insert(s[0], Sort(s[1..]))
  }

  /** The element at index len // 2 of the sorted values: the median for an
      odd count, the upper of the two middle values for an even count. */
  function UpperMedian(valid: seq<real>): (m: Option<real>)
    ensures m.None? <==> valid == []
  {
    if valid == [] then None else Some(Sort(valid)[|valid| / 2])
  }

  /** What `_extract_labour_rate` returns, or the error it raises. */
  function ExtractedRate(results: seq<RawResult>, scan: string -> seq<RateMatch>): Result<Option<real>, ContentError> {
    match Candidates(results, scan)
    case Err(e) => Err(e)
    case Ok(rates) => Ok(UpperMedian(PlausibleRates(rates)))
  }

  /** `_extract_labour_rate`: collect every candidate, keep the plausible
      ones, sort them and take the upper median. */
  method ExtractLabourRate(results: seq<RawResult>, scan: string -> seq<RateMatch>)
    returns (rate: Result<Option<real>, ContentError>)
    ensures rate == ExtractedRate(results, scan)
  {
    var rates: seq<real> := [];
    for i := 0 to |results|
      invariant Candidates(results[..i], scan) == Ok(rates)
    {
      assert results[..i + 1][..i] == results[..i];
      var content := Content(results[i]);
      if content.Err? {
        assert results[i].meta.fullContent == Null;
        assert Candidates(results, scan).Err?;
        assert Candidates(results, scan).error == FullContentIsNone;
        return Err(FullContentIsNone);
      }
      var matches := scan(content.value);
      var before := rates;
      for j := 0 to |matches|
        invariant rates == before + MatchRates(matches[..j])
      {
        assert matches[..j + 1][..j] == matches[..j];
        rates := rates + [MatchRate(matches[j])];
      }
      assert matches[..|matches|] == matches;
    }
    assert results[..|results|] == results;
    var valid := PlausibleRates(rates);
    if valid == [] {
      return Ok(None);
    }
    var sorted := Sort(valid);
    return Ok(Some(sorted[|valid| / 2]));
  }

  // ---------------------------------------------------------------------------
  // `search_labour_rates`

  /** `address or region`: the location the cache key and the query use. */
  function Location(region: string, address: Option<string>): (loc: string)
    ensures address.Some? && address.value != "" ==> loc == address.value
    ensures address.None? || address.value == "" ==> loc == region
  {
    if address.Some? && address.value != "" then address.value else region
  }

  function LabourQuery(jobType: string, location: string): string {
    "hourly labour rate for " + jobType + " in " + location + " cost per hour tradesperson price"
  }

  /** The rate a search detects: `None` when the search or the extraction
      raises (both are caught) or when no plausible rate is found. */
  function DetectedRate(response: Option<seq<SearchHit>>, scan: string -> seq<RateMatch>): Option<real> {
    match response
    case None => None
    case Some(hits) =>
      match ExtractedRate(TransformAll(hits), scan)
      case Ok(Some(v)) => if v != 0.0 then Some(v) else None
      case _ => None
  }

  /** `search_labour_rates`: a fresh cached rate for (address or region, job
      type) is returned without searching; otherwise the search runs and a
      detected rate is stored, stamped `storedAt`, and returned. */
  method SearchLabourRates(cache: LabourRateCache, region: string, jobType: string, address: Option<string>,
                           now: real, storedAt: real, search: string -> Option<seq<SearchHit>>,
                           scan: string -> seq<RateMatch>)
    returns (rate: Option<real>)
    modifies cache
    ensures var location := Location(region, address);
      var key := MakeKey(location, jobType);
      var cached := Lookup(old(cache.entries), cache.ttl, key, now);
      && (cached.Some? ==> rate == cached && cache.entries == old(cache.entries))
      && (cached.None? ==>
            && rate == DetectedRate(search(LabourQuery(jobType, location)), scan)
            && cache.entries == if rate.Some? then (old(cache.entries) - {key})[key := CacheEntry(rate.value, storedAt)]
                                else old(cache.entries) - {key})
  {
    var location := Location(region, address);
    var cached := cache.Get(location, jobType, now);
    if cached.Some? {
      return cached;
    }
    var response := search(LabourQuery(jobType, location));
    if response.None? {
      return None;
    }
    var results := TransformResults(response.value);
    var extracted := ExtractLabourRate(results, scan);
    if extracted.Err? || extracted.value.None? || extracted.value.value == 0.0 {
      return None;
    }
    rate := extracted.value;
    cache.Set(location, jobType, rate.value, storedAt);
  }

  // ---------------------------------------------------------------------------
  // Properties

  /** A detected rate is one of the plausible candidates: it lies in
      [15, 200], and as many plausible candidates sort before it as the
      upper-median position says. */
  lemma ExtractedRateIsPlausibleCandidate(results: seq<RawResult>, scan: string -> seq<RateMatch>)
    requires ExtractedRate(results, scan).Ok? && ExtractedRate(results, scan).value.Some?
    ensures var rates := Candidates(results, scan).value;
      var v := ExtractedRate(results, scan).value.value;
      && v in rates && Plausible(v)
      && var sorted := Sort(PlausibleRates(rates));
        v == sorted[|sorted| / 2]
        && (forall i :: 0 <= i < |sorted| / 2 ==> sorted[i] <= v)
        && (forall i :: |sorted| / 2 < i < |sorted| ==> v <= sorted[i])
  {
    var rates := Candidates(results, scan).value;
    var valid := PlausibleRates(rates);
    var sorted := Sort(valid);
    var v := sorted[|valid| / 2];
    assert |sorted| == |valid| by {
      assert |multiset(sorted)| == |multiset(valid)|;
    }
    assert v in multiset(valid);
  }

  /** No rate is found exactly when no candidate is plausible. */
  lemma NoRateIffNothingPlausible(results: seq<RawResult>, scan: string -> seq<RateMatch>)
    requires Candidates(results, scan).Ok?
    ensures ExtractedRate(results, scan) == Ok(None)
        <==> forall x :: x in Candidates(results, scan).value ==> !Plausible(x)
  {
    var valid := PlausibleRates(Candidates(results, scan).value);
    if valid != [] {
      assert valid[0] in valid;
    }
  }

  /** A rate the search detects is always in [15, 200], so it is always
      stored: a detected rate of zero cannot occur. */
  lemma DetectedRateIsPlausible(response: Option<seq<SearchHit>>, scan: string -> seq<RateMatch>)
    requires DetectedRate(response, scan).Some?
    ensures Plausible(DetectedRate(response, scan).value)
  {
    ExtractedRateIsPlausibleCandidate(TransformAll(response.value), scan);
  }

  /** Worked example: of two plausible candidates the upper one is taken. */
  lemma UpperOfTwoRates(xs: seq<real>)
    requires xs == [60.0, 40.0]
    ensures UpperMedian(PlausibleRates(xs)) == Some(60.0)
  {
    assert PlausibleRates(xs[1..]) == xs[1..];
    assert PlausibleRates(xs) == xs;
    assert Sort(xs[1..]) == [40.0];
    assert Insert(60.0, [40.0][1..]) == [60.0];
    assert Sort(xs) == Insert(60.0, [40.0]) == [40.0, 60.0];
  }

  /** Worked example: implausible candidates are ignored. */
  lemma ImplausibleRatesIgnored(xs: seq<real>)
    requires xs == [10.0, 50.0, 250.0]
    ensures UpperMedian(PlausibleRates(xs)) == Some(50.0)
  {
    assert PlausibleRates(xs[2..]) == [];
    assert PlausibleRates(xs[1..]) == [50.0] + PlausibleRates(xs[2..]);
    assert PlausibleRates(xs) == [50.0];
    assert Sort([50.0]) == [50.0];
  }
}
