/** Regional labour-rate defaults keyed by UK postcode area, and the lookup
    that finds the first postcode-shaped word in an address and region. */
module RegionalRates {
  import opened Common

  /** Typical hourly rates (GBP) for the London postcode areas. */
  const LondonRates: map<string, int> := map[
    "SW" := 75, "W" := 80, "NW" := 70, "N" := 65,
    "E" := 60, "SE" := 65, "EC" := 85, "WC" := 85
  ]

  /** Approximate hourly rates (GBP) for other UK postcode areas, with the default. */
  const UkRegionalRates: map<string, int> := map[
    "GU" := 65, "RH" := 65, "TN" := 60, "BR" := 65,
    "AL" := 65, "HP" := 65, "SL" := 70, "WD" := 65,
    "M" := 60, "B" := 55, "LS" := 55, "BS" := 60, "EH" := 60, "G" := 55,
    "DEFAULT" := 65
  ]

  /** The rate used when "LONDON" appears but no known area was found. */
  const LondonAverageRate: int := 70

  // ---------------------------------------------------------------------------
  // The postcode pattern `\b([A-Z]{1,2}\d{1,2}[A-Z]?)\b`

  /** A regular-expression word character (ASCII part). */
  predicate IsWordChar(c: char) {
    IsAsciiUpper(c) || IsAsciiLower(c) || IsDigit(c) || c == '_'
  }

  predicate AllUpper(w: string) {
    forall i :: 0 <= i < |w| ==> IsAsciiUpper(w[i])
  }

  predicate AllDigits(w: string) {
    forall i :: 0 <= i < |w| ==> IsDigit(w[i])
  }

  /** `w` is `a` capitals, then `d` digits, then at most one capital. */
  predicate PostcodeSplit(w: string, a: nat, d: nat) {
    a + d <= |w| <= a + d + 1
    && AllUpper(w[..a]) && AllDigits(w[a..a + d]) && AllUpper(w[a + d..])
  }

  /** `[A-Z]{1,2}\d{1,2}[A-Z]?` matches the whole of `w`. */
  predicate IsPostcode(w: string) {
    PostcodeSplit(w, 1, 1) || PostcodeSplit(w, 1, 2) || PostcodeSplit(w, 2, 1) || PostcodeSplit(w, 2, 2)
  }

  /** `s[i..j]` is a whole word: word characters only, with a word boundary
      (`\b`) on either side. */
  predicate WordAt(s: string, i: int, j: int) {
    0 <= i < j <= |s|
    && (forall k :: i <= k < j ==> IsWordChar(s[k]))
    && (i == 0 || !IsWordChar(s[i - 1]))
    && (j == |s| || !IsWordChar(s[j]))
  }

  /** The end of the run of word characters starting at `k`. */
  function WordEnd(s: string, k: nat): (j: nat)
    requires k <= |s|
    ensures k <= j <= |s|
    ensures forall m :: k <= m < j ==> IsWordChar(s[m])
    ensures j == |s| || !IsWordChar(s[j])
    decreases |s| - k
  {
    if k == |s| || !IsWordChar(s[k]) then k else WordEnd(s, k + 1)
  }

  /** Position `k` is not inside a word. */
  predicate AtBoundary(s: string, k: nat) {
    k == 0 || k >= |s| || !IsWordChar(s[k - 1]) || !IsWordChar(s[k])
  }

  /** The scan `re.findall` performs, stopping at its first match, from `k`. */
  function ScanFrom(s: string, k: nat): Option<(nat, nat)>
    requires k <= |s|
    decreases |s| - k
  {
    if k == |s| then None
    else if !IsWordChar(s[k]) then ScanFrom(s, k + 1)
    else
      var j := WordEnd(s, k);
      if IsPostcode(s[k..j]) then Some((k, j)) else ScanFrom(s, j)
  }

  /** Every word starts at a boundary, so the only word starting at a word
      character found at a boundary is the maximal run from there. */
  lemma WordAtUnique(s: string, k: nat, i: int, j: int)
    requires k < |s| && AtBoundary(s, k) && IsWordChar(s[k])
    requires WordAt(s, i, j) && k <= i < WordEnd(s, k)
    ensures i == k && j == WordEnd(s, k)
  {
  }

  /** The scan finds the leftmost whole word at or after `k` that is
      postcode-shaped, and finds nothing exactly when there is none. */
  lemma {:induction false} ScanFromFindsFirst(s: string, k: nat)
    requires k <= |s| && AtBoundary(s, k)
    ensures var r := ScanFrom(s, k);
      && (r.Some? ==>
            && k <= r.value.0 && WordAt(s, r.value.0, r.value.1) && IsPostcode(s[r.value.0..r.value.1])
            && forall i, j :: k <= i && WordAt(s, i, j) && IsPostcode(s[i..j]) ==> r.value.0 <= i)
      && (r.None? ==> forall i, j :: k <= i && WordAt(s, i, j) ==> !IsPostcode(s[i..j]))
    decreases |s| - k
  {
    if k == |s| {
    } else if !IsWordChar(s[k]) {
      ScanFromFindsFirst(s, k + 1);
    } else {
      var e := WordEnd(s, k);
      forall i, j | k <= i < e && WordAt(s, i, j)
        ensures i == k && j == e
      {
        WordAtUnique(s, k, i, j);
      }
      if !IsPostcode(s[k..e]) {
        ScanFromFindsFirst(s, e);
      }
    }
  }

  /** The first element of `re.findall(pattern, s)`, if any. */
  function FirstPostcode(s: string): (r: Option<string>)
    ensures r.Some? ==> IsPostcode(r.value)
    ensures r.Some? ==> exists i, j :: && WordAt(s, i, j) && r.value == s[i..j]
                                      && forall i', j' :: WordAt(s, i', j') && IsPostcode(s[i'..j']) ==> i <= i'
    ensures r.None? ==> forall i, j :: WordAt(s, i, j) ==> !IsPostcode(s[i..j])
  {
    ScanFromFindsFirst(s, 0);
    match ScanFrom(s, 0)
    case Some((i, j)) => Some(s[i..j])
    case None => None
  }

  /** `re.match(r'([A-Z]+)', code).group(1)`: the leading capitals. */
  function LeadingCapitals(w: string): (r: string)
    ensures r <= w && AllUpper(r)
    ensures |r| == |w| || !IsAsciiUpper(w[|r|])
  {
    if w != [] && IsAsciiUpper(w[0]) then [w[0]] + LeadingCapitals(w[1..]) else []
  }

  /** The area of a postcode is its one or two leading letters, so it is never
      the "DEFAULT" key. */
  lemma PostcodeAreaShape(w: string)
    requires IsPostcode(w)
    ensures 1 <= |LeadingCapitals(w)| <= 2
    ensures LeadingCapitals(w) != "DEFAULT"
  {
    if PostcodeSplit(w, 1, 1) || PostcodeSplit(w, 1, 2) {
      assert IsDigit(w[1]);
    } else {
      assert IsDigit(w[2]);
    }
  }

  /** `get_regional_labour_rate`: the lookup runs on the upper-cased
      address and region joined by a space. */
  function RegionalLabourRate(address: string, region: string): (rate: int)
    ensures 55 <= rate <= 85
  {
    RateForText(Upper(address + " " + region))
  }

  /** The lookup on the upper-cased search text: the area of the first
      postcode-shaped word, London areas first; then a London mention; then
      the default. */
  function RateForText(text: string): (rate: int)
    ensures 55 <= rate <= 85
  {
    var area := match FirstPostcode(text)
      case Some(code) => Some(LeadingCapitals(code))
      case None => None;
    if area.Some? && area.value in LondonRates then LondonRates[area.value]
    else if area.Some? && area.value in UkRegionalRates then UkRegionalRates[area.value]
    else if Contains(text, "LONDON") then LondonAverageRate
    else UkRegionalRates["DEFAULT"]
  }

  // ---------------------------------------------------------------------------
  // Properties

  /** The lookup ignores letter case: lower- or upper-casing the inputs
      changes nothing. */
  lemma RateIgnoresCase(address: string, region: string)
    ensures RegionalLabourRate(Lower(address), Lower(region)) == RegionalLabourRate(address, region)
    ensures RegionalLabourRate(Upper(address), Upper(region)) == RegionalLabourRate(address, region)
  {
    SearchTextIgnoresCase(address, region);
  }

  lemma SearchTextIgnoresCase(address: string, region: string)
    ensures Upper(Lower(address) + " " + Lower(region)) == Upper(address + " " + region)
    ensures Upper(Upper(address) + " " + Upper(region)) == Upper(address + " " + region)
  {
    var sp := " ";
    UpperConcat(address + sp, region);
    UpperConcat(address, sp);
    UpperConcat(Lower(address) + sp, Lower(region));
    UpperConcat(Lower(address), sp);
    UpperConcat(Upper(address) + sp, Upper(region));
    UpperConcat(Upper(address), sp);
    UpperOfLower(address);
    UpperOfLower(region);
    UpperIdempotent(address);
    UpperIdempotent(region);
  }

  /** Without a postcode-shaped word and without "London", the default rate
      applies; with "London" but no recognised area, the London average. */
  lemma FallbackRates(address: string, region: string)
    requires var text := Upper(address + " " + region);
      forall i, j :: WordAt(text, i, j) ==> !IsPostcode(text[i..j])
    ensures var text := Upper(address + " " + region);
      RegionalLabourRate(address, region) == if Contains(text, "LONDON") then 70 else 65
  {
    ScanFromFindsFirst(Upper(address + " " + region), 0);
  }

  /** A recognised postcode area decides the rate whatever the region says. */
  lemma AreaDecides(address: string, region: string, code: string)
    requires FirstPostcode(Upper(address + " " + region)) == Some(code)
    ensures LeadingCapitals(code) in LondonRates ==>
      RegionalLabourRate(address, region) == LondonRates[LeadingCapitals(code)]
    ensures LeadingCapitals(code) !in LondonRates && LeadingCapitals(code) in UkRegionalRates ==>
      RegionalLabourRate(address, region) == UkRegionalRates[LeadingCapitals(code)]
    ensures LeadingCapitals(code) !in LondonRates && LeadingCapitals(code) !in UkRegionalRates ==>
      RegionalLabourRate(address, region) == if Contains(Upper(address + " " + region), "LONDON") then 70 else 65
  {
  }

  /** Worked example: a Westminster postcode gives the south-west London rate. */
  lemma WestminsterRate(a: string)
    requires a == "SW1A 2AA LONDON"
    ensures RateForText(a) == 75
  {
    assert WordEnd(a, 4) == 4;
    assert WordEnd(a, 3) == 4;
    assert WordEnd(a, 1) == WordEnd(a, 2) == 4;
    assert WordEnd(a, 0) == 4;
    var w := a[0..4];
    assert w == "SW1A";
    assert PostcodeSplit(w, 2, 1);
    assert ScanFrom(a, 0) == Some((0, 4));
    assert LeadingCapitals(w) == "SW";
  }

  /** Worked example: a Manchester postcode gives the Manchester rate. */
  lemma ManchesterRate(b: string)
    requires b == "M1 1AE UK"
    ensures RateForText(b) == 60
  {
    assert WordEnd(b, 2) == 2;
    assert WordEnd(b, 0) == WordEnd(b, 1) == 2;
    var w := b[0..2];
    assert w == "M1";
    assert PostcodeSplit(w, 1, 1);
    assert ScanFrom(b, 0) == Some((0, 2));
    assert LeadingCapitals(w) == "M";
  }

  /** Worked example: no postcode-shaped word, but London is named. */
  lemma LondonWithoutPostcodeRate(c: string)
    requires c == "FLAT 2 LONDON"
    ensures RateForText(c) == 70
  {
    assert WordEnd(c, 4) == 4;
    assert WordEnd(c, 2) == WordEnd(c, 3) == 4;
    assert WordEnd(c, 0) == WordEnd(c, 1) == 4;
    assert !IsPostcode(c[0..4]) by {
      var w := c[0..4];
      assert !IsDigit(w[1]) && !IsDigit(w[2]);
    }
    assert WordEnd(c, 6) == 6 && WordEnd(c, 5) == 6;
    assert !IsPostcode(c[5..6]);
    assert WordEnd(c, 13) == 13;
    assert WordEnd(c, 11) == WordEnd(c, 12) == 13;
    assert WordEnd(c, 9) == WordEnd(c, 10) == 13;
    assert WordEnd(c, 7) == WordEnd(c, 8) == 13;
    assert !IsPostcode(c[7..13]) by {
      var w := c[7..13];
      assert |w| == 6;
    }
    assert ScanFrom(c, 7) == ScanFrom(c, 13) == None;
    assert ScanFrom(c, 5) == ScanFrom(c, 6) == ScanFrom(c, 7);
    assert ScanFrom(c, 0) == ScanFrom(c, 4) == ScanFrom(c, 5);
    ContainsAt(c, "LONDON", 7);
  }
}
