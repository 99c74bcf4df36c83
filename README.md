# PriceSniper pricing core, in Dafny

PriceSniper turns a tradesperson's site-intake form into a priced bid. The
browser collects the address, the job type and the work description in a
three-step wizard. The backend then works through these stages:

1. It searches the web for property facts and local hourly labour rates. Rates
   go through a small time-to-live cache, and each search is wrapped in
   retry-with-backoff.
2. It condenses the search results into a property context: year built, sale
   history, neighbourhood prices, permits, risk flags and cost bands.
3. It asks a language model for hours and materials, then sanitises the reply.
4. It prices the job. A risk multiplier and the labour and material costs give
   an internal cost. Three margin bands (win-at-all-costs, balanced and
   premium) are derived from it, together with synthetic market statistics.

The page then shows the bands, a risk score, two billing lines and a
proposal text that can be copied. This project models the deterministic part
of that flow and proves what each operation promises:

- both generations of the pricing engine and the material catalogue;
- the postcode-based regional labour rate and the labour-rate cache;
- the result reshaping and rate extraction of the search client, and the
  heuristic context optimiser (both generations);
- the post-processing of the estimator's reply and the retry loop;
- on the frontend: the intake wizard, the index page's derived figures and
  request state, the inspector-role label, and the notification-preference
  hook.

Money is `real`. Python's `round(x, 2)` is `Common.Round2`, which rounds half
to even on the exact value. Text is ASCII for upper- and lower-casing,
trimming and the regular-expression character classes.

Mutable state becomes Dafny classes:

- `RateCache.LabourRateCache` (a map of entries);
- `InspectionForm.IntakeForm` (the current step and the form data);
- `IndexPage.IndexPage` (loading, scan index, bid and selection);
- `NotificationPreferences.PreferencesHook` (preferences and browser storage).

Loops become methods with invariants, proved against specification functions:

- `Retry.RetryWithBackoff`;
- `ValyuClient.TransformResults` and `ValyuClient.ExtractLabourRate`;
- `ContextOptimizer.HeuristicOptimize` and `ContextOptimizer.FormatRawResults`;
- `LegacyContextOptimizer.Optimize`.

Everything the code takes from outside is passed in as a parameter:

- the wall clock (`now`, `storedAt`, `currentYear`);
- the search service (`search`) and the regular-expression matches of the rate
  patterns (`scan`);
- `json.loads` / `JSON.parse` (`parse`), `JSON.stringify` (`stringify`) and
  `toLocaleString` (`format`);
- the wrapped call of the retry loop (`call`, from attempt number to outcome).

Source paths below are relative to the repository root. `backend/` is the
current service; `app/` and `tests/` are the first-generation service.

## Model

| member | source | states |
|---|---|---|
| Common.Round2 | backend/app/services/pricing_engine.py:81-92 | `round(x, 2)` gives a whole number of cents within half a cent of `x`; the cent count is the floor or the floor + 1 of 100·x, and an exact half-cent tie goes to the even count |
| Common.Round2Monotonic | backend/app/services/pricing_engine.py:83-85 | rounding to cents never reverses the order of two amounts, so ordered bands stay ordered after rounding |
| Common.Round2WholeCents | backend/tests/test_pricing.py:25-28 | an amount that is already whole cents is returned unchanged |
| Common.TrimEmptyIffBlank | frontend/src/components/InspectionForm.tsx:43 | `!s.trim()` holds exactly when the text has no non-whitespace character |
| Materials.GetMaterialCost | backend/app/services/materials.py:18-29 | an unlisted name costs 0.0; a listed one costs the range midpoint times the quantity, to within half a cent |
| Materials.UnitCostStrictlyInside | backend/app/services/materials.py:5-16 | every catalogue range has low < high, so the midpoint lies strictly between them |
| Materials.CostNonNegative | backend/app/services/materials.py:27-29 | a non-negative quantity never costs a negative amount; quantity 0 costs 0 |
| Materials.LookupIsCaseSensitive | backend/app/services/materials.py:24-26 | the key match is exact: "Roof tiles" costs 0.0 while "roof_tiles" × 25 costs 250.0 |
| PricingEngine.RiskMultiplier | backend/app/services/pricing_engine.py:14-22 | the multiplier lies in [1.0, 1.45], and is 1.0 exactly when the old-wiring flag is absent and urgency is neither "high" nor "emergency" |
| PricingEngine.RiskMultiplierDecomposes | backend/app/services/pricing_engine.py:14-22 | the multiplier is 1.0 + 0.15 for the exact flag + 0.10 for "high" or 0.30 for "emergency"; any other urgency equals "medium" |
| PricingEngine.PriceWithMargin | backend/app/services/pricing_engine.py:56-57 | a price exists exactly when margin ≠ 1, and then price × (1 − margin) = cost |
| PricingEngine.CalculatePricing | backend/app/services/pricing_engine.py:7-93 | succeeds exactly when neither desired nor desired + 0.15 equals 1; min_recommended = win band; breakdowns are passed through; the internal cost is rounded, and the win, balanced and premium bands are the rounded cost/(1−0.15), cost/(1−desired) and cost/(1−(desired+0.15)); market stats come from the unrounded balanced price; reported materials = Σ stated totals or the headline figure; reported labour = the rounded labour cost at the band-adjusted rate |
| PricingEngine.TaskLabourSumScales | backend/app/services/pricing_engine.py:37-38 | Σ hours × rate × workers scales linearly with the rate |
| PricingEngine.HighLabourBandPremium | backend/app/services/pricing_engine.py:30-40 | the "high" labour band raises the labour cost by exactly 20%, from tasks or from headline hours; other bands leave it unchanged |
| PricingEngine.MaterialBandHasNoEffect | backend/app/services/pricing_engine.py:24-44 | changing the context's material cost band never changes the quote, because the scaled value is overwritten on both branches |
| PricingEngine.TaskLabourSumNonNegative | backend/app/services/pricing_engine.py:38 | non-negative hours, workers and rate give a non-negative task labour sum |
| PricingEngine.CatalogueMaterialsSumNonNegative | backend/app/services/pricing_engine.py:42 | non-negative quantities give a non-negative catalogue-priced materials sum |
| PricingEngine.InternalCostNonNegative | backend/app/services/pricing_engine.py:34-47 | non-negative inputs give a non-negative internal cost |
| PricingEngine.MarginPriceMonotonic | backend/app/services/pricing_engine.py:56-64 | a larger margin below 1 never lowers cost/(1−margin) |
| PricingEngine.BandsOrdered | backend/app/services/pricing_engine.py:59-64 | for non-negative inputs and 0.15 ≤ desired < 0.85 the quote succeeds and win ≤ balanced ≤ premium |
| PricingEngine.MarketBracketsBalanced | backend/app/services/pricing_engine.py:70-78 | for balanced > 0: balanced < mean, std = 0.12·mean, lower < mean < upper, and the rounded bounds still bracket the rounded mean |
| PricingEngine.ReferenceQuotes | backend/tests/test_pricing.py:25-91 | 16 h at £50 + £500 costs 1300 and is quoted 1625 at 20%; with the flag it costs 1495; 10 h with the flag costs 1150 |
| PricingEngine.ReportedMaterialsDifferFromPriced | backend/app/services/pricing_engine.py:42-48 | with a breakdown, the reported materials total is the items' stated totals (250) while the internal cost prices them from the catalogue (0, giving 800) |
| LegacyPricingEngine.JobBaseline | app/services/pricing_engine.py:11-25 | the job-type table: roof_repair 16 h / £500, bathroom_remodel 80 h / £3000, electrical_rewire 40 h / £1500, general_renovation 120 h / £5000, any other type 20 h / £1000 |
| LegacyPricingEngine.LegacyRiskMultiplier | app/services/pricing_engine.py:28-30 | 1.15 exactly when the old-wiring flag is present, 1.0 exactly when it is absent |
| LegacyPricingEngine.ScaledMaterials | app/services/pricing_engine.py:32-35 | "high" multiplies materials by 1.3, "low" by 0.9, and any other band leaves them unchanged |
| LegacyPricingEngine.CalculatePricing | app/services/pricing_engine.py:3-64 | succeeds exactly when neither desired nor desired + 0.15 equals 1; min_recommended = win band; the internal cost is the rounded (hours × rate + scaled materials) × risk, and the win, balanced and premium bands are its rounded prices at margins 0.15, desired and desired + 0.15 |
| LegacyPricingEngine.LabourBandHasNoEffect | app/services/pricing_engine.py:3-64 | the labour rate band is never consulted |
| LegacyPricingEngine.RiskFlagAddsFifteenPercent | app/services/pricing_engine.py:28-39 | adding the old-wiring flag multiplies the internal cost by exactly 1.15 |
| LegacyPricingEngine.ReferenceQuotes | tests/test_pricing.py:23-44 | a roof repair at £50/h costs 1300 and is quoted 1625 at 20%; with the flag it costs 1495 |
| RegionalRates.ScanFromFindsFirst | backend/app/services/regional_rates.py:58-59 | the scan finds the leftmost whole word shaped `[A-Z]{1,2}\d{1,2}[A-Z]?`, and finds none exactly when no such word exists |
| RegionalRates.FirstPostcode | backend/app/services/regional_rates.py:58-61 | a found match is a postcode-shaped whole word, and no postcode-shaped whole word starts before it; no match means no whole word is postcode-shaped |
| RegionalRates.LeadingCapitals | backend/app/services/regional_rates.py:63 | the area is the maximal prefix of capitals of the match |
| RegionalRates.PostcodeAreaShape | backend/app/services/regional_rates.py:58-63 | a postcode's area has 1 or 2 letters, so it is never the "DEFAULT" key |
| RegionalRates.RegionalLabourRate | backend/app/services/regional_rates.py:41-78 | the rate always lies in [55, 85] |
| RegionalRates.RateForText | backend/app/services/regional_rates.py:61-78 | the rate always lies in [55, 85] |
| RegionalRates.RateIgnoresCase | backend/app/services/regional_rates.py:55 | lower- or upper-casing the address and region never changes the rate |
| RegionalRates.SearchTextIgnoresCase | backend/app/services/regional_rates.py:55 | the upper-cased search text is the same whatever the case of the inputs |
| RegionalRates.FallbackRates | backend/app/services/regional_rates.py:73-78 | with no postcode-shaped word the rate is 70 when "LONDON" occurs, else 65 |
| RegionalRates.AreaDecides | backend/app/services/regional_rates.py:63-78 | a recognised area decides the rate, London table first, then the UK table; an area in neither table falls through to 70 when "LONDON" occurs, else 65 |
| RegionalRates.WestminsterRate | backend/app/services/regional_rates.py:63-67 | "SW1A 2AA LONDON" gives the SW rate 75 |
| RegionalRates.ManchesterRate | backend/app/services/regional_rates.py:63-71 | "M1 1AE UK" gives the Manchester rate 60 |
| RegionalRates.LondonWithoutPostcodeRate | backend/app/services/regional_rates.py:74-75 | "FLAT 2 LONDON" has no postcode-shaped word and gives 70 |
| RateCache.MakeKey | backend/app/services/labour_rate_cache.py:11-13 | the key is lower(region) ":" lower(job type), with the colon right after the region |
| RateCache.Lookup | backend/app/services/labour_rate_cache.py:19-28 | a read hits exactly when the key is present and its age is at most the ttl, and then yields the stored rate |
| RateCache.LabourRateCache.constructor | backend/app/services/labour_rate_cache.py:7-9 | a new cache is empty, with ttl = hours × 3600 s |
| RateCache.LabourRateCache.Get | backend/app/services/labour_rate_cache.py:15-28 | returns the lookup result; a stale entry is deleted and nothing else changes; a missing key changes nothing |
| RateCache.LabourRateCache.Set | backend/app/services/labour_rate_cache.py:30-36 | only the key's entry changes, to the rate stamped with the current time |
| RateCache.LabourRateCache.Clear | backend/app/services/labour_rate_cache.py:38-40 | the cache is empty afterwards |
| RateCache.KeyIgnoresCase | backend/app/services/labour_rate_cache.py:11-13 | upper- or lower-casing region and job type gives the same key |
| RateCache.LookupAfterStore | backend/app/services/labour_rate_cache.py:30-36 | a store followed by a read at the same moment hits the stored rate, and reads of every other key are unchanged |
| RateCache.ExpiryBoundary | backend/app/services/labour_rate_cache.py:23 | an age of exactly the ttl still hits; any later read misses |
| RateCache.StaleStaysStale | backend/app/services/labour_rate_cache.py:23-26 | a miss at one time is a miss at every later time |
| RateCache.NewDefaultCache | backend/app/services/labour_rate_cache.py:43 | the global instance is a fresh, empty cache with a ttl of 86400 s |
| ValyuClient.Transform | backend/app/services/valyu_client.py:101-109 | title and url are copied; the snippet is the first min(300, length) characters of the content, and "" without content; the metadata carries the full content and the url; a title or url that is `None` is stored as a key holding `None` |
| ValyuClient.TransformAll | backend/app/services/valyu_client.py:97-110 | one transformed result per hit, in order |
| ValyuClient.TransformResults | backend/app/services/valyu_client.py:97-110 | the append loop builds exactly the transformed list |
| ValyuClient.MatchRate | backend/app/services/valyu_client.py:131-145 | a single match gives its value; a range gives its midpoint, which lies between low and high |
| ValyuClient.MatchRates | backend/app/services/valyu_client.py:131-145 | one rate per match, in order |
| ValyuClient.Content | backend/app/services/valyu_client.py:127 | the searched text is snippet + " " + full content, or snippet + " " without a full-content key; a `None` full content makes it fail |
| ValyuClient.Candidates | backend/app/services/valyu_client.py:126-145 | the extraction fails exactly when some result has a `None` full content |
| ValyuClient.PlausibleRates | backend/app/services/valyu_client.py:149 | every value in [15, 200] (both bounds included) is kept as often as it occurs, and every other value is dropped |
| ValyuClient.Insert | backend/app/services/valyu_client.py:152 | inserting into a sorted list keeps it sorted and adds exactly the one value |
| ValyuClient.Sort | backend/app/services/valyu_client.py:152 | `sort()` gives a sorted permutation |
| ValyuClient.UpperMedian | backend/app/services/valyu_client.py:150-156 | a rate exists exactly when some value is valid |
| ValyuClient.ExtractLabourRate | backend/app/services/valyu_client.py:112-156 | the nested loops, filter, sort and index len//2 compute exactly the extraction function |
| ValyuClient.ExtractedRateIsPlausibleCandidate | backend/app/services/valyu_client.py:147-154 | a found rate is one of the candidates, lies in [15, 200], and sits at index len//2 of the sorted valid values, with smaller values before it and larger ones after |
| ValyuClient.NoRateIffNothingPlausible | backend/app/services/valyu_client.py:147-156 | no rate is found exactly when no candidate lies in [15, 200] |
| ValyuClient.DetectedRateIsPlausible | backend/app/services/valyu_client.py:68-74 | a detected rate always lies in [15, 200], so the falsy-rate branch never drops a found rate |
| ValyuClient.UpperOfTwoRates | backend/app/services/valyu_client.py:149-154 | [60, 40] gives 60, the upper of the two |
| ValyuClient.ImplausibleRatesIgnored | backend/app/services/valyu_client.py:149-154 | [10, 50, 250] gives 50: the candidates outside [15, 200] are dropped |
| ValyuClient.Location | backend/app/services/valyu_client.py:52-60 | a non-empty address is used, otherwise the region |
| ValyuClient.SearchLabourRates | backend/app/services/valyu_client.py:48-81 | a fresh cached rate is returned and nothing is stored; otherwise the search result is returned, a detected rate is stored under (address or region, job type), and only a stale entry for that key is dropped |
| Numerals.NatToDecimal | backend/app/services/context_optimizer.py:130 | the numeral is non-empty, all digits, with no leading zero |
| Numerals.ParseInt | backend/app/services/context_optimizer.py:154 | `int(s)` only succeeds on text with a non-blank character |
| Numerals.NoDigitNoInt | backend/app/services/context_optimizer.py:154 | `int()` rejects every text without a digit |
| Numerals.BeforeFirstConcat | backend/app/services/context_optimizer.py:154 | `split("-")[0]` of a separator-free text, '-' and anything is that text |
| Numerals.BeforeFirst | backend/app/services/context_optimizer.py:154 | `split("-")[0]` is the longest prefix without '-' |
| Numerals.DigitsValueOfDecimal | backend/app/services/context_optimizer.py:130 | the digits of a written number have that number as their value |
| Numerals.ParseDecimal | backend/app/services/context_optimizer.py:154 | `int` reads back every written natural number |
| Numerals.SaleYearOfIsoDate | backend/app/services/context_optimizer.py:154 | the year prefix of "2015-06-30" is "2015" |
| Numerals.DecimalOf2015 | backend/app/services/context_optimizer.py:154 | 2015 is written "2015", and that parses as 2015 |
| ContextRules.NormalizePermit | backend/app/services/context_optimizer.py:176 | type and year are copied when present and default to "unknown" |
| ContextRules.NormalizePermits | backend/app/services/context_optimizer.py:175-176 | one normalised permit per entry, in order |
| ContextRules.SaleOwnership | backend/app/services/context_optimizer.py:150-159 | with a sale date, a duration exists exactly when the text before the first '-' parses, and it is the current year minus that integer |
| ContextRules.IsoSaleDateOwnership | backend/app/services/context_optimizer.py:150-157 | a sale date written as a year, '-' and anything gives the current year minus that year |
| ContextRules.UndatedSaleNoOwnership | backend/app/services/context_optimizer.py:150-159 | a sale date with no digit before its first '-' leaves the duration unset |
| ContextRules.RiskFlagsFor | backend/app/services/context_optimizer.py:179-180 | the old-wiring flag is raised exactly for a truthy year before 1970, and nothing else is raised |
| ContextRules.MaterialBandFor | backend/app/services/context_optimizer.py:179-181 | the material band is "high" exactly for an old property, "medium" otherwise |
| ContextRules.AppendPermits | backend/app/services/context_optimizer.py:175-176 | the loop appends exactly the normalised permits, and nothing else changes |
| ContextRules.MergeMetadata | backend/app/services/context_optimizer.py:140-176 | every key present overwrites its field; a parsable sale year sets the duration; permits are appended; flags, bands and rate are untouched |
| ContextRules.LastWithStep | backend/app/services/context_optimizer.py:144-171 | one more result with a value replaces the value found so far |
| ContextRules.PermitsOfStep | backend/app/services/context_optimizer.py:173-176 | one more result appends its normalised permits |
| ContextRules.LastOwnershipStep | backend/app/services/context_optimizer.py:150-159 | one more result with a parsable sale year replaces the duration; otherwise it is kept |
| ContextRules.LastWins | backend/app/services/context_optimizer.py:140-171 | a field is set exactly when some result has the key, and then holds the value of a result after which none has it |
| ContextRules.PermitsOfConcat | backend/app/services/context_optimizer.py:173-176 | the permits of two batches are their permits concatenated: nothing is dropped, duplicated or reordered |
| ContextOptimizer.LabourBandFor | backend/app/services/context_optimizer.py:183-193 | "high" exactly when the median or the estimated value is set, non-zero and above 600000 |
| ContextOptimizer.HeuristicOptimize | backend/app/services/context_optimizer.py:133-195 | every scalar field is the last result's value for its key; permits are every result's permits in order; the flag, material band and labour band follow the year and value rules; no rate is set |
| ContextOptimizer.ResultContent | backend/app/services/context_optimizer.py:126-128 | the content is the first min(2000, length) characters of the non-empty full content, else of the snippet |
| ContextOptimizer.ResultBlocks | backend/app/services/context_optimizer.py:123-130 | at most the first 10 results, block k showing result k numbered k + 1; a missing title or url key is written empty, one holding `None` is written "None" |
| ContextOptimizer.FormatRawResults | backend/app/services/context_optimizer.py:120-131 | the loop's text is the blocks joined by newlines |
| ContextOptimizer.OnlyFirstTenFormatted | backend/app/services/context_optimizer.py:123 | results after the tenth never change the blocks |
| ContextOptimizer.BlocksNumberedFromOne | backend/app/services/context_optimizer.py:123-130 | each block starts with "Result n:", whose n reads back as its 1-based position |
| ContextOptimizer.TitleWrittenAsStored | backend/app/services/context_optimizer.py:124-130 | a missing title key is written empty, a title holding `None` is written "None" |
| ContextOptimizer.OldPropertyRaisesRisk | backend/app/services/context_optimizer.py:179-180 | a pre-1970 property's flags give a risk multiplier of at least 1.15; otherwise, at ordinary urgency, 1.0 |
| LegacyContextOptimizer.LabourBandFor | app/services/context_optimizer.py:51-52 | "high" exactly when the median is set, non-zero and above 800000 |
| LegacyContextOptimizer.Optimize | app/services/context_optimizer.py:5-54 | the same last-wins fields and permits, with estimated value and zoning never set, the old-property rules, and the 800000 median rule |
| LegacyContextOptimizer.BackendBandAtLeastAsHigh | app/services/context_optimizer.py:51-52 | every area the first generation rates "high" the backend also does; a 700000 median shows that the converse fails |
| LlmClient.IndexOfFirst | backend/app/services/llm_client.py:180 | the position of the first occurrence, or none when the character is absent |
| LlmClient.IndexOfLast | backend/app/services/llm_client.py:180 | the position of the last occurrence, or none when the character is absent |
| LlmClient.JsonSpanBounds | backend/app/services/llm_client.py:180-182 | the greedy span runs from the first '{' to the last '}'; there is none exactly when no '}' follows a '{' |
| LlmClient.JsonSpan | backend/app/services/llm_client.py:180-185 | a found span starts with '{' and ends with '}' |
| LlmClient.Fallback | backend/app/services/llm_client.py:208-220 | the fallback has empty lists and no multipliers; roof_repair gets 40 h / £4000, bathroom_remodel 80 h / £6000, electrical_rewire 60 h / £3000, general_renovation 100 h / £8000, and any other type the "other" row, 30 h / £3000 |
| LlmClient.Clamp | backend/app/services/llm_client.py:191-197 | a value at or below the limit is kept; above it, it is replaced |
| LlmClient.Validated | backend/app/services/llm_client.py:187-206 | cost ≤ 50000 and hours ≤ 500; lists default to []; multipliers default to 1.0 |
| LlmClient.EstimateJobParameters | backend/app/services/llm_client.py:179-220 | hours ≤ 500 and cost ≤ 50000 on every path; an unreadable reply gives the fallback table, a readable one the validated estimate |
| LlmClient.MockHasNoBrace | backend/app/services/llm_client.py:15 | the mock reply contains no '{' |
| LlmClient.MockReplyUsesFallback | backend/app/services/llm_client.py:180-220 | without an API key, an object-only parser always leads to the fallback table |
| LlmClient.ValidationDefaultsAndBoundaries | backend/app/services/llm_client.py:188-205 | missing keys give 3000, 30, [] and 1.0; the values 50000 and 500 are kept; 50000.01 and 500.5 become 5000 and 40 |
| LlmClient.SpanStripsProse | backend/app/services/llm_client.py:180-182 | "ok {} done" is cut to "{}" |
| Retry.StopAt | backend/app/utils/retry.py:37-45 | the loop ends at the first attempt that returns or raises a non-retried error, or at the last allowed attempt |
| Retry.Settle | backend/app/utils/retry.py:38-45 | the last attempt's value is returned, or its error re-raised |
| Retry.Delays | backend/app/utils/retry.py:34-49 | n sleeps, the k-th of initial × factor^k |
| Retry.RetryWithBackoff | backend/app/utils/retry.py:11-51 | with max_retries ≥ 0: calls = stopping attempt + 1 ≤ max_retries + 1, the result settles that attempt, and the sleeps are the first that-many delays; with max_retries < 0: no call, no sleep, and `raise None` fails |
| Retry.WithRetry | backend/app/utils/retry.py:54-73 | the wrapper passes its arguments unchanged to every attempt and retries every error |
| Retry.FirstSuccessEndsLoop | backend/app/utils/retry.py:38-39 | after i retried failures, a success at attempt i ends the loop there, with its value |
| Retry.ExhaustedRetriesReraiseLast | backend/app/utils/retry.py:43-45 | when every attempt fails with a retried error, all max_retries + 1 attempts are made and the last error is re-raised |
| Retry.SumIsDelayTotal | backend/app/utils/retry.py:34-49 | the sleeps of n retries add up to the running total of the delays, retry by retry |
| Retry.SumOfDelays | backend/app/utils/retry.py:34-49 | the sleeps of n retries add up to initial × (1 + f + … + fⁿ⁻¹) |
| Retry.GeometricSumClosed | backend/app/utils/retry.py:47-48 | (1 + f + … + fⁿ⁻¹) × (f − 1) = fⁿ − 1, the closed form of the growing delays |
| Retry.TotalDelay | backend/app/utils/retry.py:34-49 | the total sleep over n retries × (f − 1) = initial × (fⁿ − 1), the geometric sum (for every f, the division-free form) |
| Retry.DefaultSchedule | backend/app/utils/retry.py:13-15 | with the defaults the waits are 1, 2 and 4 s, 7 s in all |
| InspectionForm.Set | frontend/src/components/InspectionForm.tsx:58-60 | only the named field changes |
| InspectionForm.CheckStep | frontend/src/components/InspectionForm.tsx:42-56 | a step-0 address error exactly when the address is blank; a job-type error exactly when the address has text and no job type is chosen; a step-1 error exactly when the description is blank; otherwise the step passes |
| InspectionForm.Payload | frontend/src/components/InspectionForm.tsx:74-80 | address, job type, description and urgency are sent; an empty scope is sent as undefined; constraints are never sent |
| InspectionForm.Submit | frontend/src/components/InspectionForm.tsx:71-82 | the payload is sent exactly when the current step's own fields are valid |
| InspectionForm.SubmitChecked | frontend/src/components/InspectionForm.tsx:42-82 | the payload is sent exactly when the fields of steps 0 and 1 are valid |
| InspectionForm.IntakeForm.constructor | frontend/src/components/InspectionForm.tsx:30-38 | step 0, empty fields, urgency "medium" |
| InspectionForm.IntakeForm.HandleFieldChange | frontend/src/components/InspectionForm.tsx:58-60 | only the named field changes; an edit to a field shown at the current step keeps the steps behind valid |
| InspectionForm.IntakeForm.NextStep | frontend/src/components/InspectionForm.tsx:62-65 | advances, capped at step 2, exactly when the step validates, else stays; the step stays in [0, 2] and the steps behind stay valid |
| InspectionForm.IntakeForm.PrevStep | frontend/src/components/InspectionForm.tsx:67-69 | goes back, floored at 0; the data and the validity of earlier steps are kept |
| InspectionForm.IntakeForm.HandleSubmit | frontend/src/components/InspectionForm.tsx:71-82 | the handler sends what `Submit` sends for the current step |
| InspectionForm.IntakeForm.HandleSubmitChecked | frontend/src/components/InspectionForm.tsx:71-82 | the corrected handler sends what `SubmitChecked` sends |
| InspectionForm.FinalStepSubmitIsChecked | frontend/src/components/InspectionForm.tsx:253-270 | at the last step, where the submit button lives and the earlier steps have passed, the handler as written sends exactly what whole-form validation sends |
| InspectionForm.EarlySubmitSkipsDescription | frontend/src/components/InspectionForm.tsx:71-82 | a submit event at step 0 with an address and job type sends an empty description, which whole-form validation refuses |
| InspectionForm.CheckedSubmissionComplete | frontend/src/components/InspectionForm.tsx:42-56 | a checked submission always carries an address, a job type and a description |
| InspectionForm.ProgressLabels | frontend/src/components/InspectionForm.tsx:101 | the progress reads 33%, 67% and 100% |
| IndexPage.MapJobTypeToBackend | frontend/src/pages/Index.tsx:82-91 | the result is one of the five backend types; it is the input exactly when the input is one of them, and "other" otherwise |
| IndexPage.OrElse | frontend/src/pages/Index.tsx:117-126 | a present non-zero number is kept; absent or 0 falls back |
| IndexPage.SelectedPrice | frontend/src/pages/Index.tsx:93-96 | 0 without a bid, else the chosen band's price |
| IndexPage.RiskScore | frontend/src/pages/Index.tsx:132-140 | low scores 42, medium 57, high 72 and emergency 86 |
| IndexPage.BillingItems | frontend/src/pages/Index.tsx:113-128 | none without a bid; otherwise a labour line (falling back to 0.4 × internal and £65/h) and a materials line (falling back to 0.6 × internal, with the band note) |
| IndexPage.ProposalText | frontend/src/pages/Index.tsx:101 | the draft, followed by "\n\nQuoted Price: £" and the formatted price |
| IndexPage.IndexPage.constructor | frontend/src/pages/Index.tsx:19-29 | no results, not loading, scan index 0, balanced selected, urgency "medium" |
| IndexPage.IndexPage.Tick | frontend/src/pages/Index.tsx:38-47 | while loading, the index advances modulo 4; otherwise nothing changes; the index stays in [0, 3] |
| IndexPage.IndexPage.BeginSubmit | frontend/src/pages/Index.tsx:49-68 | remembers address, job type and urgency (default "medium"); starts loading; the request carries the mapped job type, region "London, UK" and margin 0.2 |
| IndexPage.IndexPage.FinishSubmit | frontend/src/pages/Index.tsx:69-79 | a response is shown; a failure keeps the old bid; loading stops and the scan index resets to 0 |
| IndexPage.IndexPage.SelectPricing | frontend/src/pages/Index.tsx:23 | only the selected option changes |
| IndexPage.IndexPage.CopyProposal | frontend/src/pages/Index.tsx:98-101 | no text without a bid, else the proposal with the selected price |
| IndexPage.MapJobTypeIdempotent | frontend/src/pages/Index.tsx:82-91 | mapping twice maps once |
| IndexPage.RiskScoreIncreasing | frontend/src/pages/Index.tsx:132-140 | the score rises strictly with urgency, in both directions |
| IndexPage.FallbackLinesSumToInternal | frontend/src/pages/Index.tsx:119-126 | when both totals fall back, the two lines add up to the internal cost |
| IndexPage.SelectedPriceFollowsOption | frontend/src/pages/Index.tsx:93-96 | with ordered bands the shown price follows the option's order |
| LocationHistory.Split | frontend/src/components/LocationHistory.tsx:69 | splitting always gives at least one piece |
| LocationHistory.Capitalize | frontend/src/components/LocationHistory.tsx:69 | only the first character is upper-cased; the length and the rest are kept |
| LocationHistory.SplitJoin | frontend/src/components/LocationHistory.tsx:69 | there is one piece more than there are hyphens, and rejoining with '-' gives the job type back |
| LocationHistory.RoleLabelIsRelabel | frontend/src/components/LocationHistory.tsx:69 | the split/capitalise/join label equals the character-by-character definition |
| LocationHistory.RoleLabelPointwise | frontend/src/components/LocationHistory.tsx:69 | the label keeps the length; each '-' becomes a space, each piece's first character is upper-cased, and every other character is kept |
| LocationHistory.SinglePieceLabel | frontend/src/components/LocationHistory.tsx:69 | a job type without '-' only has its first character upper-cased |
| LocationHistory.UnderscoreJobTypeLabel | frontend/src/components/LocationHistory.tsx:69 | "roof_repair" is labelled "Roof_repair" |
| NotificationPreferences.Set | frontend/src/hooks/use-notification-preferences.ts:35 | only the given key changes |
| NotificationPreferences.Overlay | frontend/src/hooks/use-notification-preferences.ts:22 | stored keys win; missing keys keep the base value |
| NotificationPreferences.InitialPreferences | frontend/src/hooks/use-notification-preferences.ts:18-28 | an absent, empty or unparsable stored value gives the defaults (all true); otherwise each key is its stored value or true |
| NotificationPreferences.PreferencesHook.constructor | frontend/src/hooks/use-notification-preferences.ts:18-32 | the preferences start from storage, and the mount effect writes them back |
| NotificationPreferences.PreferencesHook.UpdatePreference | frontend/src/hooks/use-notification-preferences.ts:30-36 | only the given key changes, and storage then holds the serialised preferences |
| NotificationPreferences.PreferencesExtensional | frontend/src/hooks/use-notification-preferences.ts:3-7 | two preference records that agree on every key are equal |
| NotificationPreferences.ReloadRestores | frontend/src/hooks/use-notification-preferences.ts:18-32 | when parsing inverts serialising, a reload restores the written preferences |
| NotificationPreferences.UpdateSameValue | frontend/src/hooks/use-notification-preferences.ts:34-36 | setting a key to its current value changes nothing |

## Left out

- The language-model and web-search calls are left out: `_generate` and the
  other `generate_*` methods, the language-model branch of the context
  optimiser (backend/app/services/context_optimizer.py:25-118), and the search
  SDK calls. Their results enter the model as parameters: `search`, `parse`,
  and the raw results.
- The client constructors, `search_property_details` and `search_market_rates`
  are left out. They only reshape what the search returns, which
  `ValyuClient.TransformResults` covers.
- Printing, logging, toasts, browser notifications and the clipboard write are
  left out. `IndexPage.IndexPage.CopyProposal` returns the text instead of
  copying it, and the `copied` flag is not modelled.
- The asynchronous pipeline, routers, configuration and page markup only
  sequence the modelled calls or render them. The market comparison chart is
  floating-point numerics (a Gaussian density and a series for erf).
- Floating point is not modelled: amounts are exact reals. Round-half-even
  on the exact value agrees with Python's `round(x, 2)` except where binary
  representation error moves a value across a half cent.
- Upper- and lower-casing, whitespace and the regex classes `\w` and `\d` are
  ASCII only.
- The rate patterns' regular expressions are not modelled. `scan` stands for
  their matches, listed in pattern order. `json.loads`, `JSON.parse` and
  `JSON.stringify` are parameters, and so is `toLocaleString` (`format`).
- Metadata values are typed: a year is an int, prices are reals, dates are
  text. Apart from `full_content` and `url`, the model does not cover a
  metadata key holding `None` or a value of another type. The same goes for a truthy non-list `permits` (treated as
  absent), which is what the code skips, and for a permit entry that is not a
  dictionary.
- `Numerals.ParseInt` strips the whitespace set of `Common.IsWhitespace`
  (space, tab, line feed, carriage return, vertical tab, form feed). Python's
  `int()` also strips \x1c–\x1f, \x85 and other Unicode whitespace, and
  accepts non-ASCII digits; the model rejects text with those characters.
- `ValyuClient.SearchLabourRates`: the caught exception of a failed search is
  `None` from `search`. The `with_retry` decorator on it can never retry,
  because the body catches every exception; the retry loop is modelled on its
  own in `Retry`.
- `RateCache.LabourRateCache.Get` takes the clock as `now`. A negative age
  (a clock that moved back) is allowed and hits, as in the code.
- `IndexPage.MapJobTypeToBackend` does not model JavaScript lookups of
  inherited object keys such as "constructor". For those, `typeMap[jobType]`
  yields a function, not "other".
- `IndexPage.IndexPage.BeginSubmit` and `IndexPage.IndexPage.FinishSubmit`
  split `handleSubmit` at its `await`. The request itself is the
  `BidRequest` value the first returns. Only the fields the page reads are
  kept from the response.
- `IndexPage.BillingItems`: the labour line's issue text is modelled as its
  rate (`RatePerHour`), not as the formatted string.
- `NotificationPreferences.InitialPreferences`: stored keys other than the
  three preferences, and non-boolean stored values, are not modelled. The
  spread would copy them into the state.
- `LocationHistory.RoleLabelPointwise`: JavaScript's full Unicode
  `toUpperCase` (which can change the length) is reduced to ASCII.
- `InspectionForm.IntakeForm.HandleFieldChange`: the choice of which inputs
  are rendered at a step is stated as a predicate (`RenderedAt`); the markup
  itself is not modelled.
- The backend's `PricingOutput` schema (backend/app/models/schemas.py) has no
  `market_stats` field and defines no `MarketStats`, which the engine
  imports. `PricingEngine.CalculatePricing` follows the engine's code, as if
  the schema had them.

## Findings

| source | as written | input that shows it | evidently intended | confidence | as-written member | corrected member |
|---|---|---|---|---|---|---|
| frontend/src/components/InspectionForm.tsx:71-82 | The whole wizard is one `<form onSubmit={handleSubmit}>`, and `handleSubmit` validates only the current step. At step 0 the only text input is the address field, and the form has no submit button there. Pressing Enter in that field submits the form (implicit submission). | Step 0 with address "1 High Street", job type "roof_repair" and an empty description: Enter in the address field sends the bid request with an empty job description. | A submission carries a validated address, job type and description whatever step it comes from. | not executed | InspectionForm.Submit, InspectionForm.EarlySubmitSkipsDescription | InspectionForm.SubmitChecked, InspectionForm.CheckedSubmissionComplete |
