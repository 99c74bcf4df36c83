/** The deterministic tail of the job estimator: cutting the JSON object out
    of the model's reply, defaulting and clamping the estimates, and the
    per-job-type fallback used whenever the reply cannot be read. The model
    call and the JSON parser are outside the model: `parse` stands for
    `json.loads` followed by reading the keys of the resulting object, and
    yields `None` when the text is not JSON or not an object. */
module LlmClient {
  import opened Common
  import opened Schemas

  /** The keys of the parsed reply; `None` where the key is absent. */
  datatype RawEstimates = RawEstimates(
    materialsCost: Option<real>,
    baseHours: Option<real>,
    labourTasks: Option<seq<LabourTask>>,
    materials: Option<seq<MaterialLineItem>>,
    complexityMultiplier: Option<real>,
    urgencyMultiplier: Option<real>)

  /** The estimate handed to the pricing engine. The fallback table has no
      multiplier keys, hence the options. */
  datatype JobEstimate = JobEstimate(
    baseHours: real,
    materialsCost: real,
    labourTasks: seq<LabourTask>,
    materials: seq<MaterialLineItem>,
    complexityMultiplier: Option<real>,
    urgencyMultiplier: Option<real>)

  /** What `_generate` returns when no API key is configured. */
  const MockText: string :=
    "[MOCK] " + "OpenAI " + "API Key " + "missing. " + "This is " + "generated " + "text."

  const DefaultMaterialsCost: real := 3000.0
  const DefaultBaseHours: real := 30.0
  const MaxMaterialsCost: real := 50000.0
  const MaxBaseHours: real := 500.0
  const ReplacementMaterialsCost: real := 5000.0
  const ReplacementBaseHours: real := 40.0

  function IndexOfFirst(s: string, c: char): (i: Option<nat>)
    ensures i.Some? ==> i.value < |s| && s[i.value] == c && forall k :: 0 <= k < i.value ==> s[k] != c
    ensures i.None? ==> forall k :: 0 <= k < |s| ==> s[k] != c
  {
    if s == [] then None
    else if s[0] == c then Some(0)
    else match IndexOfFirst(s[1..], c)
      case Some(k) => Some(k + 1)
      case None => None
  }

  function IndexOfLast(s: string, c: char): (i: Option<nat>)
    ensures i.Some? ==> i.value < |s| && s[i.value] == c && forall k :: i.value < k < |s| ==> s[k] != c
    ensures i.None? ==> forall k :: 0 <= k < |s| ==> s[k] != c
  {
    if s == [] then None
    else if s[|s| - 1] == c then Some(|s| - 1)
    else IndexOfLast(s[..|s| - 1], c)
  }

  /** `re.search(r'\{.*\}', text, re.DOTALL)`: the bounds of the greedy span
      from the first '{' to the last '}', when a '}' follows the first '{'. */
  function JsonSpanBounds(text: string): (b: Option<(nat, nat)>)
    ensures b.None? <==> forall i, j :: 0 <= i < j < |text| && text[i] == '{' ==> text[j] != '}'
    ensures b.Some? ==>
      var (i, j) := b.value;
      && i < j < |text| && text[i] == '{' && text[j] == '}'
      && (forall k :: 0 <= k < i ==> text[k] != '{')
      && (forall k :: j < k < |text| ==> text[k] != '}')
  {
    match (IndexOfFirst(text, '{'), IndexOfLast(text, '}'))
    case (Some(i), Some(j)) => if i < j then Some((i, j)) else None
    case _ => None
  }

  function JsonSpan(text: string): (span: Option<string>)
    ensures span.Some? ==> |span.value| >= 2 && span.value[0] == '{' && span.value[|span.value| - 1] == '}'
  {
    match JsonSpanBounds(text)
    case Some((i, j)) => Some(text[i..j + 1])
    case None => None
  }

  /** The text handed to the JSON parser: the span, or the whole reply. */
  function JsonText(responseText: string): string {
    match JsonSpan(responseText)
    case Some(span) => span
    case None => responseText
  }

  /** `job_defaults.get(job_type, job_defaults["other"])` with both lists
      emptied. */
  function Fallback(jobType: string): (e: JobEstimate)
    ensures e.labourTasks == [] && e.materials == []
    ensures e.complexityMultiplier == None && e.urgencyMultiplier == None
    ensures jobType == "roof_repair" ==> e.baseHours == 40.0 && e.materialsCost == 4000.0
    ensures jobType == "bathroom_remodel" ==> e.baseHours == 80.0 && e.materialsCost == 6000.0
    ensures jobType == "electrical_rewire" ==> e.baseHours == 60.0 && e.materialsCost == 3000.0
    ensures jobType == "general_renovation" ==> e.baseHours == 100.0 && e.materialsCost == 8000.0
    ensures jobType !in {"roof_repair", "bathroom_remodel", "electrical_rewire", "general_renovation"} ==>
      e.baseHours == 30.0 && e.materialsCost == 3000.0
  {
    var (hours, cost) :=
      if jobType == "roof_repair" then (40.0, 4000.0)
      else if jobType == "bathroom_remodel" then (80.0, 6000.0)
      else if jobType == "electrical_rewire" then (60.0, 3000.0)
      else if jobType == "general_renovation" then (100.0, 8000.0)
      else (30.0, 3000.0);
    JobEstimate(hours, cost, [], [], None, None)
  }

  /** A read value above the limit is replaced; the limit itself is kept. */
  function Clamp(value: real, limit: real, replacement: real): (r: real)
    ensures value <= limit ==> r == value
    ensures value > limit ==> r == replacement
  {
    if value > limit then replacement else value
  }

  /** The validation of a parsed reply: missing keys defaulted, out-of-range
      cost and hours replaced, multipliers defaulting to 1.0. */
  function Validated(raw: RawEstimates): (e: JobEstimate)
    ensures e.materialsCost <= MaxMaterialsCost && e.baseHours <= MaxBaseHours
    ensures e.labourTasks == raw.labourTasks.GetOr([]) && e.materials == raw.materials.GetOr([])
    ensures e.complexityMultiplier == Some(raw.complexityMultiplier.GetOr(1.0))
    ensures e.urgencyMultiplier == Some(raw.urgencyMultiplier.GetOr(1.0))
  {
    var materialsCost := Clamp(raw.materialsCost.GetOr(DefaultMaterialsCost), MaxMaterialsCost, ReplacementMaterialsCost);
    var baseHours := Clamp(raw.baseHours.GetOr(DefaultBaseHours), MaxBaseHours, ReplacementBaseHours);
    JobEstimate(baseHours, materialsCost, raw.labourTasks.GetOr([]), raw.materials.GetOr([]),
                Some(raw.complexityMultiplier.GetOr(1.0)), Some(raw.urgencyMultiplier.GetOr(1.0)))
  }

  /** The tail of `estimate_job_parameters`. */
  function EstimateJobParameters(responseText: string, jobType: string,
                                 parse: string -> Option<RawEstimates>): (e: JobEstimate)
    ensures e.baseHours <= MaxBaseHours && e.materialsCost <= MaxMaterialsCost
    ensures parse(JsonText(responseText)).None? ==> e == Fallback(jobType)
    ensures parse(JsonText(responseText)).Some? ==> e == Validated(parse(JsonText(responseText)).value)
  {
    match parse(JsonText(responseText))
    case Some(raw) => Validated(raw)
    case None => Fallback(jobType)
  }

  // ---------------------------------------------------------------------------
  // Properties

  /** A parser that only accepts objects: text without '{' is rejected. */
  ghost predicate ObjectsNeedBraces(parse: string -> Option<RawEstimates>) {
    forall t :: '{' !in t ==> parse(t).None?
  }

  /** Without an API key every estimate comes from the fallback table: the
      mock reply has no braces, so it is parsed whole and rejected. */
  lemma MockReplyUsesFallback(jobType: string, parse: string -> Option<RawEstimates>)
    requires ObjectsNeedBraces(parse)
    ensures EstimateJobParameters(MockText, jobType, parse) == Fallback(jobType)
  {
    MockHasNoBrace();
    assert JsonText(MockText) == MockText;
  }

  lemma MockHasNoBrace()
    ensures '{' !in MockText
  {
    assert '{' !in "[MOCK] ";
    assert '{' !in "OpenAI ";
    assert '{' !in "API Key ";
    assert '{' !in "missing. ";
    assert '{' !in "This is ";
    assert '{' !in "generated ";
    assert '{' !in "text.";
  }

  /** The missing-key defaults and the clamp boundaries: 50000 and 500 are
      kept, anything above is replaced. */
  lemma ValidationDefaultsAndBoundaries()
    ensures var e := Validated(RawEstimates(None, None, None, None, None, None));
      e.materialsCost == 3000.0 && e.baseHours == 30.0 && e.labourTasks == [] && e.materials == []
      && e.complexityMultiplier == Some(1.0) && e.urgencyMultiplier == Some(1.0)
    ensures var e := Validated(RawEstimates(Some(50000.0), Some(500.0), None, None, None, None));
      e.materialsCost == 50000.0 && e.baseHours == 500.0
    ensures var e := Validated(RawEstimates(Some(50000.01), Some(500.5), None, None, None, None));
      e.materialsCost == 5000.0 && e.baseHours == 40.0
  {
  }

  /** A reply with text around the object is cut to the object. */
  lemma SpanStripsProse()
    ensures JsonSpan("ok {} done") == Some("{}")
  {
    var t := "ok {} done";
    assert t[0] != '{' && t[1] != '{' && t[2] != '{' && t[3] == '{';
    assert t[4] == '}' && t[5] != '}' && t[6] != '}' && t[7] != '}' && t[8] != '}' && t[9] != '}';
    assert IndexOfFirst(t, '{') == Some(3);
    assert IndexOfLast(t, '}') == Some(4);
    assert t[3..5] == "{}";
  }
}
