/** The three-step intake wizard: location and job type, then the work
    description and scope, then urgency and site constraints. The current
    step and the form data are the component's state; a step can only be
    left forwards when its own fields pass validation. */
module InspectionForm {
  import opened Common

  const StepCount: nat := 3

  datatype FormData = FormData(
    address: string,
    jobType: string,
    jobDescription: string,
    scopeOfWork: string,
    urgency: string,
    constraints: string)

  const InitialData: FormData := FormData("", "", "", "", "medium", "")

  datatype Field = Address | JobType | JobDescription | ScopeOfWork | Urgency | Constraints

  function Get(data: FormData, field: Field): string {
    match field
    case Address => data.address
    case JobType => data.jobType
    case JobDescription => data.jobDescription
    case ScopeOfWork => data.scopeOfWork
    case Urgency => data.urgency
    case Constraints => data.constraints
  }

  /** `{ ...prev, [field]: value }`. */
  function Set(data: FormData, field: Field, value: string): (next: FormData)
    ensures Get(next, field) == value
    ensures forall f :: f != field ==> Get(next, f) == Get(data, f)
  {
    match field
    case Address => data.(address := value)
    case JobType => data.(jobType := value)
    case JobDescription => data.(jobDescription := value)
    case ScopeOfWork => data.(scopeOfWork := value)
    case Urgency => data.(urgency := value)
    case Constraints => data.(constraints := value)
  }

  /** The fields whose inputs are rendered at a step. */
  predicate RenderedAt(field: Field, step: nat) {
    || (step == 0 && field in {Address, JobType})
    || (step == 1 && field in {JobDescription, ScopeOfWork})
    || (step == 2 && field in {Urgency, Constraints})
  }

  /** `validateStep`, with the toast it raises on failure. */
  datatype StepCheck = Passed | AddressMissing | JobTypeMissing | DescriptionMissing

  function CheckStep(step: nat, data: FormData): (r: StepCheck)
    ensures r == AddressMissing <==> step == 0 && !HasText(data.address)
    ensures r == JobTypeMissing <==> step == 0 && HasText(data.address) && data.jobType == ""
    ensures r == DescriptionMissing <==> step == 1 && !HasText(data.jobDescription)
    ensures r == Passed <==> StepFieldsValid(step, data)
  {
    TrimEmptyIffBlank(data.address);
    TrimEmptyIffBlank(data.jobDescription);
    if step == 0 && Trim(data.address) == [] then AddressMissing
    else if step == 0 && data.jobType == "" then JobTypeMissing
    else if step == 1 && Trim(data.jobDescription) == [] then DescriptionMissing
    else Passed
  }

  /** What a step asks of its own fields. */
  predicate StepFieldsValid(step: nat, data: FormData) {
    && (step == 0 ==> HasText(data.address) && data.jobType != "")
    && (step == 1 ==> HasText(data.jobDescription))
  }

  /** The payload handed to `onSubmit`; `constraints` is never sent. */
  datatype Submission = Submission(
    address: string,
    jobType: string,
    jobDescription: string,
    scopeOfWork: Option<string>,
    urgency: string)

  function Payload(data: FormData): (s: Submission)
    ensures s.address == data.address && s.jobType == data.jobType && s.jobDescription == data.jobDescription
    ensures s.scopeOfWork.None? <==> data.scopeOfWork == ""
    ensures s.scopeOfWork.Some? ==> s.scopeOfWork.value == data.scopeOfWork
    ensures s.urgency == data.urgency
  {
    Submission(data.address, data.jobType, data.jobDescription,
               if data.scopeOfWork != "" then Some(data.scopeOfWork) else None, data.urgency)
  }

  /** `handleSubmit` as written: only the current step is validated. */
  function Submit(step: nat, data: FormData): (sent: Option<Submission>)
    ensures sent.Some? <==> StepFieldsValid(step, data)
    ensures sent.Some? ==> sent.value == Payload(data)
  {
    if CheckStep(step, data).Passed? then Some(Payload(data)) else None
  }

  /** The submission the wizard is built to guarantee: every step's fields
      are checked, whichever step the submit event comes from. */
  function SubmitChecked(data: FormData): (sent: Option<Submission>)
    ensures sent.Some? <==> StepFieldsValid(0, data) && StepFieldsValid(1, data)
    ensures sent.Some? ==> sent.value == Payload(data)
  {
    if CheckStep(0, data).Passed? && CheckStep(1, data).Passed? then Some(Payload(data)) else None
  }

  /** `Math.round(progress)` of `((step + 1) / 3) * 100`. */
  function Progress(step: nat): real {
    (step + 1) as real / StepCount as real * 100.0
  }

  function DisplayedProgress(step: nat): int {
    (Progress(step) + 0.5).Floor
  }

  class IntakeForm {
    var currentStep: nat
    var data: FormData

    /** The step index points at one of the three steps. */
    predicate Valid()
      reads this
    {
      currentStep < StepCount
    }

    /** Every step behind the current one has valid fields. */
    predicate Progressed()
      reads this
    {
      && (currentStep >= 1 ==> StepFieldsValid(0, data))
      && (currentStep >= 2 ==> StepFieldsValid(1, data))
    }

    constructor()
      ensures currentStep == 0 && data == InitialData
      ensures Valid() && Progressed()
    {
      currentStep := 0;
      data := InitialData;
    }

    /** `handleFieldChange`: only the named field changes. */
    method HandleFieldChange(field: Field, value: string)
      modifies this
      ensures Get(data, field) == value
      ensures forall f :: f != field ==> Get(data, f) == Get(old(data), f)
      ensures currentStep == old(currentStep)
      ensures old(Progressed()) && RenderedAt(field, currentStep) ==> Progressed()
    {
      data := Set(data, field, value);
    }

    /** `nextStep`: advance, capped at the last step, only when the current
        step validates. */
    method NextStep()
      modifies this
      ensures data == old(data)
      ensures old(CheckStep(currentStep, data)).Passed? ==>
        currentStep == if old(currentStep) + 1 < StepCount then old(currentStep) + 1 else StepCount - 1
      ensures !old(CheckStep(currentStep, data)).Passed? ==> currentStep == old(currentStep)
      ensures old(Valid()) ==> Valid()
      ensures old(Valid()) && old(Progressed()) ==> Progressed()
    {
      if !CheckStep(currentStep, data).Passed? {
        return;
      }
      currentStep := if currentStep + 1 < StepCount then currentStep + 1 else StepCount - 1;
    }

    /** `prevStep`: go back, floored at the first step. */
    method PrevStep()
      modifies this
      ensures data == old(data)
      ensures currentStep == if old(currentStep) == 0 then 0 else old(currentStep) - 1
      ensures old(Valid()) ==> Valid()
      ensures old(Progressed()) ==> Progressed()
    {
      currentStep := if currentStep == 0 then 0 else currentStep - 1;
    }

    /** `handleSubmit`: sends the payload when the current step validates. */
    method HandleSubmit() returns (sent: Option<Submission>)
      ensures sent == Submit(currentStep, data)
    {
      if !CheckStep(currentStep, data).Passed? {
        return None;
      }
      sent := Some(Payload(data));
    }

    /** The submit handler with whole-form validation. */
    method HandleSubmitChecked() returns (sent: Option<Submission>)
      ensures sent == SubmitChecked(data)
    {
      var check := CheckStep(0, data);
      if check.Passed? {
        check := CheckStep(1, data);
      }
      if !check.Passed? {
        return None;
      }
      sent := Some(Payload(data));
    }
  }

  // ---------------------------------------------------------------------------
  // Properties

  /** Going through the buttons, the submit button only exists on the last
      step, where the steps behind have passed: there the handler as written
      sends exactly what whole-form validation sends. */
  lemma FinalStepSubmitIsChecked(data: FormData)
    requires StepFieldsValid(0, data) && StepFieldsValid(1, data)
    ensures Submit(StepCount - 1, data) == SubmitChecked(data)
    ensures Submit(StepCount - 1, data).Some?
  {
  }

  /** A submit event at the first step (Enter in the address input: the only
      text input of the form at that step, and the form has no submit button
      there) sends a bid request with an empty work description. */
  lemma EarlySubmitSkipsDescription()
    ensures var data := FormData("1 High Street", "roof_repair", "", "", "medium", "");
      && Submit(0, data) == Some(Submission("1 High Street", "roof_repair", "", None, "medium"))
      && SubmitChecked(data) == None
  {
    var data := FormData("1 High Street", "roof_repair", "", "", "medium", "");
    assert !IsWhitespace(data.address[0]);
  }

  /** Whatever step it comes from, a checked submission carries an address,
      a job type and a work description. */
  lemma CheckedSubmissionComplete(data: FormData)
    ensures SubmitChecked(data).Some? ==>
      var s := SubmitChecked(data).value;
      HasText(s.address) && s.jobType != "" && HasText(s.jobDescription)
  {
  }

  /** The progress bar reads 33%, 67% and 100%. */
  lemma ProgressLabels()
    ensures DisplayedProgress(0) == 33 && DisplayedProgress(1) == 67 && DisplayedProgress(2) == 100
  {
  }
}
