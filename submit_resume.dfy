/** The three-step resume wizard: basic information, professional details, and
    preferences with consent. Each Next checks the current step's required
    fields; Submit needs consent, hands the form to the save call, and starts
    over after a successful save. */
module SubmitResume {
  import opened Wrappers
  import JsNumber

  /** What the years input holds: `''` while blank, otherwise `Number(value)`,
      which is a number or `NaN`. */
  datatype YearsValue = YearsBlank | YearsNumber(n: int) | YearsNaN

  /** A chosen file, identified by its name; its content is not modelled. */
  datatype FileRef = FileRef(name: string)

  /** `ChefDetails`: the wizard's form. */
  datatype ResumeForm = ResumeForm(
    name: string, email: string, location: string, age: string, mobile: string,
    experience: string, jobType: string,
    cuisines: string, totalExperienceYears: YearsValue, currentPosition: string,
    currentSalary: string, expectedSalary: string, preferredLocation: string, passportNo: string,
    probationPeriod: bool, businessType: string, joiningType: string, readyForTraining: string,
    candidateConsent: bool, resumeFile: Option<FileRef>)

  /** The form a visitor starts from and returns to after a successful save. */
  const InitialForm := ResumeForm(
    "", "", "", "", "", "", "",
    "", YearsBlank, "", "", "", "", "",
    false, "any", "immediate", "yes", false, None)

  /** The text inputs wired to `handleInputChange`, by their `id`. */
  datatype InputId =
    | NameInput | EmailInput | MobileInput | AgeInput | LocationInput | ExperienceInput
    | CuisinesInput | TotalExperienceYearsInput | CurrentPositionInput | CurrentSalaryInput
    | ExpectedSalaryInput | PreferredLocationInput | PassportNoInput

  /** The drop-downs wired to `handleSelectChange`. */
  datatype SelectId = JobTypeSelect | BusinessTypeSelect | JoiningTypeSelect | ReadyForTrainingSelect

  /** What the years input stores for the text typed into it. */
  function YearsInput(value: string): (y: YearsValue)
    ensures value == "" <==> y.YearsBlank?
    ensures value != "" && JsNumber.StringToNumber(value).Some? ==> y == YearsNumber(JsNumber.StringToNumber(value).value)
    ensures value != "" && JsNumber.StringToNumber(value).None? ==> y == YearsNaN
  {
    if value == "" then YearsBlank
    else match JsNumber.StringToNumber(value)
      case Some(n) => YearsNumber(n)
      case None => YearsNaN
  }

  /** Typing the decimal form of a number into the years input stores that number. */
  lemma YearsInputOfNumber(n: int)
    ensures YearsInput(JsNumber.IntToString(n)) == YearsNumber(n)
  {
    JsNumber.StringToNumberOfIntToString(n);
  }

  /** JavaScript truthiness of the years value: blank, 0 and `NaN` are falsy. */
  predicate YearsTruthy(y: YearsValue) {
    y.YearsNumber? && y.n != 0
  }

  /** The text an input shows, read back from the form (the years input shows
      no text of its own here). */
  function InputText(form: ResumeForm, id: InputId): string {
    match id
    case NameInput => form.name
    case EmailInput => form.email
    case MobileInput => form.mobile
    case AgeInput => form.age
    case LocationInput => form.location
    case ExperienceInput => form.experience
    case CuisinesInput => form.cuisines
    case TotalExperienceYearsInput => ""
    case CurrentPositionInput => form.currentPosition
    case CurrentSalaryInput => form.currentSalary
    case ExpectedSalaryInput => form.expectedSalary
    case PreferredLocationInput => form.preferredLocation
    case PassportNoInput => form.passportNo
  }

  /** `{ ...prev, [id]: value }` for a text input, with the years input
      storing `''` or `Number(value)`. */
  function WithInput(form: ResumeForm, id: InputId, value: string): (r: ResumeForm)
    ensures id != TotalExperienceYearsInput ==> InputText(r, id) == value
    ensures id == TotalExperienceYearsInput ==> r.totalExperienceYears == YearsInput(value)
  {
    match id
    case NameInput => form.(name := value)
    case EmailInput => form.(email := value)
    case MobileInput => form.(mobile := value)
    case AgeInput => form.(age := value)
    case LocationInput => form.(location := value)
    case ExperienceInput => form.(experience := value)
    case CuisinesInput => form.(cuisines := value)
    case TotalExperienceYearsInput => form.(totalExperienceYears := YearsInput(value))
    case CurrentPositionInput => form.(currentPosition := value)
    case CurrentSalaryInput => form.(currentSalary := value)
    case ExpectedSalaryInput => form.(expectedSalary := value)
    case PreferredLocationInput => form.(preferredLocation := value)
    case PassportNoInput => form.(passportNo := value)
  }

  /** An input change writes its own field and no other: a text input reads
      back exactly what was typed, the years input stores `YearsInput`, every
      other input and every non-text field is untouched. */
  lemma WithInputWritesOneField(form: ResumeForm, id: InputId, value: string, other: InputId)
    ensures var f := WithInput(form, id, value);
      && (id != TotalExperienceYearsInput ==> InputText(f, id) == value)
      && (id == TotalExperienceYearsInput ==> f.totalExperienceYears == YearsInput(value))
      && (id != TotalExperienceYearsInput ==> f.totalExperienceYears == form.totalExperienceYears)
      && (other != id ==> InputText(f, other) == InputText(form, other))
      && f.jobType == form.jobType && f.businessType == form.businessType
      && f.joiningType == form.joiningType && f.readyForTraining == form.readyForTraining
      && f.probationPeriod == form.probationPeriod && f.candidateConsent == form.candidateConsent
      && f.resumeFile == form.resumeFile
  {
    match id
    case NameInput =>
    case EmailInput =>
    case MobileInput =>
    case AgeInput =>
    case LocationInput =>
    case ExperienceInput =>
    case CuisinesInput =>
    case TotalExperienceYearsInput =>
    case CurrentPositionInput =>
    case CurrentSalaryInput =>
    case ExpectedSalaryInput =>
    case PreferredLocationInput =>
    case PassportNoInput =>
  }

  /** `{ ...prev, [field]: value }` for a drop-down. */
  function WithSelect(form: ResumeForm, id: SelectId, value: string): (r: ResumeForm)
    ensures forall other :: InputText(r, other) == InputText(form, other)
    ensures r.totalExperienceYears == form.totalExperienceYears && r.candidateConsent == form.candidateConsent
  {
    match id
    case JobTypeSelect => form.(jobType := value)
    case BusinessTypeSelect => form.(businessType := value)
    case JoiningTypeSelect => form.(joiningType := value)
    case ReadyForTrainingSelect => form.(readyForTraining := value)
  }

  /** Step 1's required fields: name, email, mobile, job type and experience;
      the initial form does not have them. */
  predicate StepOneComplete(form: ResumeForm): (ok: bool)
    ensures ok ==> form != InitialForm
  {
    form.name != "" && form.email != "" && form.mobile != "" && form.jobType != "" && form.experience != ""
  }

  /** Step 2's required fields: cuisines, a truthy number of years (so 0,
      blank and `NaN` are refused) and the preferred location. */
  predicate StepTwoComplete(form: ResumeForm): (ok: bool)
    ensures ok ==> form.totalExperienceYears.YearsNumber? && form.totalExperienceYears.n != 0
    ensures ok ==> form != InitialForm
  {
    form.cuisines != "" && YearsTruthy(form.totalExperienceYears) && form.preferredLocation != ""
  }

  /** A years input left blank, or holding any text that reads as 0 ("0",
      "00", " 0 "), never passes step 2. */
  lemma ZeroYearsBlocksStepTwo(form: ResumeForm, value: string)
    requires value == "" || JsNumber.StringToNumber(value) == Some(0)
    ensures !StepTwoComplete(WithInput(form, TotalExperienceYearsInput, value))
  {
    var y := WithInput(form, TotalExperienceYearsInput, value).totalExperienceYears;
    assert y == YearsInput(value);
    assert y.YearsBlank? || y == YearsNumber(0);
  }

  /** The outcome of the save call: it reported success, it reported failure,
      or it threw. */
  datatype SaveOutcome = Saved | NotSaved | SaveThrew

  class Wizard {
    var currentStep: int
    var form: ResumeForm

    /** The wizard is always on one of its three steps. */
    predicate Valid()
      reads this
    {
      1 <= currentStep <= 3
    }

    /** The wizard starts on step 1 with the initial form. */
    constructor ()
      ensures Valid() && currentStep == 1 && form == InitialForm
    {
      currentStep := 1;
      form := InitialForm;
    }

    /** `handleInputChange` for a text input. */
    method HandleInputChange(id: InputId, value: string)
      modifies this
      ensures form == WithInput(old(form), id, value) && currentStep == old(currentStep)
    {
      form := WithInput(form, id, value);
    }

    /** `handleSelectChange(field, value)` */
    method HandleSelectChange(id: SelectId, value: string)
      modifies this
      ensures form == WithSelect(old(form), id, value) && currentStep == old(currentStep)
    {
      form := WithSelect(form, id, value);
    }

    /** `handleFileChange`: the first chosen file, or none. */
    method HandleFileChange(files: seq<FileRef>)
      modifies this
      ensures form == old(form).(resumeFile := if |files| > 0 then Some(files[0]) else None)
      ensures currentStep == old(currentStep)
    {
      form := form.(resumeFile := if |files| > 0 then Some(files[0]) else None);
    }

    /** The probation radio buttons. */
    method SetProbationPeriod(value: bool)
      modifies this
      ensures form == old(form).(probationPeriod := value) && currentStep == old(currentStep)
    {
      form := form.(probationPeriod := value);
    }

    /** The consent checkbox. */
    method SetCandidateConsent(value: bool)
      modifies this
      ensures form == old(form).(candidateConsent := value) && currentStep == old(currentStep)
    {
      form := form.(candidateConsent := value);
    }

    /** `handleNext()`: from step 1 to 2 exactly when step 1 is complete, from
        step 2 to 3 exactly when step 2 is complete; never past step 3, never
        a change to the form. */
    method HandleNext()
      modifies this
      ensures form == old(form)
      ensures old(currentStep) == 1 ==> (currentStep == 2 <==> StepOneComplete(form)) && currentStep in {1, 2}
      ensures old(currentStep) == 2 ==> (currentStep == 3 <==> StepTwoComplete(form)) && currentStep in {2, 3}
      ensures old(currentStep) != 1 && old(currentStep) != 2 ==> currentStep == old(currentStep)
      ensures old(Valid()) ==> Valid()
    {
      if currentStep == 1 {
        if !StepOneComplete(form) {
          return;
        }
        currentStep := 2;
      } else if currentStep == 2 {
        if !StepTwoComplete(form) {
          return;
        }
        currentStep := 3;
      }
    }

    /** The Previous buttons, shown on steps 2 and 3: one step back. */
    method Previous()
      requires currentStep == 2 || currentStep == 3
      modifies this
      ensures currentStep == old(currentStep) - 1 && Valid()
      ensures form == old(form)
    {
      if currentStep == 2 {
        currentStep := 1;
      } else {
        currentStep := 2;
      }
    }

    /** `handleSubmit()`: without consent nothing is sent and nothing changes.
        With consent the form is handed to the save call; after a successful
        save the wizard is back at step 1 with the initial form, otherwise
        form and step are kept. */
    method HandleSubmit(outcome: SaveOutcome) returns (submitted: Option<ResumeForm>)
      modifies this
      ensures !old(form).candidateConsent ==> submitted == None
      ensures old(form).candidateConsent ==> submitted == Some(old(form))
      ensures old(form).candidateConsent && outcome == Saved ==> form == InitialForm && currentStep == 1
      ensures !(old(form).candidateConsent && outcome == Saved) ==> form == old(form) && currentStep == old(currentStep)
      ensures old(Valid()) ==> Valid()
    {
      if !form.candidateConsent {
        return None;
      }
      submitted := Some(form);
      if outcome == Saved {
        form := InitialForm;
        currentStep := 1;
      }
    }
  }
}
