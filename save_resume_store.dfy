/** The saved-resume directory store (`useSaveResumeStore`): the list of resume
    pages read from the resume database, loading/error/updating flags, the fetch
    and partial-update actions, and the helpers that decode a resume page's
    property bag. */
module SaveResumeStore {
  import opened Wrappers
  import opened NotionProps
  import opened Remote

  /** The property bag of one resume page. */
  datatype SaveResumeProperties = SaveResumeProperties(
    Name: Option<TitleProp>,
    Email: Option<EmailProp>,
    Mobile: Option<PhoneProp>,
    Location: Option<RichTextProp>,
    Age: Option<NumberProp>,
    Experience: Option<RichTextProp>,
    JobType: Option<SelectProp>,
    Cuisines: Option<RichTextProp>,
    TotalExperienceYears: Option<NumberProp>,
    CurrentPosition: Option<RichTextProp>,
    CurrentSalary: Option<RichTextProp>,
    ExpectedSalary: Option<RichTextProp>,
    PreferredLocation: Option<RichTextProp>,
    PassportNo: Option<RichTextProp>,
    ProbationPeriod: Option<CheckboxProp>,
    BusinessType: Option<SelectProp>,
    JoiningType: Option<SelectProp>,
    ReadyForTraining: Option<SelectProp>,
    CandidateConsent: Option<CheckboxProp>)

  /** One resume page as the resume endpoint returns it. */
  datatype RawNotionSaveResume = RawNotionSaveResume(
    id: string,
    properties: SaveResumeProperties,
    created_time: string,
    last_edited_time: string)

  /** The keys of a resume as the dashboard (`ChefResumeData`) and the update
      endpoint (`UpdateResumeData`, which has no email) name them. */
  datatype ResumeField =
    | NameField | EmailField | MobileField | LocationField | AgeField | ExperienceField
    | JobTypeField | CuisinesField | TotalExperienceYearsField | CurrentPositionField
    | CurrentSalaryField | ExpectedSalaryField | PreferredLocationField | PassportNoField
    | ProbationPeriodField | BusinessTypeField | JoiningTypeField | ReadyForTrainingField
    | CandidateConsentField

  /** A JavaScript value held under one of those keys: a string, an integral
      number, `NaN`, a boolean, or `undefined`. */
  datatype FieldValue = Str(s: string) | Num(n: int) | NotANumber | Bool(b: bool) | Undefined

  /** JavaScript truthiness of a field value: `''`, `0`, `NaN`, `false` and
      `undefined` are falsy. */
  predicate Truthy(v: FieldValue) {
    match v
    case Str(s) => s != ""
    case Num(n) => n != 0
    case NotANumber => false
    case Bool(b) => b
    case Undefined => false
  }

  /** `UpdateResumeData`: a partial set of resume fields. */
  type UpdateResumeData = map<ResumeField, FieldValue>

  /** The `PUT` request `updateResume` sends. */
  datatype PutRequest = PutRequest(url: string, body: UpdateResumeData)

  /** The endpoint every fetch of saved resumes reads. */
  const FetchUrl := "/api/saveResume"

  /** The messages the store records when a fetch or an update fails. */
  const FetchFailedMessage := "Failed to fetch resumes"
  const UpdateFailedMessage := "Failed to update resume"
  const UpdateCaughtFallback := "An error occurred while updating"

  /** The address `updateResume` sends its PUT to: the list endpoint followed by `/` and the page id. */
  function UpdateUrl(resumeId: string): string {
    FetchUrl + "/" + resumeId
  }

  class Store {
    var resumes: seq<RawNotionSaveResume>
    var isLoading: bool
    var error: Option<string>
    var isUpdating: bool

    /** The store's initial state. */
    constructor ()
      ensures resumes == [] && !isLoading && error == None && !isUpdating
    {
      resumes := [];
      isLoading := false;
      error := None;
      isUpdating := false;
    }

    /** The first `set` of `fetchSavedResumes`, before the request is sent. */
    method BeginFetch()
      modifies this
      ensures isLoading && error == None
      ensures resumes == old(resumes) && isUpdating == old(isUpdating)
    {
      isLoading := true;
      error := None;
    }

    /** The second `set` of `fetchSavedResumes`, once the request has completed:
        the list is replaced wholesale on success and left as it was on failure. */
    method CompleteFetch(outcome: HttpOutcome<seq<RawNotionSaveResume>>)
      modifies this
      ensures !isLoading && isUpdating == old(isUpdating)
      ensures outcome.Ok? ==> resumes == outcome.body && error == old(error)
      ensures !outcome.Ok? ==> resumes == old(resumes)
      ensures !outcome.Ok? ==> error == Some(FailureMessage(outcome, FetchFailedMessage, CaughtFallback))
    {
      match outcome
      case Ok(list) =>
        resumes := list;
        isLoading := false;
      case _ =>
        error := Some(FailureMessage(outcome, FetchFailedMessage, CaughtFallback));
        isLoading := false;
    }

    /** `fetchSavedResumes()`: both steps, with the response to the request given
        as `outcome`; returns the URL that was requested. */
    method FetchSavedResumes(outcome: HttpOutcome<seq<RawNotionSaveResume>>) returns (url: string)
      modifies this
      ensures url == FetchUrl
      ensures !isLoading && isUpdating == old(isUpdating)
      ensures outcome.Ok? ==> resumes == outcome.body && error == None
      ensures outcome.NotOk? ==> resumes == old(resumes) && error == Some(FetchFailedMessage)
      ensures outcome.Threw? ==> resumes == old(resumes)
      ensures outcome.Threw? ==> error == Some(CaughtMessage(outcome.thrown, CaughtFallback))
    {
      BeginFetch();
      url := FetchUrl;
      CompleteFetch(outcome);
    }

    /** The first `set` of `updateResume`. */
    method BeginUpdate()
      modifies this
      ensures isUpdating && error == None
      ensures resumes == old(resumes) && isLoading == old(isLoading)
    {
      isUpdating := true;
      error := None;
    }

    /** The completion of `updateResume`: the update flag drops and a failure is
        recorded, but the cached list is never touched and nothing is rethrown. */
    method CompleteUpdate(outcome: HttpOutcome<()>)
      modifies this
      ensures !isUpdating && resumes == old(resumes) && isLoading == old(isLoading)
      ensures outcome.Ok? ==> error == old(error)
      ensures !outcome.Ok? ==> error == Some(FailureMessage(outcome, UpdateFailedMessage, UpdateCaughtFallback))
    {
      if outcome.Ok? {
        isUpdating := false;
      } else {
        error := Some(FailureMessage(outcome, UpdateFailedMessage, UpdateCaughtFallback));
        isUpdating := false;
      }
    }

    /** `updateResume(resumeId, data)`: sends exactly `data` to the endpoint of
        `resumeId` and returns normally whatever the outcome. */
    method UpdateResume(resumeId: string, data: UpdateResumeData, outcome: HttpOutcome<()>)
      returns (request: PutRequest)
      modifies this
      ensures request == PutRequest(UpdateUrl(resumeId), data)
      ensures !isUpdating && resumes == old(resumes) && isLoading == old(isLoading)
      ensures outcome.Ok? ==> error == None
      ensures outcome.NotOk? ==> error == Some(UpdateFailedMessage)
      ensures outcome.Threw? ==> error == Some(CaughtMessage(outcome.thrown, UpdateCaughtFallback))
    {
      BeginUpdate();
      request := PutRequest(UpdateUrl(resumeId), data);
      CompleteUpdate(outcome);
    }

    /** `clearError()` */
    method ClearError()
      modifies this
      ensures error == None
      ensures resumes == old(resumes) && isLoading == old(isLoading) && isUpdating == old(isUpdating)
    {
      error := None;
    }

    /** `clearResumes()` */
    method ClearResumes()
      modifies this
      ensures resumes == []
      ensures error == old(error) && isLoading == old(isLoading) && isUpdating == old(isUpdating)
    {
      resumes := [];
    }
  }

  /** `extractTitleText`: the in-order concatenation of the title fragments, or
      `''` when the wrapper or its list is missing. */
  function ExtractTitleText(title: Option<TitleProp>): (r: string)
    ensures title.None? || title.value.title.None? ==> r == ""
    ensures IsConcatenation(r, TitleItems(title))
  {
    if title.None? || title.value.title.None? then "" else JoinPlainText(title.value.title.value)
  }

  /** `extractRichText`: the in-order concatenation of the rich-text fragments,
      or `''` when the wrapper or its list is missing. */
  function ExtractRichText(richText: Option<RichTextProp>): (r: string)
    ensures richText.None? || richText.value.rich_text.None? ==> r == ""
    ensures IsConcatenation(r, RichTextItems(richText))
  {
    if richText.None? || richText.value.rich_text.None? then "" else JoinPlainText(richText.value.rich_text.value)
  }

  /** `extractSelectValue`: the selected option's name, `''` when there is none. */
  function ExtractSelectValue(select: Option<SelectProp>): (r: string)
    ensures select.None? || select.value.select.None? ==> r == ""
    ensures select.Some? && select.value.select.Some? ==> r == select.value.select.value.name
  {
    if select.None? || select.value.select.None? then "" else select.value.select.value.name
  }

  /** `extractEmail`: the email, `''` when it or its wrapper is missing. */
  function ExtractEmail(email: Option<EmailProp>): (r: string)
    ensures email.None? || email.value.email.None? ==> r == ""
    ensures email.Some? && email.value.email.Some? ==> r == email.value.email.value
  {
    if email.None? || email.value.email.None? || email.value.email.value == "" then ""
    else email.value.email.value
  }

  /** `extractPhoneNumber`: the phone number, `''` when it or its wrapper is missing. */
  function ExtractPhoneNumber(phone: Option<PhoneProp>): (r: string)
    ensures phone.None? || phone.value.phone_number.None? ==> r == ""
    ensures phone.Some? && phone.value.phone_number.Some? ==> r == phone.value.phone_number.value
  {
    if phone.None? || phone.value.phone_number.None? || phone.value.phone_number.value == "" then ""
    else phone.value.phone_number.value
  }

  /** `extractNumber`: the number, 0 when it is `null` or its wrapper is missing. */
  function ExtractNumber(number: Option<NumberProp>): (r: int)
    ensures number.None? || number.value.number.None? ==> r == 0
    ensures number.Some? && number.value.number.Some? ==> r == number.value.number.value
  {
    if number.None? || number.value.number.None? then 0 else number.value.number.value
  }

  /** `extractCheckbox`: the checkbox, false when its wrapper is missing. */
  function ExtractCheckbox(checkbox: Option<CheckboxProp>): (r: bool)
    ensures checkbox.None? ==> !r
    ensures checkbox.Some? ==> r == checkbox.value.checkbox
  {
    if checkbox.None? then false else checkbox.value.checkbox
  }
}
