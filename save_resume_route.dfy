/** The server endpoint behind the saved-resume store: `GET` lists the pages of
    the resume database, `POST` turns a submitted resume into a new page. The
    document store itself is not modelled; the outcome of its query or page
    creation is a parameter. */
module SaveResumeRoute {
  import opened Wrappers
  import opened NotionProps
  import opened SaveResumeStore
  import JsNumber
  import JsString

  /** The two settings the endpoint reads from its environment. */
  datatype Env = Env(apiKey: Option<string>, databaseId: Option<string>)

  /** The body of a response, as JSON. */
  datatype ResponseBody = ErrorBody(error: string) | ResultsBody(results: seq<RawNotionSaveResume>) | SuccessBody

  datatype Response = Response(status: int, body: ResponseBody)

  /** The outcome of querying the resume database. */
  datatype QueryOutcome = QueryOk(results: seq<RawNotionSaveResume>) | QueryFailed

  /** `GET`: a missing key (checked first) or database id is a configuration
      error; otherwise the query's pages are returned unchanged, or a 500 when
      the query fails. */
  function Get(env: Env, query: QueryOutcome): (r: Response)
    ensures !JsString.Present(env.apiKey) || !JsString.Present(env.databaseId) ==> r == Response(500, ErrorBody("Server configuration error"))
    ensures JsString.Present(env.apiKey) && JsString.Present(env.databaseId) && query.QueryOk? ==> r == Response(200, ResultsBody(query.results))
    ensures JsString.Present(env.apiKey) && JsString.Present(env.databaseId) && query.QueryFailed? ==>
      r == Response(500, ErrorBody("Failed to fetch data from Notion"))
  {
    if !JsString.Present(env.apiKey) then Response(500, ErrorBody("Server configuration error"))
    else if !JsString.Present(env.databaseId) then Response(500, ErrorBody("Server configuration error"))
    else match query
      case QueryOk(results) => Response(200, ResultsBody(results))
      case QueryFailed => Response(500, ErrorBody("Failed to fetch data from Notion"))
  }

  /** A numeric field of the submitted body: the text of an input, a number,
      or `null`. */
  datatype NumericInput = NumText(text: string) | NumValue(n: int) | NumNull

  /** The submitted resume: the body of a `POST`. */
  datatype SubmittedResume = SubmittedResume(
    name: string, email: string, mobile: string, location: string, age: NumericInput,
    experience: string, jobType: string, cuisines: string, totalExperienceYears: NumericInput,
    currentPosition: string, currentSalary: string, expectedSalary: string,
    preferredLocation: string, passportNo: string, probationPeriod: bool,
    businessType: string, joiningType: string, readyForTraining: string, candidateConsent: bool)

  /** `x ? Number(x) : null`. A falsy value is written as `null`; so is a
      value whose `Number` is `NaN`, which JSON cannot carry. */
  function WrittenNumber(x: NumericInput): (r: Option<int>)
    ensures x.NumNull? || x == NumText("") || x == NumValue(0) ==> r == None
    ensures x.NumValue? && x.n != 0 ==> r == Some(x.n)
    ensures x.NumText? && x.text != "" ==> r == JsNumber.StringToNumber(x.text)
  {
    match x
    case NumNull => None
    case NumText(t) => if t == "" then None else JsNumber.StringToNumber(t)
    case NumValue(n) => if n == 0 then None else Some(n)
  }

  /** One written text fragment: `{ text: { content } }`. */
  datatype TextContent = TextContent(content: string)

  /** The property bag `POST` writes. */
  datatype WrittenProperties = WrittenProperties(
    Name: seq<TextContent>, Email: string, Mobile: string, Location: seq<TextContent>,
    Age: Option<int>, Experience: seq<TextContent>, JobType: string, Cuisines: seq<TextContent>,
    TotalExperienceYears: Option<int>, CurrentPosition: seq<TextContent>,
    CurrentSalary: seq<TextContent>, ExpectedSalary: seq<TextContent>,
    PreferredLocation: seq<TextContent>, PassportNo: seq<TextContent>, ProbationPeriod: bool,
    BusinessType: string, JoiningType: string, ReadyForTraining: string, CandidateConsent: bool)

  /** The body-to-properties mapping: every text field as one fragment holding
      the submitted string, selects by name, the email and phone as given, the
      two numbers through `WrittenNumber`, the checkboxes passed through. */
  function PropertyBag(b: SubmittedResume): (w: WrittenProperties)
    ensures w.Name == [TextContent(b.name)] && w.Location == [TextContent(b.location)]
    ensures w.Experience == [TextContent(b.experience)] && w.Cuisines == [TextContent(b.cuisines)]
    ensures w.PassportNo == [TextContent(b.passportNo)]
    ensures w.Age == WrittenNumber(b.age) && w.TotalExperienceYears == WrittenNumber(b.totalExperienceYears)
  {
    WrittenProperties(
      [TextContent(b.name)], b.email, b.mobile, [TextContent(b.location)],
      WrittenNumber(b.age), [TextContent(b.experience)], b.jobType, [TextContent(b.cuisines)],
      WrittenNumber(b.totalExperienceYears), [TextContent(b.currentPosition)],
      [TextContent(b.currentSalary)], [TextContent(b.expectedSalary)],
      [TextContent(b.preferredLocation)], [TextContent(b.passportNo)], b.probationPeriod,
      b.businessType, b.joiningType, b.readyForTraining, b.candidateConsent)
  }

  /** The page-creation call `POST` makes. */
  datatype CreatePage = CreatePage(databaseId: string, properties: WrittenProperties)

  /** What `POST` answers, together with the page-creation call it made, if any. */
  datatype PostResult = PostResult(response: Response, created: Option<CreatePage>)

  /** `POST`. Missing credentials are refused before anything is read or
      written; an unreadable body (`None`) or a failed page creation gives a
      500; otherwise the page is created from `PropertyBag`. */
  function Post(env: Env, body: Option<SubmittedResume>, createSucceeds: bool): (r: PostResult)
    ensures !JsString.Present(env.apiKey) || !JsString.Present(env.databaseId) ==>
      r == PostResult(Response(500, ErrorBody("Missing Notion credentials")), None)
    ensures JsString.Present(env.apiKey) && JsString.Present(env.databaseId) && body.None? ==>
      r == PostResult(Response(500, ErrorBody("Failed to save resume")), None)
    ensures JsString.Present(env.apiKey) && JsString.Present(env.databaseId) && body.Some? ==>
      && r.created == Some(CreatePage(env.databaseId.value, PropertyBag(body.value)))
      && r.response == (if createSucceeds then Response(200, SuccessBody) else Response(500, ErrorBody("Failed to save resume")))
  {
    if !JsString.Present(env.apiKey) || !JsString.Present(env.databaseId) then
      PostResult(Response(500, ErrorBody("Missing Notion credentials")), None)
    else if body.None? then
      PostResult(Response(500, ErrorBody("Failed to save resume")), None)
    else
      var call := CreatePage(env.databaseId.value, PropertyBag(body.value));
      if createSucceeds then PostResult(Response(200, SuccessBody), Some(call))
      else PostResult(Response(500, ErrorBody("Failed to save resume")), Some(call))
  }

  // ------------------------------------------------ read back after a write

  /** ASSUMPTION, not a fact about this code: the document store reads a
      written page back with each fragment's `plain_text` equal to the
      `content` written, the email and phone as written, each select as the
      option of that name, numbers and checkboxes unchanged. */
  function StoredProperties(w: WrittenProperties): SaveResumeProperties {
    SaveResumeProperties(
      Some(TitleProp(Some(Fragments(w.Name)))),
      Some(EmailProp(Some(w.Email))),
      Some(PhoneProp(Some(w.Mobile))),
      Some(RichTextProp(Some(Fragments(w.Location)))),
      Some(NumberProp(w.Age)),
      Some(RichTextProp(Some(Fragments(w.Experience)))),
      Some(SelectProp(Some(SelectOption(w.JobType)))),
      Some(RichTextProp(Some(Fragments(w.Cuisines)))),
      Some(NumberProp(w.TotalExperienceYears)),
      Some(RichTextProp(Some(Fragments(w.CurrentPosition)))),
      Some(RichTextProp(Some(Fragments(w.CurrentSalary)))),
      Some(RichTextProp(Some(Fragments(w.ExpectedSalary)))),
      Some(RichTextProp(Some(Fragments(w.PreferredLocation)))),
      Some(RichTextProp(Some(Fragments(w.PassportNo)))),
      Some(CheckboxProp(w.ProbationPeriod)),
      Some(SelectProp(Some(SelectOption(w.BusinessType)))),
      Some(SelectProp(Some(SelectOption(w.JoiningType)))),
      Some(SelectProp(Some(SelectOption(w.ReadyForTraining)))),
      Some(CheckboxProp(w.CandidateConsent)))
  }

  function Fragments(written: seq<TextContent>): (r: seq<RichTextItem>)
    ensures |r| == |written| && forall i :: 0 <= i < |r| ==> r[i].plain_text == written[i].content
  {
    seq(|written|, i requires 0 <= i < |written| => RichTextItem(written[i].content))
  }

  /** Under that assumption, what `POST` writes the store's decoders read back
      as submitted: every text and select exactly; the checkboxes; and each
      number as its `Number` value when truthy and a number, 0 otherwise. */
  lemma PostThenReadBack(b: SubmittedResume)
    ensures var p := StoredProperties(PropertyBag(b));
      && ExtractTitleText(p.Name) == b.name
      && ExtractEmail(p.Email) == b.email
      && ExtractPhoneNumber(p.Mobile) == b.mobile
      && ExtractRichText(p.Location) == b.location
      && ExtractRichText(p.Experience) == b.experience
      && ExtractRichText(p.Cuisines) == b.cuisines
      && ExtractRichText(p.CurrentPosition) == b.currentPosition
      && ExtractRichText(p.CurrentSalary) == b.currentSalary
      && ExtractRichText(p.ExpectedSalary) == b.expectedSalary
      && ExtractRichText(p.PreferredLocation) == b.preferredLocation
      && ExtractRichText(p.PassportNo) == b.passportNo
      && ExtractSelectValue(p.JobType) == b.jobType
      && ExtractSelectValue(p.BusinessType) == b.businessType
      && ExtractSelectValue(p.JoiningType) == b.joiningType
      && ExtractSelectValue(p.ReadyForTraining) == b.readyForTraining
      && ExtractCheckbox(p.ProbationPeriod) == b.probationPeriod
      && ExtractCheckbox(p.CandidateConsent) == b.candidateConsent
      && ExtractNumber(p.Age) == WrittenNumber(b.age).GetOr(0)
      && ExtractNumber(p.TotalExperienceYears) == WrittenNumber(b.totalExperienceYears).GetOr(0)
  {
    ReadBackTexts(b);
    ReadBackScalars(b);
  }

  /** The title and rich-text half of `PostThenReadBack`. */
  lemma ReadBackTexts(b: SubmittedResume)
    ensures var p := StoredProperties(PropertyBag(b));
      && ExtractTitleText(p.Name) == b.name
      && ExtractRichText(p.Location) == b.location
      && ExtractRichText(p.Experience) == b.experience
      && ExtractRichText(p.Cuisines) == b.cuisines
      && ExtractRichText(p.CurrentPosition) == b.currentPosition
      && ExtractRichText(p.CurrentSalary) == b.currentSalary
      && ExtractRichText(p.ExpectedSalary) == b.expectedSalary
      && ExtractRichText(p.PreferredLocation) == b.preferredLocation
      && ExtractRichText(p.PassportNo) == b.passportNo
  {
    var w := PropertyBag(b);
    ReadBackTitle(b.name);
    ReadBackRich(w.Location, b.location);
    ReadBackRich(w.Experience, b.experience);
    ReadBackRich(w.Cuisines, b.cuisines);
    ReadBackRich(w.CurrentPosition, b.currentPosition);
    ReadBackRich(w.CurrentSalary, b.currentSalary);
    ReadBackRich(w.ExpectedSalary, b.expectedSalary);
    ReadBackRich(w.PreferredLocation, b.preferredLocation);
    ReadBackRich(w.PassportNo, b.passportNo);
  }

  /** A title written as one fragment reads back as its content. */
  lemma ReadBackTitle(content: string)
    ensures ExtractTitleText(Some(TitleProp(Some(Fragments([TextContent(content)]))))) == content
  {
    ReadBackOne(content);
  }

  /** A rich text written as one fragment reads back as its content. */
  lemma ReadBackRich(written: seq<TextContent>, content: string)
    requires written == [TextContent(content)]
    ensures ExtractRichText(Some(RichTextProp(Some(Fragments(written))))) == content
  {
    ReadBackOne(content);
  }

  /** The email, phone, select, checkbox and number half of `PostThenReadBack`. */
  lemma ReadBackScalars(b: SubmittedResume)
    ensures var p := StoredProperties(PropertyBag(b));
      && ExtractEmail(p.Email) == b.email
      && ExtractPhoneNumber(p.Mobile) == b.mobile
      && ExtractSelectValue(p.JobType) == b.jobType
      && ExtractSelectValue(p.BusinessType) == b.businessType
      && ExtractSelectValue(p.JoiningType) == b.joiningType
      && ExtractSelectValue(p.ReadyForTraining) == b.readyForTraining
      && ExtractCheckbox(p.ProbationPeriod) == b.probationPeriod
      && ExtractCheckbox(p.CandidateConsent) == b.candidateConsent
      && ExtractNumber(p.Age) == WrittenNumber(b.age).GetOr(0)
      && ExtractNumber(p.TotalExperienceYears) == WrittenNumber(b.totalExperienceYears).GetOr(0)
  {
    var p := StoredProperties(PropertyBag(b));
    ReadBackContact(b, p);
    ReadBackSelects(b, p);
    ReadBackCheckboxes(b, p);
    ReadBackNumbers(b, p);
  }

  /** The email and the phone number read back as submitted. */
  lemma ReadBackContact(b: SubmittedResume, p: SaveResumeProperties)
    requires p == StoredProperties(PropertyBag(b))
    ensures ExtractEmail(p.Email) == b.email && ExtractPhoneNumber(p.Mobile) == b.mobile
  {
  }

  /** The four select fields read back as submitted. */
  lemma ReadBackSelects(b: SubmittedResume, p: SaveResumeProperties)
    requires p == StoredProperties(PropertyBag(b))
    ensures ExtractSelectValue(p.JobType) == b.jobType && ExtractSelectValue(p.BusinessType) == b.businessType
    ensures ExtractSelectValue(p.JoiningType) == b.joiningType && ExtractSelectValue(p.ReadyForTraining) == b.readyForTraining
  {
  }

  /** The two checkboxes read back as submitted. */
  lemma ReadBackCheckboxes(b: SubmittedResume, p: SaveResumeProperties)
    requires p == StoredProperties(PropertyBag(b))
    ensures ExtractCheckbox(p.ProbationPeriod) == b.probationPeriod && ExtractCheckbox(p.CandidateConsent) == b.candidateConsent
  {
  }

  /** The two numbers read back as `Number` made of the submitted text, 0 for `NaN`. */
  lemma ReadBackNumbers(b: SubmittedResume, p: SaveResumeProperties)
    requires p == StoredProperties(PropertyBag(b))
    ensures ExtractNumber(p.Age) == WrittenNumber(b.age).GetOr(0)
    ensures ExtractNumber(p.TotalExperienceYears) == WrittenNumber(b.totalExperienceYears).GetOr(0)
  {
  }

  /** One written fragment reads back as its content. */
  lemma ReadBackOne(content: string)
    ensures JoinPlainText(Fragments([TextContent(content)])) == content
  {
    assert Fragments([TextContent(content)]) == [RichTextItem(content)];
    JoinSingle(RichTextItem(content));
  }

  /** A submitted number reads back as itself, whatever its sign, when it is
      sent as the text of an input. */
  lemma NumberTextReadsBack(n: int)
    requires n != 0
    ensures WrittenNumber(NumText(JsNumber.IntToString(n))) == Some(n)
  {
    JsNumber.StringToNumberOfIntToString(n);
  }
}
