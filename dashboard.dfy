/** The chef dashboard: it finds the signed-in user's directory record, and for
    a chef the resume stored under the same email, shows that resume decoded
    field by field, and lets one field at a time be edited and saved back. */
module Dashboard {
  import opened Wrappers
  import opened NotionProps
  import opened SaveResumeStore
  import opened UserStore
  import JsArray
  import JsNumber
  import Remote
  import Navbar

  // ----------------------------------------------------------------- getters

  /** `getUserName()`: the first fragment of the name title, `''` without one. */
  function GetUserName(user: Option<NotionUser>): (r: string)
    ensures user.None? || TitleItems(user.value.properties.name) == [] ==> r == ""
    ensures user.Some? && TitleItems(user.value.properties.name) != [] ==>
      r == TitleItems(user.value.properties.name)[0].plain_text
  {
    if user.None? then "" else FirstText(TitleItems(user.value.properties.name))
  }

  /** `getUserEmail()`: the stored email, `''` without one. */
  function GetUserEmail(user: Option<NotionUser>): (r: string)
    ensures user.None? || UserEmail(user.value).None? ==> r == ""
    ensures user.Some? && UserEmail(user.value).Some? ==> r == UserEmail(user.value).value
  {
    if user.Some? && UserEmail(user.value).Some? then UserEmail(user.value).value else ""
  }

  /** `getUserRole()`: the role name, `''` without one. */
  function GetUserRole(user: Option<NotionUser>): (r: string)
    ensures user.None? || UserRoleName(user.value).None? ==> r == ""
    ensures user.Some? && UserRoleName(user.value).Some? ==> r == UserRoleName(user.value).value
  {
    if user.Some? && UserRoleName(user.value).Some? then UserRoleName(user.value).value else ""
  }

  /** `getIsChef()`: the chef flag's name, `''` without one. */
  function GetIsChef(user: Option<NotionUser>): (r: string)
    ensures user.None? || user.value.properties.chef.None? || user.value.properties.chef.value.select.None? ==> r == ""
    ensures user.Some? && user.value.properties.chef.Some? && user.value.properties.chef.value.select.Some? ==>
      r == user.value.properties.chef.value.select.value.name
  {
    if user.Some? && user.value.properties.chef.Some? && user.value.properties.chef.value.select.Some? then
      user.value.properties.chef.value.select.value.name
    else ""
  }

  // --------------------------------------------------------- resume decoding

  /** `items?.[0]?.plain_text || ''`: the first fragment's text, `''` without one. */
  function FirstText(items: seq<RichTextItem>): (r: string)
    ensures items == [] ==> r == ""
    ensures items != [] ==> r == items[0].plain_text
  {
    if items == [] then "" else items[0].plain_text
  }

  /** `items?.[0]?.plain_text` with no default: `undefined` without a fragment. */
  function FirstTextOrUndefined(items: seq<RichTextItem>): (r: FieldValue)
    ensures items == [] ==> r == Undefined
    ensures items != [] ==> r == Str(items[0].plain_text)
  {
    if items == [] then Undefined else Str(items[0].plain_text)
  }

  /** `wrapper?.number`: the number, `undefined` when there is none. */
  function RawNumber(p: Option<NumberProp>): (r: FieldValue)
    ensures p.None? || p.value.number.None? ==> r == Undefined
    ensures p.Some? && p.value.number.Some? ==> r == Num(p.value.number.value)
  {
    if p.Some? && p.value.number.Some? then Num(p.value.number.value) else Undefined
  }

  /** `ChefResumeData`: the decoded resume the dashboard shows and edits. */
  type ChefResumeData = map<ResumeField, FieldValue>

  const AllFields: set<ResumeField> := {
    NameField, EmailField, MobileField, LocationField, AgeField, ExperienceField, JobTypeField,
    CuisinesField, TotalExperienceYearsField, CurrentPositionField, CurrentSalaryField,
    ExpectedSalaryField, PreferredLocationField, PassportNoField, ProbationPeriodField,
    BusinessTypeField, JoiningTypeField, ReadyForTrainingField, CandidateConsentField }

  /** One entry of `processResumeData(rawResume)`: a text field from its first
      fragment only, the two numbers raw, the passport number without a
      default, selects, email and phone defaulted to `''`, checkboxes to false. */
  function ProcessField(p: SaveResumeProperties, f: ResumeField): (r: FieldValue)
    ensures r.Undefined? ==> f == AgeField || f == TotalExperienceYearsField || f == PassportNoField
    ensures r.Bool? <==> f == ProbationPeriodField || f == CandidateConsentField
  {
    match f
    case NameField => Str(FirstText(TitleItems(p.Name)))
    case EmailField => Str(ExtractEmail(p.Email))
    case MobileField => Str(ExtractPhoneNumber(p.Mobile))
    case LocationField => Str(FirstText(RichTextItems(p.Location)))
    case AgeField => RawNumber(p.Age)
    case ExperienceField => Str(FirstText(RichTextItems(p.Experience)))
    case JobTypeField => Str(ExtractSelectValue(p.JobType))
    case CuisinesField => Str(FirstText(RichTextItems(p.Cuisines)))
    case TotalExperienceYearsField => RawNumber(p.TotalExperienceYears)
    case CurrentPositionField => Str(FirstText(RichTextItems(p.CurrentPosition)))
    case CurrentSalaryField => Str(FirstText(RichTextItems(p.CurrentSalary)))
    case ExpectedSalaryField => Str(FirstText(RichTextItems(p.ExpectedSalary)))
    case PreferredLocationField => Str(FirstText(RichTextItems(p.PreferredLocation)))
    case PassportNoField => FirstTextOrUndefined(RichTextItems(p.PassportNo))
    case ProbationPeriodField => Bool(ExtractCheckbox(p.ProbationPeriod))
    case BusinessTypeField => Str(ExtractSelectValue(p.BusinessType))
    case JoiningTypeField => Str(ExtractSelectValue(p.JoiningType))
    case ReadyForTrainingField => Str(ExtractSelectValue(p.ReadyForTraining))
    case CandidateConsentField => Bool(ExtractCheckbox(p.CandidateConsent))
  }

  /** `processResumeData(rawResume)`: every field of the resume, decoded. */
  function ProcessResumeData(raw: RawNotionSaveResume): (d: ChefResumeData)
    ensures forall f :: f in d && d[f] == ProcessField(raw.properties, f)
  {
    EveryFieldListed();
    map f | f in AllFields :: ProcessField(raw.properties, f)
  }

  /** `AllFields` lists every field of the resume. */
  lemma EveryFieldListed()
    ensures forall f: ResumeField :: f in AllFields
  {
    forall f: ResumeField ensures f in AllFields {
      match f
      case NameField =>
      case EmailField =>
      case MobileField =>
      case LocationField =>
      case AgeField =>
      case ExperienceField =>
      case JobTypeField =>
      case CuisinesField =>
      case TotalExperienceYearsField =>
      case CurrentPositionField =>
      case CurrentSalaryField =>
      case ExpectedSalaryField =>
      case PreferredLocationField =>
      case PassportNoField =>
      case ProbationPeriodField =>
      case BusinessTypeField =>
      case JoiningTypeField =>
      case ReadyForTrainingField =>
      case CandidateConsentField =>
    }
  }

  /** The same field as the store's decoders read it (the directory's view):
      every field gets a value, never `undefined` or `NaN`. */
  function StoreField(p: SaveResumeProperties, f: ResumeField): (r: FieldValue)
    ensures !r.Undefined? && !r.NotANumber?
    ensures r.Bool? <==> f == ProbationPeriodField || f == CandidateConsentField
  {
    match f
    case NameField => Str(ExtractTitleText(p.Name))
    case EmailField => Str(ExtractEmail(p.Email))
    case MobileField => Str(ExtractPhoneNumber(p.Mobile))
    case LocationField => Str(ExtractRichText(p.Location))
    case AgeField => Num(ExtractNumber(p.Age))
    case ExperienceField => Str(ExtractRichText(p.Experience))
    case JobTypeField => Str(ExtractSelectValue(p.JobType))
    case CuisinesField => Str(ExtractRichText(p.Cuisines))
    case TotalExperienceYearsField => Num(ExtractNumber(p.TotalExperienceYears))
    case CurrentPositionField => Str(ExtractRichText(p.CurrentPosition))
    case CurrentSalaryField => Str(ExtractRichText(p.CurrentSalary))
    case ExpectedSalaryField => Str(ExtractRichText(p.ExpectedSalary))
    case PreferredLocationField => Str(ExtractRichText(p.PreferredLocation))
    case PassportNoField => Str(ExtractRichText(p.PassportNo))
    case ProbationPeriodField => Bool(ExtractCheckbox(p.ProbationPeriod))
    case BusinessTypeField => Str(ExtractSelectValue(p.BusinessType))
    case JoiningTypeField => Str(ExtractSelectValue(p.JoiningType))
    case ReadyForTrainingField => Str(ExtractSelectValue(p.ReadyForTraining))
    case CandidateConsentField => Bool(ExtractCheckbox(p.CandidateConsent))
  }

  /** A resume page with no properties at all. */
  const EmptyProperties := SaveResumeProperties(None, None, None, None, None, None, None, None, None, None,
                                                None, None, None, None, None, None, None, None, None)

  /** The fields `processResumeData` leaves `undefined` when the page lacks them. */
  const UndefinedWhenMissing: set<ResumeField> := {AgeField, TotalExperienceYearsField, PassportNoField}

  /** On a page without properties the dashboard shows `''` for every text,
      select, email and phone field, false for both checkboxes, and leaves the
      two numbers and the passport number `undefined`. */
  lemma ProcessResumeDataDefaults(id: string, created: string, edited: string)
    ensures var d := ProcessResumeData(RawNotionSaveResume(id, EmptyProperties, created, edited));
      forall f :: f in d ==>
        d[f] == (if f in UndefinedWhenMissing then Undefined
                 else if f == ProbationPeriodField || f == CandidateConsentField then Bool(false)
                 else Str(""))
  {
    var d := ProcessResumeData(RawNotionSaveResume(id, EmptyProperties, created, edited));
    forall f | f in d
      ensures d[f] == (if f in UndefinedWhenMissing then Undefined
                       else if f == ProbationPeriodField || f == CandidateConsentField then Bool(false)
                       else Str(""))
    {
      EmptyField(f);
    }
  }

  /** One field of a page without properties. */
  lemma EmptyField(f: ResumeField)
    ensures ProcessField(EmptyProperties, f) ==
      (if f in UndefinedWhenMissing then Undefined
       else if f == ProbationPeriodField || f == CandidateConsentField then Bool(false)
       else Str(""))
  {
  }

  /** Where every text property has at most one fragment, the dashboard's
      decoding agrees with the store's on every field but the two numbers and
      the passport number; those agree too when present, and are `undefined`
      where the store reads 0 or `''`. */
  lemma ProcessAgreesOnSingleFragments(p: SaveResumeProperties, f: ResumeField)
    requires |TitleItems(p.Name)| <= 1
    requires |RichTextItems(p.Location)| <= 1 && |RichTextItems(p.Experience)| <= 1
    requires |RichTextItems(p.Cuisines)| <= 1 && |RichTextItems(p.CurrentPosition)| <= 1
    requires |RichTextItems(p.CurrentSalary)| <= 1 && |RichTextItems(p.ExpectedSalary)| <= 1
    requires |RichTextItems(p.PreferredLocation)| <= 1 && |RichTextItems(p.PassportNo)| <= 1
    ensures f !in UndefinedWhenMissing ==> ProcessField(p, f) == StoreField(p, f)
    ensures f in UndefinedWhenMissing ==> ProcessField(p, f).Undefined? || ProcessField(p, f) == StoreField(p, f)
    ensures f in UndefinedWhenMissing && ProcessField(p, f).Undefined? ==> !Truthy(StoreField(p, f))
  {
    match f
    case NameField => TextAgrees(TitleItems(p.Name), ExtractTitleText(p.Name));
    case LocationField => TextAgrees(RichTextItems(p.Location), ExtractRichText(p.Location));
    case ExperienceField => TextAgrees(RichTextItems(p.Experience), ExtractRichText(p.Experience));
    case CuisinesField => TextAgrees(RichTextItems(p.Cuisines), ExtractRichText(p.Cuisines));
    case CurrentPositionField => TextAgrees(RichTextItems(p.CurrentPosition), ExtractRichText(p.CurrentPosition));
    case CurrentSalaryField => TextAgrees(RichTextItems(p.CurrentSalary), ExtractRichText(p.CurrentSalary));
    case ExpectedSalaryField => TextAgrees(RichTextItems(p.ExpectedSalary), ExtractRichText(p.ExpectedSalary));
    case PreferredLocationField => TextAgrees(RichTextItems(p.PreferredLocation), ExtractRichText(p.PreferredLocation));
    case PassportNoField => TextAgrees(RichTextItems(p.PassportNo), ExtractRichText(p.PassportNo));
    case _ =>
  }

  /** With at most one fragment, the first fragment is the whole concatenation. */
  lemma TextAgrees(items: seq<RichTextItem>, joined: string)
    requires |items| <= 1 && IsConcatenation(joined, items)
    ensures FirstText(items) == joined
  {
    if items == [] {
      assert |joined| == 0;
    } else {
      assert items[..0] == [];
      assert items == [items[0]] && items[1..] == [];
      assert |joined| == |items[0].plain_text|;
      assert joined[0..|items[0].plain_text|] == items[0].plain_text;
    }
  }

  /** With two fragments the two decoders part ways: a name stored as "Ra" +
      "vi" shows as "Ra" on the dashboard and as "Ravi" in the directory. */
  lemma ProcessDropsLaterFragments()
    ensures var p := EmptyProperties.(Name := Some(TitleProp(Some([RichTextItem("Ra"), RichTextItem("vi")]))));
      ProcessField(p, NameField) == Str("Ra") && StoreField(p, NameField) == Str("Ravi")
  {
    var items := [RichTextItem("Ra"), RichTextItem("vi")];
    assert items[1..] == [RichTextItem("vi")];
    assert items[1..][1..] == [];
    assert JoinPlainText(items) == "Ra" + ("vi" + "");
  }

  // -------------------------------------------------------------- page state

  /** `resume.properties?.Email?.email === email` */
  predicate ResumeHasEmail(email: string, r: RawNotionSaveResume) {
    r.properties.Email.Some? && r.properties.Email.value.email == Some(email)
  }

  /** The first resume stored under exactly `email`. */
  function MatchingResume(saved: seq<RawNotionSaveResume>, email: string): (r: Option<RawNotionSaveResume>)
    ensures r.Some? ==> ResumeHasEmail(email, r.value)
    ensures r.None? <==> forall i :: 0 <= i < |saved| ==> !ResumeHasEmail(email, saved[i])
    ensures r.Some? ==>
      exists i :: 0 <= i < |saved| && saved[i] == r.value && forall j :: 0 <= j < i ==> !ResumeHasEmail(email, saved[j])
  {
    JsArray.Find(saved, r => ResumeHasEmail(email, r))
  }

  /** The chef-flag value that marks a chef. */
  const ChefYes := "yes"

  /** The dashboard's own state. */
  class DashboardPage {
    var currentUser: Option<NotionUser>
    var userResume: Option<ChefResumeData>
    var editingField: Option<ResumeField>
    var editValues: map<ResumeField, FieldValue>
    var currentResumeId: Option<string>

    /** The page's initial state: nothing found, nothing being edited. */
    constructor ()
      ensures currentUser == None && userResume == None && editingField == None
      ensures editValues == map[] && currentResumeId == None
    {
      currentUser := None;
      userResume := None;
      editingField := None;
      editValues := map[];
      currentResumeId := None;
    }

    /** The current-user effect: once the identity has a non-empty first email
        and the directory is loaded, the current user is the first directory
        user with exactly that email, or none. */
    method MatchCurrentUser(identity: Option<Navbar.Identity>, users: seq<NotionUser>)
      modifies this
      ensures identity.Some? && |identity.value.emailAddresses| > 0 && identity.value.emailAddresses[0] != "" && |users| > 0 ==>
        currentUser == Navbar.FindUserByEmail(users, identity.value.emailAddresses[0])
      ensures !(identity.Some? && |identity.value.emailAddresses| > 0 && identity.value.emailAddresses[0] != "" && |users| > 0) ==>
        currentUser == old(currentUser)
      ensures userResume == old(userResume) && currentResumeId == old(currentResumeId)
      ensures editingField == old(editingField) && editValues == old(editValues)
    {
      if identity.Some? && |identity.value.emailAddresses| > 0 && identity.value.emailAddresses[0] != "" && |users| > 0 {
        currentUser := Navbar.FindUserByEmail(users, identity.value.emailAddresses[0]);
      }
    }

    /** The resume-fetch effect fires exactly for a found user flagged as a chef. */
    predicate ShouldFetchResumes()
      reads this
    {
      currentUser.Some? && GetIsChef(currentUser) == ChefYes
    }

    /** The resume-fetch effect: on a chef's page the saved resumes are
        fetched through the store, with `outcome` the response to that
        request; on any other page the store is left alone. Returns the URL
        requested, if any. */
    method FetchResumesEffect(store: SaveResumeStore.Store, outcome: Remote.HttpOutcome<seq<RawNotionSaveResume>>)
      returns (url: Option<string>)
      modifies store
      ensures url.Some? <==> ShouldFetchResumes()
      ensures url.Some? ==> url.value == SaveResumeStore.FetchUrl
      ensures ShouldFetchResumes() ==> !store.isLoading && store.isUpdating == old(store.isUpdating)
      ensures ShouldFetchResumes() && outcome.Ok? ==> store.resumes == outcome.body && store.error == None
      ensures ShouldFetchResumes() && outcome.NotOk? ==>
        store.resumes == old(store.resumes) && store.error == Some(SaveResumeStore.FetchFailedMessage)
      ensures ShouldFetchResumes() && outcome.Threw? ==>
        store.resumes == old(store.resumes) && store.error == Some(Remote.CaughtMessage(outcome.thrown, Remote.CaughtFallback))
      ensures !ShouldFetchResumes() ==>
        && store.resumes == old(store.resumes) && store.error == old(store.error)
        && store.isLoading == old(store.isLoading) && store.isUpdating == old(store.isUpdating)
    {
      if !ShouldFetchResumes() {
        return None;
      }
      var requested := store.FetchSavedResumes(outcome);
      url := Some(requested);
    }

    /** The resume-match effect: for a chef, once resumes are loaded, the
        first resume stored under the user's email is decoded and its page id
        kept; without one both are cleared. */
    method MatchResume(savedResumes: seq<RawNotionSaveResume>)
      modifies this
      ensures currentUser == old(currentUser)
      ensures editingField == old(editingField) && editValues == old(editValues)
      ensures !(currentUser.Some? && |savedResumes| > 0 && GetIsChef(currentUser) == ChefYes) ==>
        userResume == old(userResume) && currentResumeId == old(currentResumeId)
      ensures currentUser.Some? && |savedResumes| > 0 && GetIsChef(currentUser) == ChefYes ==>
        var m := MatchingResume(savedResumes, GetUserEmail(currentUser));
        && (m.Some? ==> userResume == Some(ProcessResumeData(m.value)) && currentResumeId == Some(m.value.id))
        && (m.None? ==> userResume == None && currentResumeId == None)
    {
      if currentUser.Some? && |savedResumes| > 0 && GetIsChef(currentUser) == ChefYes {
        var m := MatchingResume(savedResumes, GetUserEmail(currentUser));
        if m.Some? {
          var shown := ProcessResumeData(m.value);
          userResume := Some(shown);
          currentResumeId := Some(m.value.id);
        } else {
          userResume := None;
          currentResumeId := None;
        }
      }
    }

    /** `handleEditField(field, value)`: starts editing one field with its shown
        value as the only pending value. The edit button is rendered for every
        field except the email. */
    method HandleEditField(field: ResumeField, currentValue: FieldValue)
      requires field != EmailField
      modifies this
      ensures editingField == Some(field) && editValues == map[field := currentValue]
      ensures currentUser == old(currentUser) && userResume == old(userResume)
      ensures currentResumeId == old(currentResumeId)
    {
      editingField := Some(field);
      editValues := map[field := currentValue];
    }

    /** An input's `onChange`: the pending value of the field is replaced. */
    method SetPendingValue(field: ResumeField, value: FieldValue)
      modifies this
      ensures editValues == old(editValues)[field := value]
      ensures editingField == old(editingField)
      ensures currentUser == old(currentUser) && userResume == old(userResume)
      ensures currentResumeId == old(currentResumeId)
    {
      editValues := editValues[field := value];
    }

    /** `handleCancelEdit()` */
    method HandleCancelEdit()
      modifies this
      ensures editingField == None && editValues == map[]
      ensures currentUser == old(currentUser) && userResume == old(userResume)
      ensures currentResumeId == old(currentResumeId)
    {
      editingField := None;
      editValues := map[];
    }

    /** Whether the Save button of `field` sends anything: there must be a
        resume id and a truthy pending value. */
    predicate SaveSends(field: ResumeField)
      reads this
    {
      currentResumeId.Some? && currentResumeId.value != "" && field in editValues && Truthy(editValues[field])
    }

    /** `handleSaveField(field)`. Without a resume id or with a falsy pending
        value it is a cancel. Otherwise it sends the one-field patch through
        the store, merges the value into the shown resume and ends the edit;
        since the store never rethrows, this happens whatever `outcome` the
        update request has. */
    method HandleSaveField(field: ResumeField, store: SaveResumeStore.Store, outcome: Remote.HttpOutcome<()>)
      returns (request: Option<PutRequest>)
      modifies this, store
      ensures editingField == None && editValues == map[]
      ensures currentUser == old(currentUser) && currentResumeId == old(currentResumeId)
      ensures !old(SaveSends(field)) ==> request == None && userResume == old(userResume)
      ensures !old(SaveSends(field)) ==>
        store.resumes == old(store.resumes) && store.error == old(store.error) && store.isUpdating == old(store.isUpdating)
      ensures old(SaveSends(field)) ==>
        request == Some(PutRequest(UpdateUrl(currentResumeId.value), map[field := old(editValues)[field]]))
      ensures old(SaveSends(field)) ==>
        userResume == if old(userResume).Some? then Some(old(userResume).value[field := old(editValues)[field]]) else None
      ensures old(SaveSends(field)) ==> !store.isUpdating
      ensures old(SaveSends(field)) && outcome.Ok? ==> store.error == None
      ensures old(SaveSends(field)) && outcome.NotOk? ==> store.error == Some(SaveResumeStore.UpdateFailedMessage)
      ensures old(SaveSends(field)) && outcome.Threw? ==>
        store.error == Some(Remote.CaughtMessage(outcome.thrown, SaveResumeStore.UpdateCaughtFallback))
      ensures store.resumes == old(store.resumes) && store.isLoading == old(store.isLoading)
    {
      if !SaveSends(field) {
        HandleCancelEdit();
        return None;
      }
      var value := editValues[field];
      var sent := store.UpdateResume(currentResumeId.value, map[field := value], outcome);
      request := Some(sent);
      if userResume.Some? {
        userResume := Some(userResume.value[field := value]);
      }
      editingField := None;
      editValues := map[];
    }
  }

  /** The value a number input holds: `Number(text)`. */
  function NumberInput(text: string): (v: FieldValue)
    ensures JsNumber.StringToNumber(text).Some? ==> v == Num(JsNumber.StringToNumber(text).value)
    ensures JsNumber.StringToNumber(text).None? ==> v == NotANumber
  {
    match JsNumber.StringToNumber(text)
    case Some(n) => Num(n)
    case None => NotANumber
  }

  /** Clearing a number input gives 0, which is falsy: a number field can
      never be saved as 0 or blank (nor a text field as `''`, nor a checkbox as
      false, since both are falsy too). */
  lemma ClearedNumberInputIsFalsy()
    ensures NumberInput("") == Num(0) && !Truthy(NumberInput(""))
    ensures !Truthy(Str("")) && !Truthy(Bool(false))
  {
    assert JsString.TrimStart("") == "";
    assert JsString.TrimEnd("") == "";
  }

  /** Text that begins and ends with a letter is not a number: it gives
      `NaN`, which is falsy and so never saved. */
  lemma LetteredInputIsFalsy(text: string)
    requires |text| > 0 && 'a' <= text[0] <= 'z' && 'a' <= text[|text| - 1] <= 'z'
    ensures NumberInput(text) == NotANumber && !Truthy(NumberInput(text))
  {
    JsNumber.TrimOfUnpadded(text);
    assert !JsNumber.IsDigit(text[0]);
  }
}
