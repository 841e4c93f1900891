/** The chef-directory store (`useResumeStore`): the list of directory resumes,
    its loading and error flags, the fetch action, and the property decoders the
    store exports for its readers. */
module ResumeStore {
  import opened Wrappers
  import opened NotionProps
  import opened Remote
  import NotionDatabase
  import SaveResumeStore

  /** The endpoint every fetch of directory resumes reads. */
  const FetchUrl := "/api/chef"

  /** The message the store records when the fetch fails. */
  const FetchFailedMessage := "Failed to fetch resumes"

  class Store {
    var resumes: seq<NotionDatabase.RawNotionResume>
    var isLoading: bool
    var error: Option<string>

    /** The store's initial state. */
    constructor ()
      ensures resumes == [] && !isLoading && error == None
    {
      resumes := [];
      isLoading := false;
      error := None;
    }

    /** `fetchChefResumes()`, with the response to its request given as
        `outcome`: loading is raised and the error cleared, then the list is
        replaced wholesale on success or kept, with a message, on failure. */
    method FetchChefResumes(outcome: HttpOutcome<seq<NotionDatabase.RawNotionResume>>) returns (url: string)
      modifies this
      ensures url == FetchUrl && !isLoading
      ensures outcome.Ok? ==> resumes == outcome.body && error == None
      ensures outcome.NotOk? ==> resumes == old(resumes) && error == Some(FetchFailedMessage)
      ensures outcome.Threw? ==> resumes == old(resumes)
      ensures outcome.Threw? ==> error == Some(CaughtMessage(outcome.thrown, CaughtFallback))
    {
      isLoading := true;
      error := None;
      url := FetchUrl;
      if outcome.Ok? {
        resumes := outcome.body;
        isLoading := false;
      } else {
        error := Some(FailureMessage(outcome, FetchFailedMessage, CaughtFallback));
        isLoading := false;
      }
    }

    /** `clearError()` */
    method ClearError()
      modifies this
      ensures error == None && resumes == old(resumes) && isLoading == old(isLoading)
    {
      error := None;
    }

    /** `clearResumes()` */
    method ClearResumes()
      modifies this
      ensures resumes == [] && error == old(error) && isLoading == old(isLoading)
    {
      resumes := [];
    }
  }

  /** `extractPlainText`: `''` for a null or missing wrapper or list, otherwise
      the fragments' text in list order. */
  function ExtractPlainText(richText: Option<RichTextProp>): (r: string)
    ensures richText.None? || richText.value.rich_text.None? ==> r == ""
    ensures IsConcatenation(r, RichTextItems(richText))
  {
    if richText.None? || richText.value.rich_text.None? then "" else JoinPlainText(richText.value.rich_text.value)
  }

  /** `extractTitleText`: `''` for a null or missing wrapper or list, otherwise
      the fragments' text in list order. */
  function ExtractTitleText(title: Option<TitleProp>): (r: string)
    ensures title.None? || title.value.title.None? ==> r == ""
    ensures IsConcatenation(r, TitleItems(title))
  {
    if title.None? || title.value.title.None? then "" else JoinPlainText(title.value.title.value)
  }

  /** `extractSelect`: the selected option's name, `''` when there is none. */
  function ExtractSelect(select: Option<SelectProp>): (r: string)
    ensures select.None? || select.value.select.None? ==> r == ""
    ensures select.Some? && select.value.select.Some? ==> r == select.value.select.value.name
  {
    if select.None? || select.value.select.None? then "" else select.value.select.value.name
  }

  /** `extractPhoneNumber`: the phone number, `''` when it is missing or empty. */
  function ExtractPhoneNumber(phone: Option<PhoneProp>): (r: string)
    ensures phone.None? || phone.value.phone_number.None? ==> r == ""
    ensures phone.Some? && phone.value.phone_number.Some? ==> r == phone.value.phone_number.value
  {
    if phone.None? || phone.value.phone_number.None? || phone.value.phone_number.value == "" then ""
    else phone.value.phone_number.value
  }

  /** `extractMultiSelect`: `[]` for a missing wrapper or list, otherwise the
      option names in order. */
  function ExtractMultiSelect(multiSelect: Option<MultiSelectProp>): (r: seq<string>)
    ensures multiSelect.None? || multiSelect.value.multi_select.None? ==> r == []
    ensures multiSelect.Some? && multiSelect.value.multi_select.Some? ==>
      var items := multiSelect.value.multi_select.value;
      |r| == |items| && forall i :: 0 <= i < |items| ==> r[i] == items[i].name
  {
    if multiSelect.None? || multiSelect.value.multi_select.None? then []
    else MapNames(multiSelect.value.multi_select.value)
  }

  /** `extractNumber`: the number when there is one, otherwise 0. A `null`
      number is not of type number, so it too gives 0. */
  function ExtractNumber(number: Option<NumberProp>): (r: int)
    ensures number.None? || number.value.number.None? ==> r == 0
    ensures number.Some? && number.value.number.Some? ==> r == number.value.number.value
  {
    if number.None? || number.value.number.None? then 0 else number.value.number.value
  }

  /** The three decoder sets read text wrappers alike: each returns the one
      concatenation of the fragments, so they agree on every input. */
  lemma TextDecodersAgree(title: Option<TitleProp>, richText: Option<RichTextProp>)
    ensures ExtractTitleText(title) == NotionDatabase.ExtractTitleText(title) == SaveResumeStore.ExtractTitleText(title)
    ensures ExtractPlainText(richText) == NotionDatabase.ExtractPlainText(richText) == SaveResumeStore.ExtractRichText(richText)
  {
    var items := TitleItems(title);
    ConcatenationUnique(ExtractTitleText(title), NotionDatabase.ExtractTitleText(title), items);
    ConcatenationUnique(ExtractTitleText(title), SaveResumeStore.ExtractTitleText(title), items);
    var rich := RichTextItems(richText);
    ConcatenationUnique(ExtractPlainText(richText), NotionDatabase.ExtractPlainText(richText), rich);
    ConcatenationUnique(ExtractPlainText(richText), SaveResumeStore.ExtractRichText(richText), rich);
  }

  /** The three decoder sets read scalar wrappers alike. */
  lemma ScalarDecodersAgree(select: Option<SelectProp>, phone: Option<PhoneProp>, number: Option<NumberProp>)
    ensures ExtractSelect(select) == NotionDatabase.ExtractSelect(select) == SaveResumeStore.ExtractSelectValue(select)
    ensures ExtractPhoneNumber(phone) == NotionDatabase.ExtractPhoneNumber(phone) == SaveResumeStore.ExtractPhoneNumber(phone)
    ensures ExtractNumber(number) == SaveResumeStore.ExtractNumber(number)
  {
  }

  /** A single-fragment text property decodes to that fragment's text. */
  lemma SingleFragmentDecodes(item: RichTextItem)
    ensures ExtractTitleText(Some(TitleProp(Some([item])))) == item.plain_text
    ensures ExtractPlainText(Some(RichTextProp(Some([item])))) == item.plain_text
  {
    JoinSingle(item);
  }
}
