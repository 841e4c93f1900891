/** The shared resume record of the chef directory and the generic property
    decoders declared next to it. */
module NotionDatabase {
  import opened Wrappers
  import opened NotionProps

  /** The property bag of a directory resume page. */
  datatype ResumeProperties = ResumeProperties(
    name: Option<RichTextProp>,
    email: Option<TitleProp>,
    mobile: Option<PhoneProp>,
    experience: Option<NumberProp>,
    profession: Option<SelectProp>,
    location: Option<RichTextProp>,
    education: Option<RichTextProp>,
    skills: Option<MultiSelectProp>,
    languages: Option<MultiSelectProp>,
    certifications: Option<MultiSelectProp>,
    availability: Option<SelectProp>,
    salary: Option<RichTextProp>,
    photo: Option<FileProp>,
    resumeFile: Option<FileProp>,
    createdTime: Option<DateProp>,
    lastEditedTime: Option<DateProp>)

  /** `RawNotionResume`: one directory resume page as the API returns it. */
  datatype RawNotionResume = RawNotionResume(
    id: string,
    properties: ResumeProperties,
    created_time: string,
    last_edited_time: string)

  /** `extractPlainText`: `''` for a missing wrapper or list, otherwise the
      fragments' text in list order. */
  function ExtractPlainText(richText: Option<RichTextProp>): (r: string)
    ensures richText.None? || richText.value.rich_text.None? ==> r == ""
    ensures IsConcatenation(r, RichTextItems(richText))
  {
    if richText.None? || richText.value.rich_text.None? then "" else JoinPlainText(richText.value.rich_text.value)
  }

  /** `extractTitleText`: `''` for a missing wrapper or list, otherwise the
      fragments' text in list order. */
  function ExtractTitleText(title: Option<TitleProp>): (r: string)
    ensures title.None? || title.value.title.None? ==> r == ""
    ensures IsConcatenation(r, TitleItems(title))
  {
    if title.None? || title.value.title.None? then "" else JoinPlainText(title.value.title.value)
  }

  /** `extractMultiSelect`: `[]` for a missing wrapper or list, otherwise the
      option names in the same order and number. */
  function ExtractMultiSelect(multiSelect: Option<MultiSelectProp>): (r: seq<string>)
    ensures multiSelect.None? || multiSelect.value.multi_select.None? ==> r == []
    ensures multiSelect.Some? && multiSelect.value.multi_select.Some? ==>
      var items := multiSelect.value.multi_select.value;
      |r| == |items| && forall i :: 0 <= i < |items| ==> r[i] == items[i].name
  {
    if multiSelect.None? || multiSelect.value.multi_select.None? then []
    else MapNames(multiSelect.value.multi_select.value)
  }

  /** `extractSelect`: the selected option's name, `''` when there is none. */
  function ExtractSelect(select: Option<SelectProp>): (r: string)
    ensures select.None? || select.value.select.None? ==> r == ""
    ensures select.Some? && select.value.select.Some? ==> r == select.value.select.value.name
  {
    if select.None? || select.value.select.None? then "" else select.value.select.value.name
  }

  /** `extractFileUrl`: the file's URL, `''` when there is no file. */
  function ExtractFileUrl(file: Option<FileProp>): (r: string)
    ensures file.None? || file.value.file.None? ==> r == ""
    ensures file.Some? && file.value.file.Some? ==> r == file.value.file.value.url
  {
    if file.None? || file.value.file.None? then "" else file.value.file.value.url
  }

  /** `extractDate`: the start of the date, `''` when there is no date. */
  function ExtractDate(date: Option<DateProp>): (r: string)
    ensures date.None? || date.value.date.None? ==> r == ""
    ensures date.Some? && date.value.date.Some? ==> r == date.value.date.value.start
  {
    if date.None? || date.value.date.None? then "" else date.value.date.value.start
  }

  /** `extractPhoneNumber`: the phone number, `''` when it is missing or empty. */
  function ExtractPhoneNumber(phone: Option<PhoneProp>): (r: string)
    ensures phone.None? || phone.value.phone_number.None? ==> r == ""
    ensures phone.Some? && phone.value.phone_number.Some? ==> r == phone.value.phone_number.value
  {
    if phone.None? || phone.value.phone_number.None? || phone.value.phone_number.value == "" then ""
    else phone.value.phone_number.value
  }
}
