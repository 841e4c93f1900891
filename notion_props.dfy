/** Notion's tagged property wrappers, as the application reads them back from
    the document store. Every wrapper and every inner value may be missing; a
    missing one is `None`. */
module NotionProps {
  import opened Wrappers
  import JsString

  /** One fragment of a title or rich-text property. */
  datatype RichTextItem = RichTextItem(plain_text: string)

  /** `{ title: [...] }` */
  datatype TitleProp = TitleProp(title: Option<seq<RichTextItem>>)

  /** `{ rich_text: [...] }` */
  datatype RichTextProp = RichTextProp(rich_text: Option<seq<RichTextItem>>)

  datatype SelectOption = SelectOption(name: string)

  /** `{ select: { name } }` */
  datatype SelectProp = SelectProp(select: Option<SelectOption>)

  /** `{ email }`; Notion gives `null` for an empty email. */
  datatype EmailProp = EmailProp(email: Option<string>)

  /** `{ phone_number }`; Notion gives `null` for an empty phone number. */
  datatype PhoneProp = PhoneProp(phone_number: Option<string>)

  /** `{ number }`; Notion gives `null` for an empty number. */
  datatype NumberProp = NumberProp(number: Option<int>)

  /** `{ checkbox }` */
  datatype CheckboxProp = CheckboxProp(checkbox: bool)

  datatype MultiSelectItem = MultiSelectItem(id: string, name: string)

  /** `{ multi_select: [...] }` */
  datatype MultiSelectProp = MultiSelectProp(multi_select: Option<seq<MultiSelectItem>>)

  datatype FileObject = FileObject(url: string)

  /** `{ file: { url } }` */
  datatype FileProp = FileProp(file: Option<FileObject>)

  datatype DateValue = DateValue(start: string)

  /** `{ date: { start } }` */
  datatype DateProp = DateProp(date: Option<DateValue>)

  /** The fragments of a possibly missing title wrapper; none when it or its list is missing. */
  function TitleItems(p: Option<TitleProp>): seq<RichTextItem> {
    if p.Some? && p.value.title.Some? then p.value.title.value else []
  }

  /** The fragments of a possibly missing rich-text wrapper; none when it or its list is missing. */
  function RichTextItems(p: Option<RichTextProp>): seq<RichTextItem> {
    if p.Some? && p.value.rich_text.Some? then p.value.rich_text.value else []
  }

  /** The total number of characters in a list of fragments. */
  function TotalLength(items: seq<RichTextItem>): nat {
    if items == [] then 0 else |items[0].plain_text| + TotalLength(items[1..])
  }

  /** `r` is the fragments' text laid end to end in list order: it has their
      total length, and fragment `k` sits right after fragments `0..k-1`. */
  ghost predicate IsConcatenation(r: string, items: seq<RichTextItem>) {
    && |r| == TotalLength(items)
    && forall k :: 0 <= k < |items| ==> JsString.OccursAt(r, items[k].plain_text, TotalLength(items[..k]))
  }

  /** `items.map(t => t.plain_text).join('')` */
  function JoinPlainText(items: seq<RichTextItem>): (r: string)
    ensures IsConcatenation(r, items)
  {
    if items == [] then ""
    else
      var head := items[0].plain_text;
      var rest := JoinPlainText(items[1..]);
      var r := head + rest;
      assert items[..0] == [];
      assert r[..|head|] == head;
      forall k | 0 < k < |items|
        ensures JsString.OccursAt(r, items[k].plain_text, TotalLength(items[..k]))
      {
        TotalLengthOfPrefix(items, k);
        assert items[1..][k - 1] == items[k];
        JsString.OccursAtPrepend(head, rest, items[k].plain_text, TotalLength(items[1..][..k - 1]));
      }
      r
  }

  /** The first `k` fragments are the first one followed by the next `k - 1`. */
  lemma TotalLengthOfPrefix(items: seq<RichTextItem>, k: nat)
    requires 0 < k <= |items|
    ensures TotalLength(items[..k]) == |items[0].plain_text| + TotalLength(items[1..][..k - 1])
  {
    assert items[..k][1..] == items[1..][..k - 1];
    assert items[..k][0] == items[0];
  }

  /** The concatenation of a list of fragments is determined by the list: two
      strings that both lay the fragments end to end are equal. */
  lemma {:induction false} ConcatenationUnique(r1: string, r2: string, items: seq<RichTextItem>)
    requires IsConcatenation(r1, items) && IsConcatenation(r2, items)
    ensures r1 == r2
  {
    if items != [] {
      var head := items[0].plain_text;
      assert items[..0] == [];
      assert JsString.OccursAt(r1, head, 0) && JsString.OccursAt(r2, head, 0);
      SuffixIsConcatenation(r1, items);
      SuffixIsConcatenation(r2, items);
      ConcatenationUnique(r1[|head|..], r2[|head|..], items[1..]);
      assert r1 == r1[..|head|] + r1[|head|..];
      assert r2 == r2[..|head|] + r2[|head|..];
    }
  }

  /** Dropping the first fragment's text from a concatenation leaves the
      concatenation of the remaining fragments. */
  lemma SuffixIsConcatenation(r: string, items: seq<RichTextItem>)
    requires items != [] && IsConcatenation(r, items)
    ensures |items[0].plain_text| <= |r|
    ensures IsConcatenation(r[|items[0].plain_text|..], items[1..])
  {
    var n := |items[0].plain_text|;
    assert items[..1] == [items[0]];
    assert TotalLength(items[..1]) == n by {
      assert items[..1][1..] == [];
    }
    assert items == [items[0]] + items[1..];
    assert TotalLength(items) == n + TotalLength(items[1..]);
    var rest := r[n..];
    forall k | 0 <= k < |items[1..]|
      ensures JsString.OccursAt(rest, items[1..][k].plain_text, TotalLength(items[1..][..k]))
    {
      assert items[..k + 1][1..] == items[1..][..k];
      assert items[..k + 1][0] == items[0];
      assert TotalLength(items[..k + 1]) == n + TotalLength(items[1..][..k]);
      assert JsString.OccursAt(r, items[k + 1].plain_text, TotalLength(items[..k + 1]));
      JsString.OccursAtShift(r, items[k + 1].plain_text, n, TotalLength(items[1..][..k]));
    }
  }

  /** A text property with a single fragment reads back as that fragment's text. */
  lemma JoinSingle(item: RichTextItem)
    ensures JoinPlainText([item]) == item.plain_text
  {
    assert [item][1..] == [];
  }

  /** `items.map(i => i.name)` */
  function MapNames(items: seq<MultiSelectItem>): (r: seq<string>)
    ensures |r| == |items|
    ensures forall i :: 0 <= i < |items| ==> r[i] == items[i].name
  {
    if items == [] then [] else [items[0].name] + MapNames(items[1..])
  }
}
