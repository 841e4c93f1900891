/** The chef search page: the filter over saved resumes (search term,
    experience band, profession), the twelve-per-page pagination with its
    windowed page list, the profession choices, and the page's view state. */
module FindChefs {
  import opened Wrappers
  import opened JsString
  import opened SaveResumeStore
  import JsNumber
  import JsArray

  // ---------------------------------------------------------------- filtering

  /** The search box and the two drop-down filters. */
  datatype Filters = Filters(searchTerm: string, experienceFilter: string, professionFilter: string)

  function Name(r: RawNotionSaveResume): string { ExtractTitleText(r.properties.Name) }
  function Email(r: RawNotionSaveResume): string { ExtractEmail(r.properties.Email) }
  function Phone(r: RawNotionSaveResume): string { ExtractPhoneNumber(r.properties.Mobile) }
  function Years(r: RawNotionSaveResume): int { ExtractNumber(r.properties.TotalExperienceYears) }
  function JobType(r: RawNotionSaveResume): string { ExtractSelectValue(r.properties.JobType) }

  /** The search condition: an empty term matches everything; otherwise the
      lower-cased term must occur in the lower-cased name, email, phone or job
      type, or in the decimal form of the experience years. */
  predicate MatchesSearch(term: string, r: RawNotionSaveResume): (ok: bool)
    ensures term == "" ==> ok
    ensures Includes(ToLower(Name(r)), ToLower(term)) ==> ok
  {
    var t := ToLower(term);
    || term == ""
    || Includes(ToLower(Name(r)), t)
    || Includes(ToLower(Email(r)), t)
    || Includes(ToLower(Phone(r)), t)
    || Includes(JsNumber.IntToString(Years(r)), t)
    || (JobType(r) != "" && Includes(ToLower(JobType(r)), t))
  }

  /** The experience condition: the four named bands, and no restriction for
      `all`, an empty value or any other value. */
  predicate MatchesExperience(filter: string, years: int): (ok: bool)
    ensures filter != "fresher" && filter != "medium" && filter != "high" && filter != "pro" ==> ok
  {
    if filter == "" || filter == "all" then true
    else if filter == "fresher" then years < 3
    else if filter == "medium" then 3 <= years <= 6
    else if filter == "high" then 6 < years <= 10
    else if filter == "pro" then years > 10
    else true
  }

  /** The profession condition: no restriction for `all` or an empty value,
      otherwise exact equality with the job type. */
  predicate MatchesProfession(filter: string, jobType: string): (ok: bool)
    ensures jobType == filter ==> ok
    ensures filter == "all" ==> ok
  {
    filter == "" || filter == "all" || jobType == filter
  }

  /** A resume is shown when it meets all three conditions; the initial
      filters (empty search, `all`, `all`) show every resume. */
  predicate Matches(f: Filters, r: RawNotionSaveResume): (ok: bool)
    ensures f.searchTerm == "" && f.experienceFilter == "all" && f.professionFilter == "all" ==> ok
  {
    && MatchesSearch(f.searchTerm, r)
    && MatchesExperience(f.experienceFilter, Years(r))
    && MatchesProfession(f.professionFilter, JobType(r))
  }

  /** The three conditions as predicates on a resume. */
  function SearchCondition(f: Filters): RawNotionSaveResume -> bool {
    x => MatchesSearch(f.searchTerm, x)
  }

  function ExperienceCondition(f: Filters): RawNotionSaveResume -> bool {
    x => MatchesExperience(f.experienceFilter, Years(x))
  }

  function ProfessionCondition(f: Filters): RawNotionSaveResume -> bool {
    x => MatchesProfession(f.professionFilter, JobType(x))
  }

  /** `filteredChefs` */
  function FilterChefs(resumes: seq<RawNotionSaveResume>, f: Filters): (r: seq<RawNotionSaveResume>)
    ensures |r| <= |resumes|
  {
    JsArray.Filter(resumes, x => Matches(f, x))
  }

  /** The filtered list keeps the order of the resumes it keeps. */
  lemma FilterChefsInOrder(resumes: seq<RawNotionSaveResume>, f: Filters)
    ensures JsArray.IsSubsequence(FilterChefs(resumes, f), resumes)
  {
    JsArray.FilterIsSubsequence(resumes, x => Matches(f, x));
  }

  /** The filtered list holds exactly the resumes meeting all three conditions,
      each as many times as it occurs among the resumes. */
  lemma FilterChefsExactly(resumes: seq<RawNotionSaveResume>, f: Filters, x: RawNotionSaveResume)
    ensures multiset(FilterChefs(resumes, f))[x] == if Matches(f, x) then multiset(resumes)[x] else 0
    ensures x in FilterChefs(resumes, f) <==> x in resumes && Matches(f, x)
  {
    JsArray.FilterCount(resumes, x => Matches(f, x), x);
    JsArray.FilterMembership(resumes, x => Matches(f, x), x);
  }

  /** The three conditions may be applied one after another, in the order
      the source writes them (search, then experience, then profession): the
      result is the same as the combined filter. */
  lemma FilterChefsStaged(resumes: seq<RawNotionSaveResume>, f: Filters)
    ensures FilterChefs(resumes, f) ==
      JsArray.Filter(JsArray.Filter(JsArray.Filter(resumes, SearchCondition(f)), ExperienceCondition(f)), ProfessionCondition(f))
  {
    var s, e, p := SearchCondition(f), ExperienceCondition(f), ProfessionCondition(f);
    var m := x => Matches(f, x);
    forall x ensures m(x) == (s(x) && e(x) && p(x)) {
    }
    JsArray.FilterThree(resumes, m, s, e, p);
  }

  /** Searching is case-insensitive in the term: a term and its lower-cased
      form match the same resumes. */
  lemma SearchIgnoresTermCase(term: string, r: RawNotionSaveResume)
    ensures MatchesSearch(term, r) == MatchesSearch(ToLower(term), r)
  {
    ToLowerIdempotent(term);
    assert term == "" <==> ToLower(term) == "";
  }

  /** With nothing typed and both drop-downs at `all`, every resume is listed. */
  lemma DefaultFiltersKeepEverything(resumes: seq<RawNotionSaveResume>)
    ensures FilterChefs(resumes, Filters("", "all", "all")) == resumes
  {
    JsArray.FilterExtensional(resumes, x => Matches(Filters("", "all", "all"), x), x => true);
    FilterAllTrue(resumes);
  }

  lemma {:induction false} FilterAllTrue(resumes: seq<RawNotionSaveResume>)
    ensures JsArray.Filter(resumes, x => true) == resumes
  {
    if resumes != [] {
      FilterAllTrue(resumes[1..]);
    }
  }

  /** The band a number of years falls in. */
  function ExperienceBand(years: int): (b: string)
    ensures b in {"fresher", "medium", "high", "pro"}
  {
    if years < 3 then "fresher" else if years <= 6 then "medium" else if years <= 10 then "high" else "pro"
  }

  /** The four named experience filters partition the years: each resume
      passes exactly the filter of its own band. A resume without a number of
      years counts as 0 and so as a fresher. */
  lemma ExperienceBandsPartition(years: int, filter: string)
    requires filter in {"fresher", "medium", "high", "pro"}
    ensures MatchesExperience(filter, years) <==> filter == ExperienceBand(years)
    ensures MatchesExperience("fresher", ExtractNumber(None))
  {
  }

  // --------------------------------------------------------------- pagination

  const ItemsPerPage := 12

  /** `Math.ceil(n / 12)`: the fewest pages of twelve that hold `n` items. */
  function TotalPages(n: nat): (t: nat)
    ensures n <= t * ItemsPerPage
    ensures t > 0 ==> (t - 1) * ItemsPerPage < n
  {
    (n + ItemsPerPage - 1) / ItemsPerPage
  }

  /** `filtered.slice((page - 1) * 12, (page - 1) * 12 + 12)` */
  function PageSlice<T>(s: seq<T>, page: int): (r: seq<T>)
    ensures |r| <= ItemsPerPage
    ensures page >= 1 ==>
      var start := if (page - 1) * ItemsPerPage < |s| then (page - 1) * ItemsPerPage else |s|;
      var end := if page * ItemsPerPage < |s| then page * ItemsPerPage else |s|;
      r == s[start..end]
  {
    JsArray.Slice(s, (page - 1) * ItemsPerPage, (page - 1) * ItemsPerPage + ItemsPerPage)
  }

  /** A page holds only items of the list it is cut from. */
  lemma PageSliceWithin<T>(s: seq<T>, page: int)
    ensures forall x :: x in PageSlice(s, page) ==> x in s
  {
    var from := JsArray.ClampIndex((page - 1) * ItemsPerPage, |s|);
    var to := JsArray.ClampIndex((page - 1) * ItemsPerPage + ItemsPerPage, |s|);
    if from < to {
      forall x | x in s[from..to] ensures x in s {
        var k :| 0 <= k < to - from && s[from..to][k] == x;
        assert s[from + k] == x;
      }
    }
  }

  /** Pages `page` to `last`, laid end to end. */
  function PagesFrom<T>(s: seq<T>, page: nat, last: nat): seq<T>
    requires page >= 1
    decreases last + 1 - page
  {
    if page > last then [] else PageSlice(s, page) + PagesFrom(s, page + 1, last)
  }

  lemma {:induction false} PagesFromIsSuffix<T>(s: seq<T>, page: nat)
    requires 1 <= page <= TotalPages(|s|) + 1
    ensures (page - 1) * ItemsPerPage <= |s| || page == TotalPages(|s|) + 1
    ensures PagesFrom(s, page, TotalPages(|s|)) ==
      s[(if (page - 1) * ItemsPerPage < |s| then (page - 1) * ItemsPerPage else |s|)..]
    decreases TotalPages(|s|) + 1 - page
  {
    var t := TotalPages(|s|);
    if page <= t {
      PagesFromIsSuffix(s, page + 1);
      var start := if (page - 1) * ItemsPerPage < |s| then (page - 1) * ItemsPerPage else |s|;
      var end := if page * ItemsPerPage < |s| then page * ItemsPerPage else |s|;
      assert s[start..] == s[start..end] + s[end..];
    }
  }

  /** Every filtered chef is on exactly one page: pages 1 to `TotalPages`
      concatenated give back the filtered list. */
  lemma PagesPartition<T>(s: seq<T>)
    ensures PagesFrom(s, 1, TotalPages(|s|)) == s
  {
    PagesFromIsSuffix(s, 1);
  }

  /** The entries of the page-number bar. */
  datatype PageItem = Page(n: int) | EllipsisStart | EllipsisEnd

  const MaxVisiblePages := 5

  /** The page buttons `lo` to `hi`. */
  function PageRange(lo: int, hi: int): (r: seq<PageItem>)
    ensures |r| == if hi < lo then 0 else hi - lo + 1
    ensures forall k :: 0 <= k < |r| ==> r[k] == Page(lo + k)
  {
    if hi < lo then [] else seq(hi - lo + 1, k => Page(lo + k))
  }

  function Max(a: int, b: int): int { if a < b then b else a }
  function Min(a: int, b: int): int { if a < b then a else b }

  /** The page-number bar: every page when there are at most five; otherwise
      the first page, an opening ellipsis when the current page is past 3, the
      current page with its neighbours (never the first or last), a closing
      ellipsis when the current page is more than two before the end, and the
      last page. */
  function PaginationItems(totalPages: nat, currentPage: int): seq<PageItem> {
    if totalPages <= MaxVisiblePages then PageRange(1, totalPages)
    else
      [Page(1)]
      + (if currentPage > 3 then [EllipsisStart] else [])
      + PageRange(Max(2, currentPage - 1), Min(totalPages - 1, currentPage + 1))
      + (if currentPage < totalPages - 2 then [EllipsisEnd] else [])
      + [Page(totalPages)]
  }

  /** `generatePaginationItems()` */
  method GeneratePaginationItems(totalPages: nat, currentPage: int) returns (items: seq<PageItem>)
    ensures items == PaginationItems(totalPages, currentPage)
  {
    items := [];
    if totalPages <= MaxVisiblePages {
      var i := 1;
      while i <= totalPages
        invariant 1 <= i <= totalPages + 1
        invariant items == PageRange(1, i - 1)
      {
        AppendPage([], 1, i);
        items := items + [Page(i)];
        i := i + 1;
      }
    } else {
      items := items + [Page(1)];
      if currentPage > 3 {
        items := items + [EllipsisStart];
      }
      var start := Max(2, currentPage - 1);
      var end := Min(totalPages - 1, currentPage + 1);
      var prefix := items;
      var i := start;
      while i <= end
        invariant start <= i <= Max(start, end + 1)
        invariant items == prefix + PageRange(start, i - 1)
      {
        if i != 1 && i != totalPages {
          AppendPage(prefix, start, i);
          items := items + [Page(i)];
        }
        i := i + 1;
      }
      if start > end {
        assert PageRange(start, i - 1) == [] == PageRange(start, end);
      }
      if currentPage < totalPages - 2 {
        items := items + [EllipsisEnd];
      }
      if totalPages > 1 {
        items := items + [Page(totalPages)];
      }
    }
  }

  /** Pushing the next page onto the pages `lo` to `hi - 1` gives the pages `lo` to `hi`. */
  lemma AppendPage(prefix: seq<PageItem>, lo: int, hi: int)
    requires lo <= hi
    ensures prefix + PageRange(lo, hi - 1) + [Page(hi)] == prefix + PageRange(lo, hi)
  {
    assert PageRange(lo, hi) == PageRange(lo, hi - 1) + [Page(hi)];
  }

  /** With at most five pages every page is listed, in order, and nothing else. */
  lemma PaginationSmall(totalPages: nat, currentPage: int)
    requires totalPages <= MaxVisiblePages
    ensures |PaginationItems(totalPages, currentPage)| == totalPages
    ensures forall k :: 0 <= k < totalPages ==> PaginationItems(totalPages, currentPage)[k] == Page(k + 1)
  {
  }

  /** Every page button of the bar names an existing page; with more than five
      pages the bar starts at page 1 and ends at the last page. */
  lemma PaginationBounds(totalPages: nat, currentPage: int)
    ensures forall it :: it in PaginationItems(totalPages, currentPage) && it.Page? ==> 1 <= it.n <= totalPages
    ensures totalPages > MaxVisiblePages ==>
      var items := PaginationItems(totalPages, currentPage);
      items[0] == Page(1) && items[|items| - 1] == Page(totalPages)
  {
    var items := PaginationItems(totalPages, currentPage);
    forall it | it in items && it.Page? ensures 1 <= it.n <= totalPages {
      var k :| 0 <= k < |items| && items[k] == it;
    }
  }

  /** The page numbers in the bar strictly increase from left to right. */
  lemma PaginationIncreasing(totalPages: nat, currentPage: int)
    ensures var items := PaginationItems(totalPages, currentPage);
      forall i, j :: 0 <= i < j < |items| && items[i].Page? && items[j].Page? ==> items[i].n < items[j].n
  {
  }

  /** The current page, when it exists, always has its own button. */
  lemma PaginationIncludesCurrent(totalPages: nat, currentPage: int)
    requires 1 <= currentPage <= totalPages
    ensures Page(currentPage) in PaginationItems(totalPages, currentPage)
  {
    var items := PaginationItems(totalPages, currentPage);
    if totalPages <= MaxVisiblePages {
      assert items[currentPage - 1] == Page(currentPage);
    } else if currentPage == 1 {
      assert items[0] == Page(currentPage);
    } else if currentPage == totalPages {
      assert items[|items| - 1] == Page(currentPage);
    } else {
      var middle := PageRange(Max(2, currentPage - 1), Min(totalPages - 1, currentPage + 1));
      assert middle[currentPage - Max(2, currentPage - 1)] == Page(currentPage);
      assert Page(currentPage) in middle;
    }
  }

  /** The opening ellipsis appears exactly when there are more than five pages
      and the current page is past 3; the closing one exactly when there are
      more than five pages and the current page is more than two before the end. */
  lemma PaginationEllipses(totalPages: nat, currentPage: int)
    ensures EllipsisStart in PaginationItems(totalPages, currentPage) <==> totalPages > MaxVisiblePages && currentPage > 3
    ensures EllipsisEnd in PaginationItems(totalPages, currentPage) <==> totalPages > MaxVisiblePages && currentPage < totalPages - 2
  {
  }

  // -------------------------------------------------------------- professions

  function JobTypes(resumes: seq<RawNotionSaveResume>): (r: seq<string>)
    ensures |r| == |resumes|
    ensures forall i :: 0 <= i < |r| ==> r[i] == JobType(resumes[i])
  {
    if resumes == [] then [] else [JobType(resumes[0])] + JobTypes(resumes[1..])
  }

  /** `uniqueProfessions`: the non-empty job types, de-duplicated through a
      `Set` and sorted. */
  function UniqueProfessions(resumes: seq<RawNotionSaveResume>): seq<string> {
    JsArray.SortStrings(JsArray.Distinct(JsArray.Filter(JobTypes(resumes), j => j != "")))
  }

  /** The profession choices are strictly ascending (so without repeats), never
      empty strings, and exactly the job types some resume has. */
  lemma UniqueProfessionsSpec(resumes: seq<RawNotionSaveResume>)
    ensures JsArray.StrictlySorted(UniqueProfessions(resumes))
    ensures "" !in UniqueProfessions(resumes)
    ensures forall j :: j in UniqueProfessions(resumes) <==> j != "" && exists r :: r in resumes && JobType(r) == j
  {
    var nonEmpty := JsArray.Filter(JobTypes(resumes), j => j != "");
    var d := JsArray.Distinct(nonEmpty);
    JsArray.SortDistinct(d);
    forall j ensures j in d <==> j != "" && exists r :: r in resumes && JobType(r) == j {
      JsArray.FilterMembership(JobTypes(resumes), j => j != "", j);
      if j in JobTypes(resumes) {
        var i :| 0 <= i < |JobTypes(resumes)| && JobTypes(resumes)[i] == j;
        assert resumes[i] in resumes;
      }
      if exists r :: r in resumes && JobType(r) == j {
        var r :| r in resumes && JobType(r) == j;
        var i :| 0 <= i < |resumes| && resumes[i] == r;
        assert JobTypes(resumes)[i] == j;
      }
    }
  }

  // --------------------------------------------------------------- view state

  /** The role that may open a chef's details. */
  const ProRole := "pro"

  /** The search page's state: the three filter values, the current page, and
      the detail dialog. */
  class FindChefsView {
    var searchTerm: string
    var experienceFilter: string
    var professionFilter: string
    var currentPage: int
    var selectedResume: Option<RawNotionSaveResume>
    var isModalOpen: bool

    function CurrentFilters(): (f: Filters)
      reads this
      ensures f.searchTerm == searchTerm && f.experienceFilter == experienceFilter
      ensures f.professionFilter == professionFilter
    {
      Filters(searchTerm, experienceFilter, professionFilter)
    }

    /** `currentChefs`: the current page of the filtered resumes; by
        `FilterChefsExactly` each of them meets the current filters. */
    function CurrentChefs(resumes: seq<RawNotionSaveResume>): (r: seq<RawNotionSaveResume>)
      reads this
      ensures |r| <= ItemsPerPage
      ensures forall x :: x in r ==> x in FilterChefs(resumes, CurrentFilters())
    {
      var filtered := FilterChefs(resumes, CurrentFilters());
      PageSliceWithin(filtered, currentPage);
      PageSlice(filtered, currentPage)
    }

    /** The current page is a real page (or page 1 when there are none). */
    predicate PageInRange(totalPages: nat)
      reads this
    {
      1 <= currentPage && (totalPages >= 1 ==> currentPage <= totalPages)
    }

    /** The page's initial state: nothing typed, both filters at `all`, page 1,
        no dialog. */
    constructor ()
      ensures searchTerm == "" && experienceFilter == "all" && professionFilter == "all"
      ensures currentPage == 1 && selectedResume == None && !isModalOpen
    {
      searchTerm := "";
      experienceFilter := "all";
      professionFilter := "all";
      currentPage := 1;
      selectedResume := None;
      isModalOpen := false;
    }

    /** Typing in the search box; a change of the term sends the page back to 1. */
    method SetSearchTerm(term: string)
      modifies this
      ensures searchTerm == term
      ensures currentPage == if term != old(searchTerm) then 1 else old(currentPage)
      ensures experienceFilter == old(experienceFilter) && professionFilter == old(professionFilter)
      ensures selectedResume == old(selectedResume) && isModalOpen == old(isModalOpen)
    {
      if term != searchTerm {
        currentPage := 1;
      }
      searchTerm := term;
    }

    /** Choosing an experience band; a change sends the page back to 1. */
    method SetExperienceFilter(filter: string)
      modifies this
      ensures experienceFilter == filter
      ensures currentPage == if filter != old(experienceFilter) then 1 else old(currentPage)
      ensures searchTerm == old(searchTerm) && professionFilter == old(professionFilter)
      ensures selectedResume == old(selectedResume) && isModalOpen == old(isModalOpen)
    {
      if filter != experienceFilter {
        currentPage := 1;
      }
      experienceFilter := filter;
    }

    /** Choosing a profession; a change sends the page back to 1. */
    method SetProfessionFilter(filter: string)
      modifies this
      ensures professionFilter == filter
      ensures currentPage == if filter != old(professionFilter) then 1 else old(currentPage)
      ensures searchTerm == old(searchTerm) && experienceFilter == old(experienceFilter)
      ensures selectedResume == old(selectedResume) && isModalOpen == old(isModalOpen)
    {
      if filter != professionFilter {
        currentPage := 1;
      }
      professionFilter := filter;
    }

    /** `clearFilters()`: back to the unfiltered first page; the dialog is left alone. */
    method ClearFilters()
      modifies this
      ensures searchTerm == "" && experienceFilter == "all" && professionFilter == "all"
      ensures currentPage == 1
      ensures selectedResume == old(selectedResume) && isModalOpen == old(isModalOpen)
    {
      searchTerm := "";
      experienceFilter := "all";
      professionFilter := "all";
      currentPage := 1;
    }

    /** The Previous button: one page back, never below page 1. */
    method PrevPage(totalPages: nat)
      modifies this
      ensures currentPage == if old(currentPage) > 1 then old(currentPage) - 1 else old(currentPage)
      ensures old(PageInRange(totalPages)) ==> PageInRange(totalPages)
      ensures CurrentFilters() == old(CurrentFilters())
      ensures selectedResume == old(selectedResume) && isModalOpen == old(isModalOpen)
    {
      if currentPage > 1 {
        currentPage := currentPage - 1;
      }
    }

    /** The Next button: one page on, never past the last page. */
    method NextPage(totalPages: nat)
      modifies this
      ensures currentPage == if old(currentPage) < totalPages then old(currentPage) + 1 else old(currentPage)
      ensures old(PageInRange(totalPages)) ==> PageInRange(totalPages)
      ensures CurrentFilters() == old(CurrentFilters())
      ensures selectedResume == old(selectedResume) && isModalOpen == old(isModalOpen)
    {
      if currentPage < totalPages {
        currentPage := currentPage + 1;
      }
    }

    /** A page button of the bar (ellipses have none); by `PaginationBounds`
        the page it names exists, so the page stays in range. */
    method GoToPage(totalPages: nat, item: PageItem)
      requires item in PaginationItems(totalPages, currentPage) && item.Page?
      modifies this
      ensures currentPage == item.n
      ensures PageInRange(totalPages)
      ensures CurrentFilters() == old(CurrentFilters())
      ensures selectedResume == old(selectedResume) && isModalOpen == old(isModalOpen)
    {
      PaginationBounds(totalPages, currentPage);
      currentPage := item.n;
    }

    /** `handleCardClick(resume)`: only a pro user gets the detail dialog. */
    method HandleCardClick(resume: RawNotionSaveResume, userRole: string)
      modifies this
      ensures userRole == ProRole ==> selectedResume == Some(resume) && isModalOpen
      ensures userRole != ProRole ==> selectedResume == old(selectedResume) && isModalOpen == old(isModalOpen)
      ensures CurrentFilters() == old(CurrentFilters()) && currentPage == old(currentPage)
    {
      if userRole == ProRole {
        selectedResume := Some(resume);
        isModalOpen := true;
      }
    }

    /** `closeModal()` */
    method CloseModal()
      modifies this
      ensures selectedResume == None && !isModalOpen
      ensures CurrentFilters() == old(CurrentFilters()) && currentPage == old(currentPage)
    {
      isModalOpen := false;
      selectedResume := None;
    }
  }
}
