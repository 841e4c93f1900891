# Chef-Dhundo, modelled in Dafny

Chef-Dhundo is a Next.js site that connects chefs with employers.
- Chefs submit a resume through a three-step wizard.
- Employers search and page through the submitted resumes.
- Paying users (role `pro`) can open a resume's full details.
- Signed-in chefs edit their own resume, one field at a time, on a dashboard.

Data lives in Notion databases: users, resumes and submitted resumes. Sign-in is handled by Clerk, and payments by the Cashfree gateway.

This project models the application's decision logic and proves properties of it:
- the Notion property wrappers and the three sets of decoders that read them;
- the three client stores (saved resumes, chef resumes, users), as classes whose methods change the store's fields;
- the role resolution in the navigation bar;
- the search, filter and pagination engine of the find-chefs page, including the loop that builds the page-number bar;
- the dashboard's owner lookup, field decoding and single-field edit;
- the resume wizard's step machine;
- the server routes, as request→response functions:
  - resume submission and listing;
  - order creation with the payment gateway;
  - the sign-up webhook;
- the plan table of the upgrade page;
- the home page carousel and search redirect.

JavaScript built-ins the code relies on are modelled in their own modules, with their JavaScript semantics:
- `JsString`: `toLowerCase`, `includes`, `startsWith`, `trim`, `replace`;
- `JsNumber`: `String(n)`, `Number(s)`, `parseInt`;
- `JsArray`: `find`, `filter`, `slice`, `Set` de-duplication, the default `sort`;
- `JsUri`: `encodeURIComponent`, and the reading back of what it writes (the part of `decodeURIComponent` the round trip needs).

Network calls, the Notion client, the gateway SDK and Clerk are not modelled. Their outcomes are parameters: `Remote.HttpOutcome` for the fetches, and booleans or small datatypes for the server-side calls.

Where the code and the documented intent differ, the model follows the code:
- `handleSaveField` clears the edit state and merges the value locally even when the remote update fails. `updateResume` catches its own errors, so the `catch` in the handler is unreachable.
- The navigation bar looks a user up by the first email whatever it is. The dashboard needs that email to be non-empty.
- The round trip from the resume-submission route to the decoders (`SaveResumeRoute.PostThenReadBack`) rests on an assumption that is not in the code: that Notion returns each written text fragment with `plain_text` equal to the written `content`. `SaveResumeRoute.StoredProperties` states it.
- `ClerkWebhookRoute.CreatedUserResolvesToBasic` rests on the same assumption about the title fragment, and on a second one that is not in the code: that the database the webhook writes to (setting `NOTION_RESUMEDB_ID`) is the one the user endpoint lists (setting `NOTION_USERDB_ID`). The lemma holds only when both settings name the same database. `ClerkWebhookRoute.StoredUser` states both assumptions.

## Model

| member | source | states |
|---|---|---|
| NotionProps.JoinPlainText | src/types/notion_database.ts:111 | the joined text is the fragments' `plain_text` laid end to end, each at the offset given by the lengths before it |
| NotionProps.ConcatenationUnique | src/types/notion_database.ts:111 | two texts that are both the concatenation of the same fragments are equal, so every `map(...).join('')` decoder agrees |
| NotionProps.SuffixIsConcatenation | src/types/notion_database.ts:111 | dropping the first fragment's text from a concatenation leaves the concatenation of the remaining fragments |
| NotionProps.JoinSingle | src/types/notion_database.ts:111 | a single fragment joins to its own `plain_text` |
| NotionProps.MapNames | src/types/notion_database.ts:123 | `map(item => item.name)` keeps the length and takes each item's name in order |
| NotionDatabase.ExtractPlainText | src/types/notion_database.ts:109-112 | `''` when the rich-text property or its array is missing; otherwise the concatenation of its fragments |
| NotionDatabase.ExtractTitleText | src/types/notion_database.ts:115-118 | `''` when the title or its array is missing; otherwise the concatenation of its fragments |
| NotionDatabase.ExtractMultiSelect | src/types/notion_database.ts:121-124 | `[]` when missing; otherwise the option names in order |
| NotionDatabase.ExtractSelect | src/types/notion_database.ts:127-130 | `''` when no option is selected; otherwise the option's name |
| NotionDatabase.ExtractFileUrl | src/types/notion_database.ts:133-136 | `''` when there is no file; otherwise its URL |
| NotionDatabase.ExtractDate | src/types/notion_database.ts:139-142 | `''` when there is no date; otherwise its start |
| NotionDatabase.ExtractPhoneNumber | src/types/notion_database.ts:145-148 | `''` when the phone number is missing; otherwise the number |
| Remote.CaughtMessage | src/store/saveResumeStore.ts:156 | a caught `Error` gives its message; any other thrown value gives the fallback text |
| Remote.FailureMessage | src/store/saveResumeStore.ts:146-157 | a non-ok response gives the action's own message; a throw gives the caught message |
| SaveResumeStore.Store.constructor | src/store/saveResumeStore.ts:133-139 | no resumes, not loading, no error, not updating |
| SaveResumeStore.Store.BeginFetch | src/store/saveResumeStore.ts:142 | loading with the error cleared, resumes and updating flag untouched |
| SaveResumeStore.Store.CompleteFetch | src/store/saveResumeStore.ts:143-159 | loading ends; an ok response replaces the resumes; a failure keeps them and records the failure message |
| SaveResumeStore.Store.FetchSavedResumes | src/store/saveResumeStore.ts:141-160 | requests `/api/saveResume`; on success the resumes are the response with no error; on a non-ok response or a throw the old resumes stay and the error says why; loading always ends |
| SaveResumeStore.Store.BeginUpdate | src/store/saveResumeStore.ts:163 | updating with the error cleared, resumes and loading untouched |
| SaveResumeStore.Store.CompleteUpdate | src/store/saveResumeStore.ts:164-193 | updating ends and the resumes stay; a failure records its message |
| SaveResumeStore.Store.UpdateResume | src/store/saveResumeStore.ts:162-193 | sends a PUT of exactly the given patch to `/api/saveResume/<id>`; never changes the resumes or loading flag; records success or the failure message and does not rethrow |
| SaveResumeStore.UpdateUrl | src/store/saveResumeStore.ts:168 | the endpoint of one resume, `/api/saveResume/<id>` |
| SaveResumeStore.Store.ClearError | src/store/saveResumeStore.ts:195-197 | the error is cleared and nothing else changes |
| SaveResumeStore.Store.ClearResumes | src/store/saveResumeStore.ts:199-201 | the resumes are emptied and nothing else changes |
| SaveResumeStore.ExtractTitleText | src/store/saveResumeStore.ts:216-219 | `''` when missing; otherwise the concatenation of the title fragments |
| SaveResumeStore.ExtractRichText | src/store/saveResumeStore.ts:221-224 | `''` when missing; otherwise the concatenation of the rich-text fragments |
| SaveResumeStore.ExtractSelectValue | src/store/saveResumeStore.ts:226-229 | `''` without a selected option; otherwise its name |
| SaveResumeStore.ExtractEmail | src/store/saveResumeStore.ts:231-234 | `''` without an email; otherwise the email |
| SaveResumeStore.ExtractPhoneNumber | src/store/saveResumeStore.ts:236-239 | `''` without a number; otherwise the number |
| SaveResumeStore.ExtractNumber | src/store/saveResumeStore.ts:241-244 | 0 without a number; otherwise the number |
| SaveResumeStore.ExtractCheckbox | src/store/saveResumeStore.ts:246-249 | false without the property; otherwise the checkbox value |
| ResumeStore.Store.constructor | src/store/resumeStore.ts:52-54 | no resumes, not loading, no error |
| ResumeStore.Store.FetchChefResumes | src/store/resumeStore.ts:56-75 | requests `/api/chef`; on success the resumes are the response; otherwise the old resumes stay and the error is "Failed to fetch resumes" or the caught message; loading ends |
| ResumeStore.Store.ClearError | src/store/resumeStore.ts:77-79 | the error is cleared and nothing else changes |
| ResumeStore.Store.ClearResumes | src/store/resumeStore.ts:81-83 | the resumes are emptied and nothing else changes |
| ResumeStore.ExtractPlainText | src/store/resumeStore.ts:6-9 | `''` when missing; otherwise the concatenation of the fragments |
| ResumeStore.ExtractTitleText | src/store/resumeStore.ts:11-14 | `''` when missing; otherwise the concatenation of the fragments |
| ResumeStore.ExtractSelect | src/store/resumeStore.ts:16-19 | `''` without a selected option; otherwise its name |
| ResumeStore.ExtractPhoneNumber | src/store/resumeStore.ts:21-24 | `''` without a number; otherwise the number |
| ResumeStore.ExtractMultiSelect | src/store/resumeStore.ts:26-29 | `[]` when missing; otherwise the option names in order |
| ResumeStore.ExtractNumber | src/store/resumeStore.ts:31-34 | 0 without a number; otherwise the number |
| ResumeStore.TextDecodersAgree | src/store/resumeStore.ts:6-14 | the three title decoders agree on every input, and so do the three rich-text decoders |
| ResumeStore.ScalarDecodersAgree | src/store/resumeStore.ts:16-34 | the select, phone and number decoders of the different files agree on every input |
| ResumeStore.SingleFragmentDecodes | src/store/resumeStore.ts:6-14 | a one-fragment title or rich text decodes to that fragment's text |
| UserStore.UserEmail | src/components/Navbar.tsx:42 | the stored email exactly when the email property and its value are present |
| UserStore.UserRoleName | src/components/Navbar.tsx:52 | the stored role name exactly when a role option is selected |
| UserStore.Store.constructor | src/store/userStore.ts:31-36 | no users, not loading, no error, role `basic`, role not loaded |
| UserStore.Store.FetchUsers | src/store/userStore.ts:38-57 | requests `/api/user`; on success the users are the response; otherwise the old users stay and the error is "Failed to fetch users" or the caught message; the role state is untouched |
| UserStore.Store.SetCurrentUserRole | src/store/userStore.ts:59-62 | the role is the given one and nothing else changes |
| UserStore.Store.SetRoleLoaded | src/store/userStore.ts:64-67 | the loaded flag is the given one and nothing else changes |
| UserStore.Store.ClearError | src/store/userStore.ts:69-71 | the error is cleared and nothing else changes |
| UserStore.Store.ClearUsers | src/store/userStore.ts:73-75 | the users are emptied and nothing else changes |
| UserStore.Store.ClearCurrentUser | src/store/userStore.ts:77-80 | the role is back to `basic` and not loaded; the users, loading flag and error stay |
| Navbar.FindUserByEmail | src/components/Navbar.tsx:40-45 | a found user has exactly that email and no earlier user does; nothing is found exactly when no user has it |
| Navbar.FirstMatchWins | src/components/Navbar.tsx:40-45 | when several users share the email, the first of them is returned |
| Navbar.ResolvedRole | src/components/Navbar.tsx:47-60 | never empty: the matched user's non-empty role, otherwise `basic` |
| Navbar.ResolveRole | src/components/Navbar.tsx:29-63 | with users loaded and an identity email, the role becomes the first match's role or `basic` and is marked loaded; otherwise nothing changes; the users and error are untouched |
| Navbar.SignOutReset | src/components/Navbar.tsx:76-82 | signed out: role `basic` and not loaded; signed in: unchanged |
| Navbar.RoleBadge | src/components/Navbar.tsx:130-137 | no badge unless signed in with the role loaded; Pro exactly for the role `pro`, Basic for every other role |
| Navbar.EmailMatchIsCaseSensitive | src/components/Navbar.tsx:40-45 | a `pro` user stored as `A@x.com` is not found for `a@x.com`, who resolves to `basic` |
| FindChefs.FilterChefs | src/app/findchefs/page.tsx:210-255 | never longer than the input |
| FindChefs.MatchesSearch | src/app/findchefs/page.tsx:219-226 | the search condition: an empty term matches every resume, and so does a name containing the term in any case |
| FindChefs.MatchesExperience | src/app/findchefs/page.tsx:229-245 | the experience condition: any value other than the four band names restricts nothing |
| FindChefs.MatchesProfession | src/app/findchefs/page.tsx:247-250 | the profession condition: `all` and the resume's own job type always match |
| FindChefs.Matches | src/app/findchefs/page.tsx:253 | all three conditions; the initial filters match every resume |
| FindChefs.FilterChefsInOrder | src/app/findchefs/page.tsx:210-255 | the filtered list is an order-preserving subsequence of the resumes |
| FindChefs.FilterChefsExactly | src/app/findchefs/page.tsx:210-255 | each resume occurs in the result as often as in the input when it matches all three conditions, and not at all otherwise |
| FindChefs.FilterChefsStaged | src/app/findchefs/page.tsx:253 | filtering by the conjunction equals filtering by search, then experience, then profession, the order the source writes the three conditions |
| FindChefs.SearchIgnoresTermCase | src/app/findchefs/page.tsx:219-226 | the search term matches the same resumes whatever its case |
| FindChefs.DefaultFiltersKeepEverything | src/app/findchefs/page.tsx:73-75 | the initial filters keep every resume in order |
| FindChefs.ExperienceBand | src/app/findchefs/page.tsx:229-245 | every year count falls in one of the four bands |
| FindChefs.ExperienceBandsPartition | src/app/findchefs/page.tsx:229-245 | a band filter matches exactly the years of its band, so the bands do not overlap; a missing year count (read as 0) is a fresher |
| FindChefs.TotalPages | src/app/findchefs/page.tsx:258 | `ceil(n / 12)`: the pages hold every result and none is empty |
| FindChefs.PageSlice | src/app/findchefs/page.tsx:259-261 | at most 12 results, and for a page from 1 on exactly the results from `(page-1)*12` up to the next 12 |
| FindChefs.PageSliceWithin | src/app/findchefs/page.tsx:259-261 | a page holds only filtered results |
| FindChefs.PagesFromIsSuffix | src/app/findchefs/page.tsx:258-261 | the pages from a given one to the last, laid end to end, are the results from that page's start |
| FindChefs.PagesPartition | src/app/findchefs/page.tsx:258-261 | the pages 1 to the last, laid end to end, are exactly the filtered results |
| FindChefs.PageRange | src/app/findchefs/page.tsx:280-282 | the pages `lo` to `hi` in order |
| FindChefs.PaginationItems | src/app/findchefs/page.tsx:274-312 | the page-number bar in closed form: all pages when there are at most five; otherwise page 1, an ellipsis after page 3, the neighbours of the current page, an ellipsis before the last two pages, and the last page |
| FindChefs.GeneratePaginationItems | src/app/findchefs/page.tsx:274-312 | the loops build exactly the page bar `PaginationItems` describes |
| FindChefs.PaginationSmall | src/app/findchefs/page.tsx:278-282 | with at most five pages, the bar lists pages 1 to the last |
| FindChefs.PaginationBounds | src/app/findchefs/page.tsx:274-312 | every page number in the bar is a real page; with more than five pages the bar starts at 1 and ends at the last page |
| FindChefs.PaginationIncreasing | src/app/findchefs/page.tsx:274-312 | the page numbers in the bar strictly increase |
| FindChefs.PaginationIncludesCurrent | src/app/findchefs/page.tsx:274-312 | a current page in range always appears in the bar |
| FindChefs.PaginationEllipses | src/app/findchefs/page.tsx:287-303 | the leading ellipsis appears exactly when there are more than five pages and the current page is past 3; the trailing one exactly when the current page is more than two before the last |
| FindChefs.JobTypes | src/app/findchefs/page.tsx:317-318 | each resume's job type, in order |
| FindChefs.UniqueProfessions | src/app/findchefs/page.tsx:315-324 | the non-empty job types, de-duplicated and sorted; its properties are stated by `UniqueProfessionsSpec` |
| FindChefs.UniqueProfessionsSpec | src/app/findchefs/page.tsx:315-324 | the professions list is strictly sorted, has no empty entry, and holds exactly the non-empty job types of the resumes |
| FindChefs.FindChefsView.CurrentFilters | src/app/findchefs/page.tsx:73-75 | the three filter fields of the page |
| FindChefs.FindChefsView.CurrentChefs | src/app/findchefs/page.tsx:261 | at most 12 resumes, all of them filtered results |
| FindChefs.FindChefsView.constructor | src/app/findchefs/page.tsx:73-79 | empty search, both filters `all`, page 1, no resume selected, modal closed |
| FindChefs.FindChefsView.SetSearchTerm | src/app/findchefs/page.tsx:264-266 | the new term; back to page 1 exactly when the term changed |
| FindChefs.FindChefsView.SetExperienceFilter | src/app/findchefs/page.tsx:264-266 | the new filter; back to page 1 exactly when it changed |
| FindChefs.FindChefsView.SetProfessionFilter | src/app/findchefs/page.tsx:264-266 | the new filter; back to page 1 exactly when it changed |
| FindChefs.FindChefsView.ClearFilters | src/app/findchefs/page.tsx:85-90 | empty search, both filters `all`, page 1 |
| FindChefs.FindChefsView.PrevPage | src/app/findchefs/page.tsx:738-743 | one page back unless on page 1; stays within the pages |
| FindChefs.FindChefsView.NextPage | src/app/findchefs/page.tsx:780-785 | one page on unless on the last; stays within the pages |
| FindChefs.FindChefsView.GoToPage | src/app/findchefs/page.tsx:753-765 | clicking a page number of the bar goes to that page, which is within the pages |
| FindChefs.FindChefsView.HandleCardClick | src/app/findchefs/page.tsx:99-104 | a `pro` user opens the resume in the modal; anyone else changes nothing |
| FindChefs.FindChefsView.CloseModal | src/app/findchefs/page.tsx:107-110 | the modal is closed with no resume selected |
| Dashboard.GetUserName | src/app/dashboard/page.tsx:62-65 | the first title fragment's text, or `''` |
| Dashboard.GetUserEmail | src/app/dashboard/page.tsx:67-69 | the stored email, or `''` |
| Dashboard.GetUserRole | src/app/dashboard/page.tsx:71-73 | the stored role, or `''` |
| Dashboard.GetIsChef | src/app/dashboard/page.tsx:79-81 | the stored chef flag, or `''` |
| Dashboard.FirstText | src/app/dashboard/page.tsx:171 | the first fragment's text, or `''` without fragments |
| Dashboard.FirstTextOrUndefined | src/app/dashboard/page.tsx:184 | the first fragment's text, or `undefined` without fragments |
| Dashboard.RawNumber | src/app/dashboard/page.tsx:175 | the number, or `undefined` when it is missing |
| Dashboard.ProcessResumeData | src/app/dashboard/page.tsx:169-191 | the shown resume has exactly the nineteen fields, each decoded from its own property |
| Dashboard.ProcessField | src/app/dashboard/page.tsx:169-191 | one field as the dashboard decodes it: only the two numbers and the passport number can be `undefined`, and exactly the two checkboxes are booleans |
| Dashboard.StoreField | src/store/saveResumeStore.ts:216-248 | one field as the store's decoders read it: never `undefined` or `NaN`, and exactly the two checkboxes are booleans |
| Dashboard.ProcessResumeDataDefaults | src/app/dashboard/page.tsx:169-191 | without properties every text is `''`, both checkboxes are false, and age, years and passport number are `undefined` |
| Dashboard.ProcessAgreesOnSingleFragments | src/app/dashboard/page.tsx:169-191 | with at most one fragment per text, the dashboard decodes every field as the store does, except that age, years and passport number may be `undefined` where the store reads a falsy 0 or `''` |
| Dashboard.TextAgrees | src/app/dashboard/page.tsx:171 | with at most one fragment, the first fragment's text is the joined text |
| Dashboard.ProcessDropsLaterFragments | src/app/dashboard/page.tsx:171 | a name stored as "Ra" + "vi" shows as "Ra" on the dashboard and "Ravi" in the store |
| Dashboard.MatchingResume | src/app/dashboard/page.tsx:133-137 | a found resume has the email and no earlier one does; none is found exactly when no resume has it |
| Dashboard.DashboardPage.constructor | src/app/dashboard/page.tsx:55-59 | no user, no resume, no edit, no pending values, no resume id |
| Dashboard.DashboardPage.MatchCurrentUser | src/app/dashboard/page.tsx:98-117 | with a non-empty identity email and users loaded, the current user is the first user with that email, or none; otherwise unchanged |
| Dashboard.DashboardPage.ShouldFetchResumes | src/app/dashboard/page.tsx:121 | the fetch condition: a current user whose chef flag is exactly `yes` |
| Dashboard.DashboardPage.FetchResumesEffect | src/app/dashboard/page.tsx:120-125 | the saved resumes are requested exactly when `ShouldFetchResumes` holds, with the store's new state for each outcome as `FetchSavedResumes` gives it; otherwise the store is untouched |
| Dashboard.DashboardPage.MatchResume | src/app/dashboard/page.tsx:128-150 | for a chef (`yes`) with resumes loaded, the shown resume is the first one with the user's email, decoded, with its id; without a match both are cleared; otherwise nothing changes |
| Dashboard.DashboardPage.HandleEditField | src/app/dashboard/page.tsx:193-196 | the field is being edited and the pending values are just that field's value |
| Dashboard.DashboardPage.SetPendingValue | src/app/dashboard/page.tsx:244 | the field's pending value is replaced and the rest is kept |
| Dashboard.DashboardPage.HandleCancelEdit | src/app/dashboard/page.tsx:198-201 | no field is being edited and nothing is pending |
| Dashboard.DashboardPage.HandleSaveField | src/app/dashboard/page.tsx:203-229 | without a resume id or with a falsy value nothing is sent and the store is untouched; otherwise exactly the one-field patch is sent and merged into the shown resume, and the store ends not updating, with no error after success and the failure's message otherwise; the edit ends either way |
| Dashboard.NumberInput | src/app/dashboard/page.tsx:278 | the number the text reads as, or `NaN` |
| Dashboard.ClearedNumberInputIsFalsy | src/app/dashboard/page.tsx:204-278 | a cleared number input holds 0, which is falsy, as are `''` and false, so none of them can be saved |
| Dashboard.LetteredInputIsFalsy | src/app/dashboard/page.tsx:204-278 | a number input holding letters is `NaN`, which is falsy |
| SubmitResume.YearsInput | src/components/submitResume.tsx:54 | an empty input stays `''`; any other input is the number it reads as, or `NaN` |
| SubmitResume.YearsInputOfNumber | src/components/submitResume.tsx:54 | typing the decimal form of a whole number stores that number |
| SubmitResume.WithInput | src/components/submitResume.tsx:50-56 | a text input reads back what was typed; the years input stores `YearsInput` of it |
| SubmitResume.WithSelect | src/components/submitResume.tsx:58-60 | a drop-down change leaves every text input, the years and the consent as they were |
| SubmitResume.StepOneComplete | src/components/submitResume.tsx:67-74 | step 1's required fields are filled; the initial form never has them |
| SubmitResume.StepTwoComplete | src/components/submitResume.tsx:75-82 | step 2's required fields are filled, the years being a non-zero number; the initial form never has them |
| SubmitResume.WithInputWritesOneField | src/components/submitResume.tsx:50-56 | an input change writes its own field as typed (years as `YearsInput`) and leaves every other field alone |
| SubmitResume.ZeroYearsBlocksStepTwo | src/components/submitResume.tsx:77 | a blank years input, or one whose text reads as 0, can never pass the second step |
| SubmitResume.Wizard.constructor | src/components/submitResume.tsx:21-48 | step 1 with the initial form |
| SubmitResume.Wizard.HandleInputChange | src/components/submitResume.tsx:50-56 | the form with that input written; the step is unchanged |
| SubmitResume.Wizard.HandleSelectChange | src/components/submitResume.tsx:58-60 | the form with that drop-down written; the step is unchanged |
| SubmitResume.Wizard.HandleFileChange | src/components/submitResume.tsx:62-65 | the first chosen file, or none |
| SubmitResume.Wizard.SetProbationPeriod | src/components/submitResume.tsx:411-421 | only the probation flag changes |
| SubmitResume.Wizard.SetCandidateConsent | src/components/submitResume.tsx:478-480 | only the consent flag changes |
| SubmitResume.Wizard.HandleNext | src/components/submitResume.tsx:67-83 | from step 1 to 2 exactly when the step-1 fields are filled, from 2 to 3 exactly when the step-2 fields are; the form is untouched and the step stays within 1 to 3 |
| SubmitResume.Wizard.Previous | src/components/submitResume.tsx:368-506 | one step back, the form untouched |
| SubmitResume.Wizard.HandleSubmit | src/components/submitResume.tsx:85-144 | nothing is submitted without consent; otherwise the form is submitted, and only a successful save resets the form and returns to step 1 |
| SaveResumeRoute.Get | src/app/api/saveResume/route.ts:7-32 | a missing key or database id gives 500 "Server configuration error"; otherwise the query results, or 500 when the query fails |
| SaveResumeRoute.WrittenNumber | src/app/api/saveResume/route.ts:75-79 | a falsy value is written as null; a truthy one as its `Number` value |
| SaveResumeRoute.PropertyBag | src/app/api/saveResume/route.ts:70-90 | each text is written as one fragment with its content, numbers through `WrittenNumber`, every other field as submitted |
| SaveResumeRoute.Post | src/app/api/saveResume/route.ts:34-101 | missing credentials give 500 before anything is read; an unreadable body or a failed write give 500; otherwise the page is created from the property bag and the answer is success |
| SaveResumeRoute.Fragments | src/app/api/saveResume/route.ts:71 | one read-back fragment per written one, with `plain_text` equal to the content |
| SaveResumeRoute.PostThenReadBack | src/app/api/saveResume/route.ts:70-90 | what is written reads back through the store's decoders as submitted (numbers as their written value, or 0) |
| SaveResumeRoute.ReadBackOne | src/app/api/saveResume/route.ts:71 | one written fragment reads back as its content |
| SaveResumeRoute.NumberTextReadsBack | src/app/api/saveResume/route.ts:79 | a non-zero whole number submitted as text is written as that number |
| CreateOrderRoute.AmountValidIff | src/app/api/payment/create-order/route.ts:9 | the `!amount` test adds nothing to `amount < 1`: an amount is refused exactly when it is missing or below 1, and accepted exactly when it is a number of at least 1 |
| CreateOrderRoute.AmountFalsy | src/app/api/payment/create-order/route.ts:9 | `!amount`: the amount is missing or the number 0 |
| CreateOrderRoute.AmountInvalid | src/app/api/payment/create-order/route.ts:9 | `!amount \|\| amount < 1` as written, with `!amount` the falsiness test `AmountFalsy`; `AmountValidIff` characterises it and `CreateOrder` answers 400 for it before looking at credentials |
| CreateOrderRoute.AppUrlRejected | src/app/api/payment/create-order/route.ts:47 | the configured URL is missing, empty, or names the gateway's domain |
| CreateOrderRoute.IsTestCredentials | src/app/api/payment/create-order/route.ts:61 | the client id starts with `TEST_` or the secret with `cfsk_test_` |
| CreateOrderRoute.HttpLocalhostRejected | src/app/api/payment/create-order/route.ts:85 | production credentials with a non-empty `http://` URL that contains `localhost` |
| CreateOrderRoute.GatewayApiDomainIsCovered | src/app/api/payment/create-order/route.ts:47 | a URL containing `api.cashfree.com` contains `cashfree.com`, so the second test adds nothing |
| CreateOrderRoute.FinalAppUrl | src/app/api/payment/create-order/route.ts:46-57 | never empty; the configured URL unless it is missing or names the gateway; then the deployment host over HTTPS, else the fixed fallback |
| CreateOrderRoute.BuildOrder | src/app/api/payment/create-order/route.ts:118-137 | the amount in INR with the order id as customer id; the return and notify URLs are the app URL followed by their paths; the note and tags carry the plan |
| CreateOrderRoute.FallbackReturnUrlHasDoubleSlash | src/app/api/payment/create-order/route.ts:54-128 | with the fixed fallback the return URL has two slashes between host and path |
| CreateOrderRoute.MapGatewayError | src/app/api/payment/create-order/route.ts:163-207 | a gateway 401 or 400 keeps its status; every other error is a 500 |
| CreateOrderRoute.CreateOrder | src/app/api/payment/create-order/route.ts:4-208 | an unreadable body or missing credentials give 500, an invalid amount 400, all without a gateway call; with a valid amount and credentials the gateway is called exactly when the request is not production with an HTTP localhost URL, which otherwise gets 400; the call goes to the sandbox exactly for test credentials, with the order `BuildOrder` makes; the order is created exactly when the gateway succeeds, returning the order id and session; a gateway failure gives the mapped error |
| CreateOrderRoute.HttpLocalhostRefusedBeforeGateway | src/app/api/payment/create-order/route.ts:85-106 | production credentials with an `http://` app URL that contains `localhost` anywhere get 400 and no gateway call |
| ClerkWebhookRoute.OrEmpty | src/app/api/clerk-webhook/route.ts:18 | `v \|\| ""` |
| ClerkWebhookRoute.FullName | src/app/api/clerk-webhook/route.ts:17-18 | first and last name joined by a space and trimmed |
| ClerkWebhookRoute.DisplayName | src/app/api/clerk-webhook/route.ts:17-20 | never empty: the trimmed full name, else the username, else "Unnamed User" |
| ClerkWebhookRoute.DisplayNameOfFullName | src/app/api/clerk-webhook/route.ts:17-18 | names without surrounding white space give exactly "first last" |
| ClerkWebhookRoute.DisplayNameWithoutNames | src/app/api/clerk-webhook/route.ts:17-20 | without either name, the username or the placeholder |
| ClerkWebhookRoute.PrimaryEmail | src/app/api/clerk-webhook/route.ts:21 | never empty: the first address, or "no-email" |
| ClerkWebhookRoute.NewUser | src/app/api/clerk-webhook/route.ts:24-32 | the written page has a non-empty name and email, role `basic` and chef `no` |
| ClerkWebhookRoute.HandleWebhook | src/app/api/clerk-webhook/route.ts:8-40 | acknowledged exactly when the event is read and is not a sign-up, or is a sign-up with data whose write succeeds; a page is written exactly for a sign-up with data |
| ClerkWebhookRoute.CreatedUserResolvesToBasic | src/app/api/clerk-webhook/route.ts:24-32 | if the user list holds the written page as `StoredUser` reads it back, the new user is found by its email and shown as `basic` in the navigation bar; this needs the webhook's database and the user endpoint's to be the same |
| UpgradePage.PlanIdsDistinct | src/app/upgrade/page.tsx:13-90 | the plan ids are pairwise distinct |
| UpgradePage.FindPlan | src/app/upgrade/page.tsx:247 | a found plan is in the table with that id; none is found exactly when no plan has it |
| UpgradePage.FindPlanById | src/app/upgrade/page.tsx:247 | each plan is found by its own id |
| UpgradePage.PriceAmount | src/app/upgrade/page.tsx:247 | without a plan the amount is `parseInt('0')`, that is 0 |
| UpgradePage.PlanAmount | src/app/upgrade/page.tsx:247 | an id outside the table is charged 0 |
| UpgradePage.PlanName | src/app/upgrade/page.tsx:248 | the found plan's name, or `''` |
| UpgradePage.AmountOfPrice | src/app/upgrade/page.tsx:247 | a price of `₹` followed by the digits of `n` is charged as `n` |
| UpgradePage.PlanPrices | src/app/upgrade/page.tsx:13-90 | the four prices are `₹` followed by 99, 300, 500 and 900 |
| UpgradePage.PlanAmounts | src/app/upgrade/page.tsx:247 | the four plans are charged 99, 300, 500 and 900 |
| UpgradePage.PlanPriceOf | src/app/upgrade/page.tsx:13-90 | each plan's price is `₹` followed by the decimal digits of its rupee amount |
| UpgradePage.PlanAmountAtLeastOne | src/app/upgrade/page.tsx:247 | every plan in the table is charged a whole number of at least 1 |
| UpgradePage.UnknownPlan | src/app/upgrade/page.tsx:247-248 | an unknown id gives amount 0 and name `''` |
| UpgradePage.UpgradeView.constructor | src/app/upgrade/page.tsx:93-94 | no plan selected, the pricing table hidden |
| UpgradePage.UpgradeView.HandlePlanSelect | src/app/upgrade/page.tsx:96-98 | the given plan is selected and nothing else changes |
| UpgradePage.UpgradeView.TogglePricingTable | src/app/upgrade/page.tsx:277 | the pricing table's visibility flips and nothing else changes |
| UpgradePage.UpgradeView.Payment | src/app/upgrade/page.tsx:239-258 | the payment component is rendered exactly while a plan is selected, with that plan's id, name and amount |
| UpgradePage.EveryPlanPassesAmountCheck | src/app/upgrade/page.tsx:247 | every plan in the table is charged a whole number of at least 1, which the create-order route accepts |
| HomePage.CeilDiv | src/app/page.tsx:75 | `Math.ceil(a / b)`: the least count of groups of `b` that holds `a` |
| HomePage.SlideGroups | src/app/page.tsx:42-75 | five chef types in groups of three make two slide groups |
| HomePage.JsRem | src/app/page.tsx:75 | JavaScript's `%`: the usual remainder for a non-negative dividend |
| HomePage.NextIndex | src/app/page.tsx:81-83 | `(prev + 1) % groups`; `StepsStayInRange` and `NextCycles` state its meaning |
| HomePage.PrevIndex | src/app/page.tsx:85-87 | `(prev - 1 + groups) % groups`; `StepsStayInRange` and `PrevUndoesNext` state its meaning |
| HomePage.StepsStayInRange | src/app/page.tsx:81-87 | both steps keep the slide index among the groups and are `(s+1) mod n` and `(s-1+n) mod n` |
| HomePage.PrevUndoesNext | src/app/page.tsx:81-87 | the previous step undoes the next step and the other way round |
| HomePage.NextCycles | src/app/page.tsx:81-83 | `k` next steps from `s` land on `(s+k) mod n` |
| HomePage.Carousel.constructor | src/app/page.tsx:18-19 | the first group, not mobile |
| HomePage.Carousel.CheckMobile | src/app/page.tsx:32-34 | mobile exactly below 768 pixels; the slide is unchanged |
| HomePage.Carousel.NextSlide | src/app/page.tsx:81-83 | the next-slide step, staying in range |
| HomePage.Carousel.PrevSlide | src/app/page.tsx:85-87 | the previous-slide step, staying in range |
| HomePage.Carousel.AutoAdvanceTick | src/app/page.tsx:71-79 | on mobile nothing moves; otherwise the next-slide step |
| HomePage.Carousel.SelectDot | src/app/page.tsx:290-293 | the slide is the dot's index, which is in range |
| HomePage.SearchRedirect | src/app/page.tsx:172-180 | a non-empty search goes to `/findchef?search=` plus the encoded text; an empty one to `/findchef` |
| HomePage.SearchRedirectCarriesQuery | src/app/page.tsx:176 | the `search` value decodes back to the typed text and holds no `&`, `#` or space |
| JsString.ToLowerIdempotent | src/app/findchefs/page.tsx:221-226 | lower-casing twice is lower-casing once |
| JsString.ToLower | src/app/findchefs/page.tsx:221-226 | `toLowerCase` on ASCII letters, keeping the length |
| JsString.Includes | src/app/findchefs/page.tsx:221-226 | `includes`: the text occurs at some offset |
| JsString.StartsWith | src/app/api/payment/create-order/route.ts:61 | `startsWith`: the prefix is the text's head |
| JsString.Trim | src/app/api/clerk-webhook/route.ts:18 | `trim`: `TrimEnd` of `TrimStart`, characterised by `TrimIsInfix` and `TrimEmptyIffBlank` |
| JsString.IncludesTransitive | src/app/api/payment/create-order/route.ts:47 | what occurs in a part of a text occurs in the text |
| JsString.StartsWithIncludes | src/app/api/payment/create-order/route.ts:85 | a prefix occurs in the text |
| JsString.TrimStart | src/app/api/clerk-webhook/route.ts:18 | a suffix of the input, with only white space removed and none left at its head |
| JsString.TrimEnd | src/app/api/clerk-webhook/route.ts:18 | a prefix of the input, with only white space removed and none left at its end |
| JsString.TrimIsInfix | src/app/api/clerk-webhook/route.ts:18 | `trim` returns a contiguous piece of its input, with white space only around it and none at its ends |
| JsString.TrimEmptyIffBlank | src/app/api/clerk-webhook/route.ts:18-20 | `trim` gives `''` exactly for all-white-space input |
| JsString.ReplaceFirst | src/app/upgrade/page.tsx:247 | without the character the text is unchanged; with it one character is replaced |
| JsString.ReplaceFirstAt | src/app/upgrade/page.tsx:247 | the first occurrence is the one replaced, with everything around it kept |
| JsNumber.NatToString | src/app/findchefs/page.tsx:224 | the decimal digits, without a leading zero |
| JsNumber.IntToString | src/app/findchefs/page.tsx:224 | digits, with a minus sign for a negative number |
| JsNumber.DigitsValueOfNatToString | src/app/findchefs/page.tsx:224 | reading back the digits of `n` gives `n` |
| JsNumber.StringToNumberOfIntToString | src/components/submitResume.tsx:54 | `Number(String(n)) == n` |
| JsNumber.StringToNumber | src/components/submitResume.tsx:54 | `Number(s)` on whole decimal numbers: blank text is 0, anything unreadable is `NaN`; `StringToNumberOfIntToString` is its round trip |
| JsNumber.ParseInt | src/app/upgrade/page.tsx:247 | `parseInt`: leading white space and one sign skipped, then the leading digits, or `NaN` without any; `ParseIntIgnoresSuffix` states its meaning |
| JsNumber.DigitPrefix | src/app/upgrade/page.tsx:247 | the longest run of digits at the head of the text |
| JsNumber.ParseIntIgnoresSuffix | src/app/upgrade/page.tsx:247 | `parseInt` reads the digits of `n` as `n`, ignoring what follows them |
| JsArray.Find | src/components/Navbar.tsx:40 | the first element satisfying the test, or none exactly when no element does |
| JsArray.FindIsFirst | src/components/Navbar.tsx:40 | the element at the first satisfying position is the one found |
| JsArray.Filter | src/app/findchefs/page.tsx:211 | `filter`, never longer than its input; `FilterIsSubsequence` and `FilterCount` state its meaning |
| JsArray.FilterIsSubsequence | src/app/findchefs/page.tsx:211 | `filter` keeps an order-preserving subsequence |
| JsArray.FilterCount | src/app/findchefs/page.tsx:211 | each element is kept as often as it occurs when it passes, and dropped otherwise |
| JsArray.FilterThree | src/app/findchefs/page.tsx:253 | filtering by a three-way conjunction is filtering by each part in turn |
| JsArray.Slice | src/app/findchefs/page.tsx:261 | `slice` with JavaScript's clamping of its bounds |
| JsArray.Distinct | src/app/findchefs/page.tsx:316-322 | a `Set` keeps each element once, the same elements, ordered by where each first appears in the input |
| JsArray.SortStrings | src/app/findchefs/page.tsx:323 | the default `sort` of strings is a sorted permutation |
| JsArray.SortDistinct | src/app/findchefs/page.tsx:323 | sorting distinct strings gives a strictly sorted list |
| JsUri.EncodeUriComponent | src/app/page.tsx:176 | only unreserved characters and `%` remain |
| JsUri.EncodeUnreservedIsIdentity | src/app/page.tsx:176 | a text of unreserved characters is left unchanged |
| JsUri.DecodeOfEncode | src/app/page.tsx:176 | the escapes of the encoding read back as the text's UTF-8 bytes |
| JsUri.DecodeUtf8OfUtf8All | src/app/page.tsx:176 | the UTF-8 bytes of a text read back as the text |
| JsUri.DecodeUriComponent | src/app/page.tsx:176 | reads back `encodeURIComponent`'s output: escapes as bytes, bytes as UTF-8 |
| JsUri.DecodeUriOfEncode | src/app/page.tsx:176 | `decodeURIComponent(encodeURIComponent(s)) == s` |

## Left out

- Network, Notion, Clerk and gateway calls: their outcomes are parameters. The interleaving of overlapping fetches is not modelled. Each store action is the start step followed by the completion step.
- JSX rendering, styling, animation, toasts, `window.scrollTo`, `localStorage`, router navigation, console logging and the static pages.
- Timers: the carousel's four-second interval is modelled as one tick (`HomePage.Carousel.AutoAdvanceTick`). The post-payment redirect timeout is not modelled.
- `maskEmail` and `maskPhone`, `@/lib/chef-store` and `@/lib/useResumeStore`: their source is not part of this model. `updateChefDetails` in the wizard's submit is not modelled for the same reason.
- `src/app/api/payment/webhook/route.ts`, `src/app/api/user/route.ts` and `src/app/api/saveResume/[id]/route.ts`: not part of this model.
- Order-id generation from `Date.now()` and `Math.random()`: the order id is a parameter of `CreateOrderRoute.CreateOrder`.
- The credential-mismatch warnings of the create-order route: they only log.
- JsString.ToLower: lower-cases ASCII letters only, not the full Unicode case mapping of `toLowerCase`.
- JsArray.SortStrings: compares characters as Unicode scalar values. JavaScript compares UTF-16 code units, and the two orders differ only above U+FFFF.
- Numbers are whole numbers (`int`). Fractions, exponents, `Infinity`, hexadecimal `parseInt` input and number formatting are not modelled.
- JsNumber.StringToNumber: reads decimal text only. `Number` also reads `0x`, `0b` and `0o` prefixes ("0x1A" is 26), which the model reads as `NaN`. Such text can reach `Number` in the wizard's years input, the dashboard's number inputs and the resume-submission route. The create-order amount is a `real`, so fractional amounts are covered there.
- Dashboard.ProcessResumeData: `null` and `undefined` are both modelled as a missing property.
- SubmitResume.Wizard.HandleInputChange: the checkbox branch (`type === 'checkbox'`) is not modelled, because no checkbox of the wizard uses this handler. The two checkboxes have their own setters.
- SaveResumeRoute.Post: the submitted fields are assumed present, with the types the wizard sends. A body of another shape is not modelled.
- CreateOrderRoute.CreateOrder: `amount` is assumed to be a number or missing. A string amount, which JavaScript would compare by coercion, is not modelled.
- JsUri.DecodeUriComponent: accepts only what `encodeURIComponent` writes: unreserved characters and escapes with upper-case hexadecimal digits. `decodeURIComponent` also accepts lower-case hexadecimal digits and unescaped reserved characters, which the model reads as malformed. The application never calls `decodeURIComponent`; the function is the partner of the encoder.
- JsUri.EncodeUriComponent: Dafny characters are Unicode scalar values, so the `URIError` that `encodeURIComponent` throws on a lone surrogate cannot arise.
- Dashboard.DashboardPage.HandleEditField: requires a field other than the email. The page never offers an edit button for the email; the handler itself does not check.
- FindChefs.FindChefsView.CurrentChefs: states membership in the filtered results and the page size. `FindChefs.PageSlice` states which slice the page is.
- The home-page search sends visitors to `/findchef`, while the search page of this model is `src/app/findchefs/page.tsx`, which does not read the `search` parameter. Any route that serves `/findchef` is not part of this model.
