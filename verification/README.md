# ESG data dashboard: the processing core in Dafny

The dashboard is a React page. A user picks ESG data sources from a fixed
catalog, and those sources are turned into mock files. A timer-driven
simulation then walks four "AI processing" steps. Once it finishes, a GRESB
mapping preview appears with a text search and tabs.

This project models the four places where that page holds real logic:

- `IndexPage` (`index_page.dfy`) models the page component.
  - The `Dashboard` class holds the page state and the interval callback's closure variables (`step`, `progress`).
  - It also records whether the interval is still scheduled.
  - Its `Tick` method is one firing of the callback, and `RunToCompletion` fires it until the interval clears itself.
  - The pure `Simulation`/`Next`/`Ticks` definitions specify those methods. The lemmas prove run length, bounds and monotonicity about them.
- `AiProcessing` (`ai_processing.dfy`) models the processing card.
  - It derives the four steps' status and progress from `currentStep` and `processingProgress`.
  - It also models the percentage label, the status style, the render guard and the "almost complete" banner.
- `MappingPreview` (`mapping_preview.dfy`) models the preview card.
  - It covers the hard-coded mapping records and the case-insensitive search over three of their fields.
  - It covers the "Matched" and "Issues" sub-views and the status counts and tab labels.
- `DataUpload` (`data_upload.dfy`) models the source picker.
  - It covers the catalog and the toggle on the selected ids.
  - The `SourcePicker` class holds the selection.
  - The "Process Sources" action either emits an error notice or hands one mock file per selected id to the page.
- Three support modules:
  - `Text` (`text.dfy`) provides the JavaScript string operations the code uses: `toLowerCase`, `includes`, and decimal rendering in template literals.
  - `Seqs` (`seqs.dfy`) provides `Array.prototype.filter` and its laws.
  - `Wrappers` (`wrappers.dfy`) provides `Option`.

Toasts are modelled as events or counters. The picker's `processSelectedSources` returns the events it would raise, in order: `Upload(files)` for the `onUpload` call, then `Toast(notice)`. The dashboard counts the "Processing complete" toasts it raises.

Three facts about the code shape the model:

- The tab counts are taken over the whole record list, not over the search result (`MappingPreview.tsx:117-121`, `139-141`). `RenderPreview` and `MockTabLabels` state this.
- The only filter on the mapping records is the text search.
- The picker builds its files from a fixed catalog and checks no MIME type.

The "Process Sources" button is rendered only while the selection is non-empty (`DataUpload.tsx:132-145`). So the empty-selection guard of `processSelectedSources` (`DataUpload.tsx:69-77`), which `ProcessSelectedSources` models, cannot be reached from the page as rendered.

A consequence that is worth knowing comes from the catalog as written. The "Sustainability Reports" source is described as PDF reports, but only the *name* is searched for "PDF". So it becomes `Sustainability Reports.xlsx` with the spreadsheet MIME type (`CatalogFileSourcesAreSpreadsheets`). The model records this as the code's behaviour. It does not claim it as a defect.

## Model

| member | source | states |
|---|---|---|
| Text.LowerChar | src/components/data-mapping/MappingPreview.tsx:112 | a lowered character is never upper case; capitals move up by 0x20, every other character is kept |
| Text.Lower | src/components/data-mapping/MappingPreview.tsx:112-114 | `toLowerCase` keeps the length and lowers each character in place |
| Text.LowerIdempotent | src/components/data-mapping/MappingPreview.tsx:112-114 | lowering twice equals lowering once |
| Text.Includes | src/components/data-mapping/MappingPreview.tsx:112-114 | definition of `includes`; property in Text.IncludesIff |
| Text.IncludesIff | src/components/data-mapping/MappingPreview.tsx:112-114 | `includes` holds exactly when the needle occurs as a contiguous slice at some index |
| Text.OccursAtShift | src/components/data-mapping/MappingPreview.tsx:112-114 | an occurrence in a string's tail is an occurrence one place further on in the string |
| Text.IncludesEmpty | src/components/data-mapping/MappingPreview.tsx:112-114 | every string includes the empty string |
| Text.IncludesNeedsFirstChar | src/components/data-upload/DataUpload.tsx:85 | a needle whose first character is absent from the string is not included |
| Text.NatToString | src/components/data-upload/DataUpload.tsx:94 | the decimal rendering is non-empty, all digits, with no leading zero |
| Text.IntToString | src/components/data-processing/AiProcessing.tsx:109 | the rendering of an integer is non-empty, starts with a minus exactly for negatives, and has no leading zero |
| Text.ParseNatToString | src/components/data-upload/DataUpload.tsx:94 | reading the rendered digits back gives the number |
| Text.ParseIntToString | src/components/data-processing/AiProcessing.tsx:109 | an integer's rendering is an optional minus and digits, and it reads back to the integer |
| Seqs.Filter | src/components/data-mapping/MappingPreview.tsx:111-115 | `filter` never lengthens the list |
| Seqs.FilterMembers | src/components/data-mapping/MappingPreview.tsx:111-115 | an element is in the filtered list exactly when it is in the list and the callback accepts it |
| Seqs.FilterIsSubsequence | src/components/data-mapping/MappingPreview.tsx:111-115 | the filtered list is an order-preserving subsequence of the list |
| Seqs.FilterCongruent | src/components/data-mapping/MappingPreview.tsx:111-115 | two callbacks that agree on the list's elements filter it identically |
| Seqs.FilterKeepsAll | src/components/data-mapping/MappingPreview.tsx:111-115 | a callback accepting every element returns the list unchanged |
| Seqs.FilterSplits | src/components/data-mapping/MappingPreview.tsx:213-253 | filtering with complementary callbacks splits the list's length between the two results |
| Seqs.FilterConcat | src/components/data-upload/DataUpload.tsx:62-64 | filtering a concatenation filters each part |
| Seqs.FilterNoDuplicates | src/components/data-upload/DataUpload.tsx:62 | filtering a duplicate-free list keeps it duplicate-free |
| Seqs.FilterDeletesIndex | src/components/data-upload/DataUpload.tsx:62 | in a duplicate-free list, dropping the element at index i deletes exactly that index |
| AiProcessing.StepProgress | src/components/data-processing/AiProcessing.tsx:30-60 | definition of a step's progress; property in AiProcessing.Steps |
| AiProcessing.EarlyStatus | src/components/data-processing/AiProcessing.tsx:31-53 | definition of the status of steps 0-2; property in AiProcessing.Steps |
| AiProcessing.ValidationStatus | src/components/data-processing/AiProcessing.tsx:61-63 | definition of the validation step's status; property in AiProcessing.Steps |
| AiProcessing.Steps | src/components/data-processing/AiProcessing.tsx:24-65 | steps 0-2 are complete iff currentStep > i, processing iff == i, waiting iff < i; step 3 is complete iff currentStep == 4, processing iff == 3, else waiting; progress is the live value at i, 100 before, 0 after |
| AiProcessing.StepsWellFormed | src/components/data-processing/AiProcessing.tsx:24-65 | for every currentStep: no step is `error`, at most one is processing, and statuses descend complete, processing, waiting |
| AiProcessing.ValidationWaitsPastFour | src/components/data-processing/AiProcessing.tsx:60-63 | past 4, the validation step is waiting at 100% while the earlier steps are complete |
| AiProcessing.StatusClass | src/components/data-processing/AiProcessing.tsx:67-78 | the muted style belongs to `waiting` only |
| AiProcessing.StatusClassInjective | src/components/data-processing/AiProcessing.tsx:67-78 | distinct statuses get distinct styles |
| AiProcessing.Label | src/components/data-processing/AiProcessing.tsx:109 | definition of the percentage label; property in AiProcessing.LabelMeaning |
| AiProcessing.LabelMeaning | src/components/data-processing/AiProcessing.tsx:109 | the label is "100%" when complete, blank iff neither complete nor processing, and for processing it is the progress in canonical decimal (minus only for negatives, no leading zero) plus "%", reading back to the progress |
| AiProcessing.Renders | src/components/data-processing/AiProcessing.tsx:80-82 | definition of the render guard; property in IndexPage.CardVisibility |
| AiProcessing.AlmostComplete | src/components/data-processing/AiProcessing.tsx:119 | when the banner shows, the validation step is processing and above 90% |
| MappingPreview.Matches | src/components/data-mapping/MappingPreview.tsx:112-114 | definition of the search callback; property in MappingPreview.MatchesIff |
| MappingPreview.FilteredMappings | src/components/data-mapping/MappingPreview.tsx:111-115 | definition of `filteredMappings`; property in MappingPreview.FilteredMappingsSpec |
| MappingPreview.MatchesIff | src/components/data-mapping/MappingPreview.tsx:111-115 | a record matches iff the lowered term occurs in its lowered source field, target field or category |
| MappingPreview.FilteredMappingsSpec | src/components/data-mapping/MappingPreview.tsx:111-115 | the search result is an order-preserving subsequence of the records, holding exactly the records that are hits; its length plus the number of non-hits is the number of records |
| MappingPreview.EmptySearchKeepsAll | src/components/data-mapping/MappingPreview.tsx:111-115 | the empty term keeps every record |
| MappingPreview.SearchIgnoresCase | src/components/data-mapping/MappingPreview.tsx:111-115 | terms with equal lower-case forms give the same result, and a term and its lowered form agree |
| MappingPreview.SearchIgnoresSourceFile | src/components/data-mapping/MappingPreview.tsx:111-115 | changing a record's source file never changes whether it matches |
| MappingPreview.SuccessView | src/components/data-mapping/MappingPreview.tsx:213-214 | definition of the Matched tab's rows; property in MappingPreview.ViewsPartition |
| MappingPreview.IssuesView | src/components/data-mapping/MappingPreview.tsx:252-253 | definition of the Issues tab's rows; property in MappingPreview.ViewsPartition |
| MappingPreview.ViewsPartition | src/components/data-mapping/MappingPreview.tsx:213-253 | the Matched view holds exactly the searched rows with status success and the Issues view exactly those with warning or error; every searched row is in exactly one, both keep the order, and their sizes add up |
| MappingPreview.CountStatus | src/components/data-mapping/MappingPreview.tsx:118-120 | definition of one status count; property in MappingPreview.StatusCountsTotal |
| MappingPreview.StatusCountsOf | src/components/data-mapping/MappingPreview.tsx:117-121 | definition of `statusCounts`; property in MappingPreview.StatusCountsTotal and MappingPreview.MockStatusCounts |
| MappingPreview.TabLabels | src/components/data-mapping/MappingPreview.tsx:139-141 | definition of the tab labels; property in MappingPreview.MockTabLabels |
| MappingPreview.StatusCountsTotal | src/components/data-mapping/MappingPreview.tsx:117-121 | success + warning + error equals the number of records |
| MappingPreview.MockStatusCounts | src/components/data-mapping/MappingPreview.tsx:28-121 | the shipped records count 5 success, 2 warning and 1 error |
| MappingPreview.MockTabLabels | src/components/data-mapping/MappingPreview.tsx:139-141 | the tabs read "All Mappings (8)", "Matched (5)" and "Issues (3)" |
| MappingPreview.RenderPreview | src/components/data-mapping/MappingPreview.tsx:123-193 | nothing is rendered iff not complete; otherwise the tab labels come from the unfiltered records whatever the term, rows are the search result, the no-match row shows iff it is empty, and the sub-tabs are its success and issue views |
| DataUpload.FindSource | src/components/data-upload/DataUpload.tsx:81 | a found source is the first catalog entry with that id; none found means no entry has it |
| DataUpload.CatalogIdsDistinct | src/components/data-upload/DataUpload.tsx:21-57 | catalog ids are pairwise distinct |
| DataUpload.Toggled | src/components/data-upload/DataUpload.tsx:59-67 | the toggled id's membership flips and every other id's is kept; an absent id is appended, and removal leaves a subsequence |
| DataUpload.ToggleRemovesInPlace | src/components/data-upload/DataUpload.tsx:61-62 | in a duplicate-free selection, toggling the id at index i deletes that index and keeps the others' order |
| DataUpload.ToggleKeepsNoDuplicates | src/components/data-upload/DataUpload.tsx:59-67 | a toggle keeps the selection duplicate-free |
| DataUpload.ToggleAll | src/components/data-upload/DataUpload.tsx:59-67 | definition of a sequence of toggles; property in DataUpload.ClicksKeepNoDuplicates |
| DataUpload.ClicksKeepNoDuplicates | src/components/data-upload/DataUpload.tsx:59-67 | any click sequence keeps the selection duplicate-free, and only clicked or already selected ids appear |
| DataUpload.ToggleTwice | src/components/data-upload/DataUpload.tsx:59-67 | two toggles of one id restore every id's membership; an absent id gives the exact list back, and a present id gives the list without it followed by the id |
| DataUpload.Extension | src/components/data-upload/DataUpload.tsx:85 | definition of the file extension; property in DataUpload.MockFileKind |
| DataUpload.MimeType | src/components/data-upload/DataUpload.tsx:86 | definition of the MIME type; property in DataUpload.MockFileKind |
| DataUpload.MockFileFor | src/components/data-upload/DataUpload.tsx:83-87 | definition of one mock file; property in DataUpload.MockFileKind |
| DataUpload.MockFileKind | src/components/data-upload/DataUpload.tsx:85-86 | file sources named with "PDF" become PDF, other file sources spreadsheets, the rest JSON; the extension (pdf, xlsx, json) agrees with the MIME type in all three cases |
| DataUpload.SpreadsheetUnlessNamedPdf | src/components/data-upload/DataUpload.tsx:85-86 | a file source whose name has no 'P' becomes a spreadsheet |
| DataUpload.CatalogFileSourcesAreSpreadsheets | src/components/data-upload/DataUpload.tsx:36-86 | the catalog's file sources are entries 2 and 4, and both become spreadsheets |
| DataUpload.CatalogOtherSourcesAreJson | src/components/data-upload/DataUpload.tsx:21-86 | the other three catalog entries are not file sources and become JSON |
| DataUpload.MockFiles | src/components/data-upload/DataUpload.tsx:80-88 | one file per selected id, in order, each built from the first catalog entry with that id |
| DataUpload.SourcePicker.constructor | src/components/data-upload/DataUpload.tsx:18 | the selection starts empty and valid |
| DataUpload.SourcePicker.ToggleSourceSelection | src/components/data-upload/DataUpload.tsx:59-67 | the new selection is the toggled old one, and it stays duplicate-free and made of catalog ids |
| DataUpload.SourcePicker.ProcessSelectedSources | src/components/data-upload/DataUpload.tsx:69-96 | an empty selection emits only the destructive notice; otherwise the upload of exactly the mock files of the selection (one per id, in order, from the first catalog entry with that id), then "Processing started" with the count |
| IndexPage.Next | src/pages/Index.tsx:39-64 | definition of one firing of the interval callback; property in IndexPage.NextStep |
| IndexPage.Ticks | src/pages/Index.tsx:39-64 | definition of n firings, stopping once the interval is cleared; property in IndexPage.TicksFrom and IndexPage.RunLength |
| IndexPage.NextStep | src/pages/Index.tsx:39-64 | a firing keeps the run reachable and uses up one remaining firing; progress gains exactly 5, or wraps to 0 with step + 1 past 100; the published step never decreases; completion comes only on the last firing |
| IndexPage.TicksFrom | src/pages/Index.tsx:39-64 | n firings from a reachable state stay reachable, use up n firings, keep the published step from decreasing, and leave the interval running iff n is below the remaining count |
| IndexPage.TicksAdd | src/pages/Index.tsx:39-64 | m + n firings are m firings followed by n |
| IndexPage.RunLength | src/pages/Index.tsx:39-57 | before 84 firings the interval runs and nothing is complete; from 84 on the state is the finished one: stopped, complete, not processing, step 3 at 100% |
| IndexPage.PublishedValues | src/pages/Index.tsx:40-63 | every published step is in 0..3, every published progress a multiple of 5 in 0..100, and the published step never decreases along a run |
| IndexPage.ValidationStaysProcessing | src/components/data-processing/AiProcessing.tsx:60-63 | after a finished run the validation step still shows processing at "100%", with the first three steps complete |
| IndexPage.AlmostCompleteWindow | src/components/data-processing/AiProcessing.tsx:119 | during a run the banner shows exactly after firings 82 and 83 |
| IndexPage.CardVisibility | src/components/data-processing/AiProcessing.tsx:80-82 | the processing card is shown throughout a run; after it, only when files were handed over |
| IndexPage.PreviewAfterRun | src/pages/Index.tsx:86-91 | the mapping preview (and the export panel with the same guard) appears iff the run has finished |
| IndexPage.Dashboard.constructor | src/pages/Index.tsx:13-18 | no files, not processing, step -1, progress 0, not complete, audit trail hidden, no interval |
| IndexPage.Dashboard.StartProcessing | src/pages/Index.tsx:25-33 | sets processing, step 0, progress 0, not complete, and schedules a fresh interval at step 0 and progress 0; files and audit panel are untouched |
| IndexPage.Dashboard.HandleFileUpload | src/pages/Index.tsx:20-23 | stores exactly the given files and then performs the start reset |
| IndexPage.Dashboard.Tick | src/pages/Index.tsx:39-64 | the new state is one firing of the callback from the old; the completion notice is raised on the terminal firing only |
| IndexPage.Dashboard.RunToCompletion | src/pages/Index.tsx:35-65 | a started run fires exactly 84 times, ends in the finished state and raises exactly one completion notice |
| IndexPage.Dashboard.ToggleAuditTrail | src/pages/Index.tsx:67-69 | negates the audit-panel flag and changes nothing else, so two calls restore it |

## Left out

- Timing: the 150 ms period of the interval is not modelled. A run is a sequence of firings, and nothing else happens between them.
- IndexPage.Dashboard.StartProcessing: requires that no interval is running. A second start during a run would schedule a second interval, and the two would update the same state concurrently. That interleaving is not modelled.
- IndexPage.Dashboard.HandleFileUpload: carries the same requirement, for the same reason.
- Toasts, JSX, icons and CSS: a toast is an event in the picker's result or a counter on the dashboard. Markup and styles are not modelled. The only exception is the style string of `getStatusClass`.
- The processing card's description text ("Processing N files…") is static render text and is not modelled.
- Browser `File` objects: a file is a record holding content, name and MIME type.
- Text.LowerChar: lowers only ASCII capitals and the Latin-1 capitals U+00C0..U+00DE (except U+00D7). Other capitals are kept unchanged, for example U+212A KELVIN SIGN (which JavaScript lowers to "k"), U+0178, and Greek and Cyrillic letters. One-to-many lowerings such as U+0130 are also not modelled.
- Text.Lower: inherits that gap. The records' own text is covered: it is ASCII apart from record 3's "Â³", whose U+00C2 is a Latin-1 capital the model lowers to U+00E2, as JavaScript does. The search term, however, is free user input. A term holding a capital outside Latin-1 can therefore select different records in the model than in the browser. For example, JavaScript lets "\u212A" match record 1 ("(kWh)"), and the model does not.
- AiProcessing.Label: `Math.round` is the identity here because every progress value the page publishes is an integer. Rounding of fractional values is not modelled.
- The audit trail panel, the export panel, the navigation bar and the analytics and reports pages are static content. Only the export panel's `isComplete` guard appears, and it appears through `IndexPage.PreviewAfterRun`.
