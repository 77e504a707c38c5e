# eventflow-pro: event check-in, modelled in Dafny

eventflow-pro is a two-day event check-in front end backed by a hosted
Postgres store. Staff scan an attendee's QR code. The scanner page classifies
the code by its prefix (`AL-`, `FL-`, `STU-`, `PR-`, `VL-`) and looks it up.
An unknown code opens the registration form, which asks the store for the
next attendee id and inserts the attendee bound to that code. A known code
opens the attendee profile. There, one button per permitted action (entrance,
lunch, dinner, kit) marks the matching `day{1,2}_{action}` column once. The
marking is guarded by a ten-second duplicate window, the per-day switches in
`event_settings`, and a one-kit-per-attendee rule. The admin page shows
statistics, a search, the two day switches and a CSV export. A separate
dashboard page shows a second search and its own counters.

The model has one Dafny module per page or component, plus four support modules:

- `Wrappers` holds `Option` and JavaScript truthiness of a nullable boolean.
- `Schema` holds the store's rows.
- `Text` holds the JavaScript string operations the pages use.
- `Seqs` holds `Array.prototype.filter`.

The state of the scanner page, the manual code entry, the registration form,
the profile screen and the admin page is a class whose methods are its
handlers. The handlers are proved against pure functions of that state, such
as `AttendeeProfile.Perform` and `Admin.FilterAttendees`. The dashboard page
derives everything it shows from the list it read (`useMemo`), so it is
modelled by functions and lemmas only. Lemmas about those
functions state what the pages promise:

- On one mounted profile screen, an action is marked at most once.
- On one mounted profile screen, at most one kit is handed out.
- A closed day marks nothing.
- Every enabled button is a permitted action.
- The search keeps exactly the matching attendees, in order.
- The CSV export reads back into its header and rows, provided no text field
  holds a comma or a line break. The export does not quote fields, so a name
  such as "Doe, John" shifts the columns.

Store calls (reads, the column update, the id allocator, the insert, the
settings write) are parameters: each is the answer the store gave. The
activity-log insert has no parameter: the code never checks its result, so
the model appends the row the screen sends. Timers are expiry times compared with the click's timestamp.

Two places where the code does something other than its intended design:

- `handleAction` never consults the category table. Permission is enforced
  only by which buttons the screen renders. `PerformIgnoresCategory` states
  this. `EnabledButtonIsPermitted` proves that every rendered, enabled button
  is a permitted action.
- The dashboard page declares its own record shape. Its completion fields
  (`entrance`, `kit`, `lunch_day_1`, …) are not columns of `attendees`, so
  for rows read from the store every counter but the total is zero
  (`Dashboard.SchemaRowsCountNothing`).

## Model

| member | source | states |
|---|---|---|
| Schema.Set | src/components/AttendeeProfile.tsx:91 | Replacing one completion column sets exactly that column; every other column and every identity field is unchanged |
| AttendeeProfile.Column | src/components/AttendeeProfile.tsx:46-47 | The column returned is the one named `day{d}_{action}`; every pair has one except dinner on day 2, whose name matches no column of `attendees` |
| AttendeeProfile.NoDinnerColumnOnDay2 | src/integrations/supabase/types.ts:52-70 | `day2_dinner` is not the name of any completion column |
| AttendeeProfile.ColumnNamesSpelled | src/integrations/supabase/types.ts:52-70 | Each of the seven completion columns is named `day{d}_{action}` for its action and day |
| AttendeeProfile.ColumnInjective | src/components/AttendeeProfile.tsx:46-47 | Different action/day pairs name different columns |
| AttendeeProfile.CurrentDay | src/components/AttendeeProfile.tsx:22-26 | The screen's day is 2 exactly when the date is the 22nd, and day 1 otherwise |
| AttendeeProfile.NormalizedType | src/components/AttendeeProfile.tsx:118-129 | Empty only for the empty category; no upper-case letter; never an abbreviation; an abbreviation in any letter case becomes its category; any other category is returned lower-cased and otherwise unchanged |
| AttendeeProfile.AliasTargetsAreLower | src/components/AttendeeProfile.tsx:121-127 | Each abbreviation stands for a non-empty lower-case category that is not itself an abbreviation |
| AttendeeProfile.NormalizedTypeIdempotent | src/components/AttendeeProfile.tsx:118-129 | Normalising a normalised category changes nothing |
| AttendeeProfile.AvailableActions | src/components/AttendeeProfile.tsx:131-147 | Kit is offered iff the normalised category is alumni or faculty; dinner iff that and day 1; entrance and lunch iff the category is full- or limited-access; no action is listed twice |
| AttendeeProfile.AvailableActionsIgnoreCase | src/components/AttendeeProfile.tsx:118-147 | Categories that differ only in letter case get the same actions |
| AttendeeProfile.AliasesShareActions | src/components/AttendeeProfile.tsx:118-129 | Each abbreviation (`al`, `fl`, `vl`, `stu`, `pr`) gets exactly the actions of the category it stands for |
| AttendeeProfile.OtherHasNoActions | src/components/AttendeeProfile.tsx:131-147 | The enumeration value `other` gets no action |
| AttendeeProfile.UnknownCategoryHasNoActions | src/components/AttendeeProfile.tsx:118-147 | A category that, lower-cased, is neither an abbreviation nor one of the five known categories gets no action |
| AttendeeProfile.TypeLabel | src/components/AttendeeProfile.tsx:149-159 | A known normalised category is shown capitalised; any other value is shown as normalised |
| AttendeeProfile.LabelIsCapitalized | src/components/AttendeeProfile.tsx:149-159 | Each entry of the label table is its key with the first letter upper-cased |
| AttendeeProfile.Perform | src/components/AttendeeProfile.tsx:36-116 | A click is rejected iff one of the four checks fails, and the first failing check in the order duplicate window, already done, day closed, kit taken gives the reason. A rejected or failed click changes nothing. A marked click sets exactly its column to true. It appends the log row (attendee id, column name, day, user). It adds only its own key to the recent set, suppressing repeats for 10000 ms |
| AttendeeProfile.PerformKeepsDone | src/components/AttendeeProfile.tsx:74-91 | One click never undoes a completion, never takes a kit back and never changes the settings |
| AttendeeProfile.MarkedKitIsTaken | src/components/AttendeeProfile.tsx:63-68 | A marked kit click leaves a kit taken |
| AttendeeProfile.RunMonotone | src/components/AttendeeProfile.tsx:36-116 | Over any sequence of clicks no true column turns false, identity fields stay, settings stay |
| AttendeeProfile.RunKeepsOneKit | src/components/AttendeeProfile.tsx:63-68 | A sequence of clicks never ends with both kit columns true unless it started so |
| AttendeeProfile.MarkedWasOpenAtStart | src/components/AttendeeProfile.tsx:46-68 | A click that is marked later in a run found its column not done, its day open and (for kit) no kit taken at the start of the run |
| AttendeeProfile.MarkedAtMostOnce | src/components/AttendeeProfile.tsx:37-50 | In any run, no action/day pair is marked twice |
| AttendeeProfile.KitMarkedAtMostOnce | src/components/AttendeeProfile.tsx:63-68 | In any run, at most one kit click is marked, across both days |
| AttendeeProfile.ClosedDayMarksNothing | src/components/AttendeeProfile.tsx:53-60 | With the day switched off, or settings not loaded, no click on that day is ever marked |
| AttendeeProfile.RepeatRejected | src/components/AttendeeProfile.tsx:37-50 | Repeating a marked click within 10 s is rejected as a duplicate; later, as already completed |
| AttendeeProfile.PerformIgnoresCategory | src/components/AttendeeProfile.tsx:36-116 | The outcome of a click does not depend on the attendee's category |
| AttendeeProfile.ActionButton | src/components/AttendeeProfile.tsx:173-198 | A button is enabled iff not loading and the done, lockout and kit checks all pass |
| AttendeeProfile.OfferedActions | src/components/AttendeeProfile.tsx:239-283 | Day 1 offers the table's actions. Day 2 offers every non-kit action of the table, and kit iff the table permits it and no kit was taken on day 1. Only table actions are offered, each once |
| AttendeeProfile.Buttons | src/components/AttendeeProfile.tsx:173-283 | One button per offered action, in order, for that day; each is enabled iff not loading and the done, lockout and kit checks pass for its action |
| AttendeeProfile.ProfileView.DayButtons | src/components/AttendeeProfile.tsx:239-283 | The day card the screen renders from its current state: one button per offered action, in order; an enabled button appears only while no click is in flight, and only for an action the attendee's category permits |
| AttendeeProfile.EnabledButtonIsPermitted | src/components/AttendeeProfile.tsx:173-283 | An enabled button's action is permitted for the category, and the guard accepts it unless the duplicate window is open |
| AttendeeProfile.ProfileView.constructor | src/components/AttendeeProfile.tsx:15-26 | The screen mounts with the scanned record, no settings, no recent actions, no log and the current day |
| AttendeeProfile.ProfileView.SettingsLoaded | src/components/AttendeeProfile.tsx:28-34 | Loaded settings (or `null`) replace the settings; nothing else changes |
| AttendeeProfile.ProfileView.HandleAction | src/components/AttendeeProfile.tsx:36-116 | The handler's new state and outcome are `Perform` of the old state; loading ends false unless rejected |
| Scanner.QRPrefix | src/pages/Scanner.tsx:61 | The prefix is the code's text before its first `-` (the whole code when it has none), upper-cased; it holds no `-` and no lower-case letter |
| Scanner.UnknownPrefixGivesNone | src/pages/Scanner.tsx:61-84 | A code `P-rest` whose upper-cased prefix `P` is none of `AL`, `FL`, `STU`, `PR`, `VL` has no category |
| Scanner.TypeFromQR | src/pages/Scanner.tsx:61-84 | Each of AL/FL/STU/PR/VL maps to its category, in both directions; any other prefix gives none |
| Scanner.TypeFromQRIgnoresCase | src/pages/Scanner.tsx:61-84 | Codes equal up to letter case classify alike |
| Scanner.TypeFromPrefixedCode | src/pages/Scanner.tsx:61-84 | A code `P-rest` with a known prefix `P` classifies by `P` alone, whatever `rest` is |
| Scanner.SelectScreen | src/pages/Scanner.tsx:169-183 | No code held shows the scanner; else the form when requested; else the profile when a record is loaded; else nothing |
| Scanner.ScannerPage.constructor | src/pages/Scanner.tsx:17-21 | No code, no record, no form, no category, loading |
| Scanner.ScannerPage.HandleQRScan | src/pages/Scanner.tsx:57-107 | The code and its category are held; a found record opens the profile, a missing one the form, a failed lookup changes neither |
| Scanner.ScannerPage.HandleBackToScanner | src/pages/Scanner.tsx:109-114 | Forgets the code, record, form and category; the scanner is shown |
| Scanner.ScannerPage.HandleRegistrationComplete | src/pages/Scanner.tsx:116-120 | With a code held, looks it up again: a found record opens the profile, a missing one reopens the form, a failed lookup keeps the view; without a code, changes nothing |
| QRScanner.ManualSubmission | src/components/QRScanner.tsx:17-25 | A blank field submits nothing; otherwise the trimmed code, non-empty, without white space at either end, upper-case when the field was |
| QRScanner.ManualEntry.constructor | src/components/QRScanner.tsx:14 | The field starts empty |
| QRScanner.ManualEntry.OnInput | src/components/QRScanner.tsx:67 | The field holds the upper-case of what was typed, so never a lower-case letter |
| QRScanner.ManualEntry.HandleManualSubmit | src/components/QRScanner.tsx:17-25 | Hands on `ManualSubmission` of the field; clears the field after a submit and keeps it on a blank one |
| RegistrationForm.Form.constructor | src/components/RegistrationForm.tsx:18-24 | The form starts empty with category `alumni`, nothing sent |
| RegistrationForm.Form.SetName | src/components/RegistrationForm.tsx:90 | Only the name changes |
| RegistrationForm.Form.SetEmail | src/components/RegistrationForm.tsx:102 | Only the email changes |
| RegistrationForm.Form.SetPhone | src/components/RegistrationForm.tsx:114 | Only the phone changes |
| RegistrationForm.Form.SetKind | src/components/RegistrationForm.tsx:118-133 | Only the category changes, to a value of the enumeration |
| RegistrationForm.Form.HandleSubmit | src/components/RegistrationForm.tsx:26-59 | One allocation request for the form's category; an allocation error stops before the insert; the inserted row carries the allocated id, the scanned code, the non-empty required fields and `assigned`; completion is reported once, only when the insert succeeded |
| Admin.CalculateStats | src/pages/Admin.tsx:90-104 | The total is the number of attendees and every count is at most the total |
| Admin.StatsOfNoAttendees | src/pages/Admin.tsx:90-104 | With no attendees every figure is zero |
| Admin.StatsAddOne | src/pages/Admin.tsx:90-104 | One more attendee adds one to the total and one to exactly the figures it passes: `type` equal to the category, or the column true (a kit on either day for `kits`) |
| Admin.TypeCountsSumToTotal | src/pages/Admin.tsx:90-104 | When every category is an enumeration value, the four category counts add up to the total |
| Admin.TypeFiltersPartition | src/pages/Admin.tsx:93-96 | The four category filters partition a list of enumeration-typed attendees |
| Admin.KitsCountedOnce | src/pages/Admin.tsx:90-104 | The kit count lies between the larger per-day count and their sum, and is the sum when nobody holds both kits |
| Admin.FilterAttendees | src/pages/Admin.tsx:106-122 | A blank query returns the list unchanged; the result is never longer than the list (`SearchResult` gives the rest) |
| Admin.MatchingIsFilter | src/pages/Admin.tsx:113-119 | The search's filter is `Array.prototype.filter` with the search predicate |
| Admin.SearchResult | src/pages/Admin.tsx:106-122 | A blank query keeps the list; otherwise the result is an in-order sub-list of exactly the matching attendees, each kept as often as it occurs |
| Admin.SearchFindsCode | src/pages/Admin.tsx:106-122 | Searching for an attendee's QR code in any letter case finds that attendee |
| Admin.SearchIgnoresCase | src/pages/Admin.tsx:106-122 | Queries equal up to letter case give the same result |
| Admin.WithDay | src/pages/Admin.tsx:124-139 | The switched day's flag becomes `enabled`; the other day's flag and the row's identity stay |
| Admin.SwitchDecidesLockout | src/pages/Admin.tsx:124-139 | After a switch, the profile's lockout check opens the day iff it was switched on, and the other day is unaffected |
| Admin.CsvRow | src/pages/Admin.tsx:158-172 | Thirteen fields aligned with the headers: the six text columns as stored, each completion column "Yes" iff true, else "No" |
| Admin.CsvRowLines | src/pages/Admin.tsx:158-176 | One line per attendee, in list order, each the comma-join of its row |
| Admin.HeaderLineReadsBack | src/pages/Admin.tsx:142-156 | The header line has no line break and splits at commas back into the headers |
| Admin.RowLineReadsBack | src/pages/Admin.tsx:158-176 | A row line whose text fields hold no comma or line break splits back into the row |
| Admin.CsvContent | src/pages/Admin.tsx:174-176 | The export text starts with the `data:text/csv;charset=utf-8,` prefix (`CsvReadsBack` gives the lines after it) |
| Admin.CsvReadsBack | src/pages/Admin.tsx:141-176 | The export starts with the data-URI prefix, and the rest splits into the header line plus one line per attendee, each splitting back into headers or that attendee's row |
| Admin.AdminPage.constructor | src/pages/Admin.tsx:17-33 | Empty lists, empty query, no settings, zero statistics |
| Admin.AdminPage.DataLoaded | src/pages/Admin.tsx:74-88 | A returned list replaces the attendees and statistics, returned settings replace the settings, a failed read keeps its part; the visible list is re-filtered |
| Admin.AdminPage.SetSearchQuery | src/pages/Admin.tsx:44-46 | The query changes and the visible list is the search over the attendees; nothing else changes |
| Admin.AdminPage.SearchEffect | src/pages/Admin.tsx:44-46 | The visible list becomes `FilterAttendees` of the list and the query |
| Admin.AdminPage.ToggleDaySetting | src/pages/Admin.tsx:124-139 | Without settings it fails before writing; a failed write keeps the settings; a successful one changes only that day's flag |
| Dashboard.FromRow | src/pages/dashboard.tsx:83-92 | A store row keeps its id, name, email and category; all twelve of the page's own completion fields are undefined |
| Dashboard.FilteredAttendees | src/pages/dashboard.tsx:94-100 | Never longer than the list; every attendee kept is in the list and matches the term (`SearchResult` gives the rest) |
| Dashboard.SearchResult | src/pages/dashboard.tsx:94-100 | The search keeps, in order, exactly the attendees whose lower-cased name or email contains the lower-cased term, each as often as it occurs |
| Dashboard.EmptyTermKeepsAll | src/pages/dashboard.tsx:94-100 | The empty term keeps every attendee in order |
| Dashboard.NarrowerTermNarrowerResult | src/pages/dashboard.tsx:94-100 | A term containing another keeps a sub-list of what the other keeps |
| Dashboard.SpaceTermIsLiteral | src/pages/dashboard.tsx:94-100 | The term is not trimmed: a single space drops an attendee without spaces whom the empty term keeps |
| Dashboard.Stats | src/pages/dashboard.tsx:110-119 | The total is the number of attendees and every counter is at most the total |
| Dashboard.StatsOfNoAttendees | src/pages/dashboard.tsx:110-119 | With no attendees every counter is zero |
| Dashboard.StatsAddOne | src/pages/dashboard.tsx:110-119 | One more attendee adds one to the total and one to exactly the counters whose field it has true |
| Dashboard.SchemaRowsCountNothing | src/pages/dashboard.tsx:83-119 | Rows read from the store leave every counter but the total at zero |
| Dashboard.TypeLabel | src/pages/dashboard.tsx:44-53 | A known category is shown capitalised, anything else as given |
| Dashboard.ProfileLabelNormalizesFirst | src/pages/dashboard.tsx:44-53 | The profile's label is the dashboard's label of the normalised category |
| Dashboard.AbbreviationNotLabelled | src/pages/dashboard.tsx:44-53 | The dashboard shows `al` as `al` where the profile shows `Alumni` |
| Text.Trim | src/components/QRScanner.tsx:19 | `trim` is empty iff the text is blank, and otherwise neither starts nor ends with white space |
| Text.TrimIsInfix | src/components/QRScanner.tsx:19 | What `trim` keeps is an infix with only white space before and after it |
| Text.SplitJoin | src/pages/Admin.tsx:174-176 | Splitting at `c` undoes joining with `c` when no part holds `c` |
| Seqs.FilterIsSublist | src/pages/Admin.tsx:113-119 | `filter` returns an in-order sub-list of its input |
| Seqs.FilterMembership | src/components/AttendeeProfile.tsx:261-262 | `filter` keeps an element iff it occurs in the input and passes |
| Seqs.FilterKeepsDistinct | src/components/AttendeeProfile.tsx:261-262 | Filtering a list without repeats gives a list without repeats |
| Seqs.FilterSnoc | src/pages/Admin.tsx:90-104 | Filtering a list with one more element at the end keeps what the shorter list kept, plus that element iff it passes |
| Seqs.FilterKeepsMultiplicity | src/pages/Admin.tsx:113-119 | `filter` keeps a passing element as often as it occurs |

## Left out

- Store access (reads, the column update, the attendee insert, the settings write) is modelled as the answer the store gave, passed as a parameter. The body of the `get_next_attendee_id` function runs in the store and is not part of this model.
- Concurrency: the handlers are modelled as atomic steps. Interleavings of pending requests with later clicks are not modelled.
- Timers: the 10-second removal of a recent action is an expiry time compared with each click's timestamp. The 2-second automatic return to the scanner is not modelled.
- Authentication, sessions, admin role checks, navigation and `Auth.tsx`/`Index.tsx` are not modelled.
- Rendering details are not modelled: JSX layout, styling, badge colours, toasts and the attendee-details panel.
- The camera view of the QR scanner is a placeholder in the source and is not modelled.
- The dashboard's XLSX export is not modelled (it is a library call).
- For the admin CSV export, the URI encoding, the download link and its dated file name are not modelled. Only the text is modelled.
- Case mapping covers ASCII letters only; JavaScript's full Unicode case mapping is not modelled.
- Lookups in the alias and label objects ignore inherited prototype keys such as `constructor`.
- The screen's day is 1 or 2 (`Day`); the buttons only ever pass those two values.
- `RegistrationForm.Form.HandleSubmit`: the form ignores the category the scanner derived from the code (the component does not declare that prop) and uses the form's own select, as the code does.
- `AttendeeProfile.Perform`: the guard follows the code and does not check the category's permissions; the permission property is stated for rendered buttons instead (`EnabledButtonIsPermitted`).
- `Admin.SearchResult`: `!searchQuery.trim()` is modelled as "the query is blank", which `Text.Trim`'s contract proves equivalent.
- `Admin.AdminPage.ToggleDaySetting`: with no settings loaded the source throws a TypeError before writing; the model returns `NoSettings` and changes nothing.
- The activity-log insert is awaited but its error is never checked in the source, so every marked click appends its row to the model's log.
- `RegistrationForm.Form.HandleSubmit`: the browser's `type="email"` check on the email field is not modelled; the model only requires the three `required` fields to be non-empty.
