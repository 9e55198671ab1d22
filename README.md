# Timer front-end, modelled in Dafny

This project models the browser side of a time-tracking application. It has a
client and project manager built on a generic data table, a time tracker, and two
timer lists. The modelled parts are:

- the duration conversions between minutes and `HH:MM:SS` text;
- the tracker's start/stop state machine and its seconds formatter;
- the table's filter, sort, paging and sort-toggle logic;
- the paged list of date groups and the older flat timer list with its shared edit buffer;
- the client and project actions (query building, request targets, status handling);
- the two CRUD pages (form conversion, list maintenance by id, and the arguments their
  handlers pass to the list actions).

Modules, one per source file plus shared ones:

| module | file | models |
|---|---|---|
| `Js` | js.dfy | the JavaScript built-ins the code relies on: `String(n)`, `padStart(2,'0')`, `Number(text)`, `split`, `toLowerCase`, `includes`, string `<`, `slice`, `%` (truncating) and `Math.floor` |
| `Models` | models.dfy | the records of `app/models` and `find` by id |
| `Time` | time.dfy | `utils/time.ts` (and the component's identical copies) |
| `TimeTracker` | time_tracker.dfy | `components/common/time-tracker.tsx` |
| `DataTable` | data_table.dfy | `components/common/data-table.tsx` |
| `GroupedTimerList` | grouped_timer_list.dfy | `components/common/timer/timer-list.tsx` |
| `TimerList` | timer_list.dfy | `components/common/timer-list.tsx` |
| `Api` | api.dfy | what both action files share: requests, `URLSearchParams`, the list query, response checking |
| `ClientActions` | client_actions.dfy | `app/actions/client.ts` |
| `ProjectActions` | project_actions.dfy | `app/actions/project.ts` |
| `Records` | records.dfy | the `[...xs, d]` / `map` by id / `filter` by id updates of both pages |
| `ProjectsPage` | projects_page.dfy | `app/projects/page.tsx` |
| `ClientsPage` | clients_page.dfy | `app/clients/page.tsx` |

How the form of the source is kept:

- Pure conversions and the table pipeline are functions with lemmas.
- Each React component is a `class`. Its fields are the component's `useState`
  variables and its methods are the handlers, with `modifies this`.
- Each handler method `ensures` that its new state equals a pure transition function
  applied to the old state: `Snapshot() == StartStop(old(Snapshot()), now, localeTime)`
  for the tracker, and the same pattern on the pages. The properties of the source are
  lemmas about those functions.
- `URLSearchParams` is a class with an `entries` sequence. `Api.BuildListQuery` appends
  to it step by step, as both list actions do. It is proved to produce `Api.ListParams`.

How the environment is represented:

- An awaited response is a method or function parameter: a `Response` (a status and a
  parsed body) or a `NetworkError`.
- An action's result is an `Outcome`. It is either a returned value or a thrown message,
  and it records whether the page was sent to `/login`.
- `Date.now()`, the locale time string and `process.env.API_URL` are parameters.

Numbers, text and missing values:

- Durations in minutes are exact `real`s. Seconds and instants (milliseconds) are `int`s.
- NaN is `Js.Number.NaN`.
- `undefined` arguments and members are `None`.
- Truthiness is modelled where the code tests it. The empty string, 0 and NaN are falsy.

## Model

| member | source | states |
|---|---|---|
| Time.FieldsInRange | utils/time.ts:2-7 | for non-negative minutes the printed minutes and seconds fields lie in 0..59 |
| Time.FieldsCountWholeSeconds | utils/time.ts:3-5 | hours·3600 + minutes·60 + seconds equals the whole seconds in the input; the fraction of a second is dropped |
| Time.FieldsOfWholeSeconds | utils/time.ts:3-5 | a whole number k of seconds is split exactly into fields summing to k |
| Time.FieldShape | utils/time.ts:6 | each padded field has at least two digits, no colon, and reads back as its number; from 10 on it is the plain decimal text |
| Time.ClockParts | utils/time.ts:2-12 | splitting a printed clock on ':' gives back its three fields |
| Time.FieldNumber | utils/time.ts:10 | `Number` of a printed field is the field's value |
| Time.ReadParts | utils/time.ts:9-12 | for any three colon-free parts a:b:c, the reading is Number(a)·60 + Number(b) + Number(c)/60 when all three are numbers and NaN when one is not; whatever follows a third colon is ignored |
| Time.UnpaddedDuration | utils/time.ts:9-12 | typed text "1:30:00" reads as 90 minutes |
| Time.OverflowingMinutes | utils/time.ts:9-12 | a minutes field past 59, as in "0:90:0", is added as it stands: 90 minutes |
| Time.NegativeHours | utils/time.ts:9-12 | a signed field is read with its sign: "-1:00:00" is -60 minutes |
| Time.TwoPartsIsNaN | utils/time.ts:9-12 | any text of two colon-free parts, such as "1:30", has no seconds part, so it reads as NaN |
| Time.ParseClock | utils/time.ts:9-12 | the printed form as the special case: reading the padded clock of H, M, S gives H·60 + M + S/60 minutes |
| Time.NoColonIsNaN | utils/time.ts:9-12 | text without ':' (including '') reads as NaN, since two of the three parts are undefined |
| Time.MinutesRoundTrip | utils/time.ts:2-12 | printing then reading minutes gives floor(60·m)/60: never more than m, less than a second below it, and exactly m for whole seconds |
| Time.FieldsOfClock | utils/time.ts:2-7 | printing H·60 + M + S/60 minutes yields fields (H, M, S) when M, S < 60 |
| Time.ClockRoundTrip | utils/time.ts:2-12 | reading a canonical clock and printing it again gives the same string |
| TimeTracker.FormatDurationFields | components/common/time-tracker.tsx:43-48 | the formatter's fields split the seconds exactly, with minutes and seconds in 0..59 |
| TimeTracker.FormatDurationReadsBack | components/common/time-tracker.tsx:43-48 | reading the formatted seconds with the minutes reader gives seconds/60 |
| TimeTracker.FormatDurationPadded | components/common/time-tracker.tsx:43-48 | the formatted text has three colon-separated fields of at least two digits |
| TimeTracker.FormatDurationAgreesWithMinutes | components/common/time-tracker.tsx:43-48 | the tracker's formatter and the minutes printer agree on whole seconds |
| TimeTracker.StartStopFlips | components/common/time-tracker.tsx:23-41 | every press flips `isTracking` and keeps the mode, description and billing flag |
| TimeTracker.ManualModeTouchesOnlyTimes | components/common/time-tracker.tsx:24-33 | in manual mode a start sets only the start time and a stop only the end time |
| TimeTracker.TimerModeSession | components/common/time-tracker.tsx:23-41 | a timer-mode start and stop record the whole seconds between them, clear the start instant and change nothing else |
| TimeTracker.StopWithoutStartMeasuresFromZero | components/common/time-tracker.tsx:33-37 | a timer-mode stop with no recorded start measures from instant 0 |
| TimeTracker.SwitchModeWhileTracking | components/common/time-tracker.tsx:23-41 | starting manually, switching to timer mode and stopping records the time since 0 and keeps the manual start time |
| TimeTracker.Tracker.constructor | components/common/time-tracker.tsx:14-21 | the initial state: empty texts, not tracking, manual mode, no start instant |
| TimeTracker.Tracker.HandleStartStop | components/common/time-tracker.tsx:23-41 | the new state is the start/stop transition of the old one |
| TimeTracker.Tracker.OnTick | components/common/time-tracker.tsx:50-60 | while tracking in timer mode a tick rewrites the duration; otherwise nothing changes |
| TimeTracker.Tracker.SetTimerMode | components/common/time-tracker.tsx:115 | the switch sets manual mode to the negation of its position |
| DataTable.Filter | components/common/data-table.tsx:48-55 | a row is kept iff one of its string values contains the search text, both lower-cased; never more rows than given |
| DataTable.FilterConcat | components/common/data-table.tsx:49-55 | the filter works piecewise, so kept rows keep their order |
| DataTable.EmptySearchKeepsTextRows | components/common/data-table.tsx:49-55 | an empty search keeps exactly the rows with at least one string field |
| DataTable.Insert | components/common/data-table.tsx:57-64 | inserting adds exactly one row to the multiset |
| DataTable.SortBy | components/common/data-table.tsx:57-64 | the sorted rows are a permutation of the input |
| DataTable.ValuesComparable | components/common/data-table.tsx:59-63 | two strings or two numbers are equal or one is less |
| DataTable.LessAsymmetric | components/common/data-table.tsx:61-62 | `<` on field values is asymmetric |
| DataTable.LessTransitive | components/common/data-table.tsx:61-62 | `<` on field values is transitive |
| DataTable.NotLessTransitive | components/common/data-table.tsx:61-62 | for values of one kind, not-less is transitive |
| DataTable.BeforeIsLess | components/common/data-table.tsx:58-64 | the comparator puts a first iff its value is less (ascending) or greater (descending) |
| DataTable.BeforeAsymmetric | components/common/data-table.tsx:58-64 | the comparator never orders two rows both ways |
| DataTable.NotBeforeTransitive | components/common/data-table.tsx:58-64 | on rows whose column values are of one kind the comparator is a weak order |
| DataTable.InsertSorted | components/common/data-table.tsx:57-65 | inserting into sorted rows keeps them sorted |
| DataTable.SortBySorted | components/common/data-table.tsx:57-65 | rows whose column holds all strings or all numbers come out sorted in the chosen direction |
| DataTable.SortByTies | components/common/data-table.tsx:57-65 | when no row orders before another, the sort returns the rows in their input order |
| DataTable.SortByMissingColumn | components/common/data-table.tsx:57-64 | a sort key that is no field of the rows (such as 'client.name') leaves the order unchanged |
| DataTable.PipelineContents | components/common/data-table.tsx:48-68 | the displayed rows are a permutation of the filtered rows, unsorted when no sort column is set, sorted by it when it is set and the column holds all strings or all numbers |
| DataTable.TotalPages | components/common/data-table.tsx:70 | the page count is ⌈n/10⌉ |
| DataTable.PageRowsRange | components/common/data-table.tsx:70-71 | page p shows rows (p-1)·10 .. p·10 clamped to the list, at most 10, and none iff p is past the last page |
| DataTable.RowOnItsPage | components/common/data-table.tsx:70-71 | row i is shown on page ⌊i/10⌋+1, which is a valid page |
| DataTable.ControlsLeadToRows | components/common/data-table.tsx:177-196 | an enabled Next or Previous leads to a page that shows rows |
| DataTable.SortClickToggles | components/common/data-table.tsx:86-99 | clicking one header twice sets that column and alternates the order, ascending first for a new column, and reports each order |
| DataTable.UnsortableClickIsIgnored | components/common/data-table.tsx:86-89 | a computed column without a sort field, or an empty field name, changes nothing and reports nothing |
| DataTable.Table.constructor | components/common/data-table.tsx:40-42 | the initial state: the rows as given, no sort column, ascending |
| DataTable.Table.Refresh | components/common/data-table.tsx:48-68 | the effect sets the displayed rows to the filter-then-sort pipeline and changes nothing else |
| DataTable.Table.HandleSort | components/common/data-table.tsx:86-99 | the header click follows the sort toggle and reports its event |
| GroupedTimerList.PreviousClamps | components/common/timer/timer-list.tsx:40-41 | Previous steps back one page and stops at 0, where it is disabled |
| GroupedTimerList.ButtonsKeepRange | components/common/timer/timer-list.tsx:40-52 | with at least one page both buttons keep the page in range, and an enabled Next moves forward by one |
| GroupedTimerList.NextWithNoPages | components/common/timer/timer-list.tsx:51-52 | with zero pages Next is enabled at page 0 and moves to page -1 |
| GroupedTimerList.NextAfterShrink | components/common/timer/timer-list.tsx:51 | once the page count drops below the current page, Next moves back to the last page |
| GroupedTimerList.LabelIsOneBased | components/common/timer/timer-list.tsx:46 | for every page the label splits into "Page", a number that reads back as page + 1, "of" and the reported total; for a page in range the shown number lies in 1..totalPages |
| GroupedTimerList.TimerList.constructor | components/common/timer/timer-list.tsx:11-13 | no groups, page 0, zero pages |
| GroupedTimerList.TimerList.ReceivePage | components/common/timer/timer-list.tsx:15-23 | a non-array result empties the list; the page count is the reported count |
| GroupedTimerList.TimerList.Previous | components/common/timer/timer-list.tsx:40 | the page becomes max(page-1, 0) and stays in range |
| GroupedTimerList.TimerList.Next | components/common/timer/timer-list.tsx:51 | the page becomes min(page+1, pages-1) and stays in range when it was |
| TimerList.OtherRowsShowStoredValues | components/common/timer-list.tsx:97-127 | a row that is not being edited shows its stored values |
| TimerList.EditShowsStoredValues | components/common/timer-list.tsx:68-75 | opening a row shows what it showed before, except that a missing project shows "null" instead of "undefined"; other rows are unaffected |
| TimerList.EditThenSave | components/common/timer-list.tsx:28-41 | saving right after opening sends the row's id, description and instants back, its duration cut to whole seconds, and the same project when it is listed |
| TimerList.BlurSendsInitialBuffer | components/common/timer-list.tsx:64-66 | a blur before any edit sends an empty description, NaN minutes and no project |
| TimerList.ZeroProjectSendsNone | components/common/timer-list.tsx:36 | a buffered project id of 0 sends no project |
| TimerList.IconMatchesAction | components/common/timer-list.tsx:43-62 | the button shows Play exactly when pressing it sends a new start, and Stop exactly when it sends an end |
| TimerList.List.constructor | components/common/timer-list.tsx:12-18 | no rows and an empty buffer |
| TimerList.List.Load | components/common/timer-list.tsx:20-26 | the rows become the fetched page; the buffer is kept |
| TimerList.List.EditTimer | components/common/timer-list.tsx:68-75 | the buffer becomes the row's values |
| TimerList.List.SetDescription | components/common/timer-list.tsx:98 | only the buffered description changes |
| TimerList.List.SetDuration | components/common/timer-list.tsx:120 | only the buffered duration text changes |
| TimerList.List.SelectProject | components/common/timer-list.tsx:128 | only the buffered project id changes, to the number in the text |
| TimerList.List.HandleSave | components/common/timer-list.tsx:28-41 | sends the buffer's payload; once the update resolves it stops editing and replaces the rows with the refreshed page (unless that fetch rejects); a rejected update changes nothing |
| TimerList.List.HandleStartStop | components/common/timer-list.tsx:43-62 | sends the start or the stop and leaves the buffer; the rows become the refreshed page only when both the update and the refresh resolve |
| Records.Append | app/projects/page.tsx:89 | the new entry is last and the earlier ones are unchanged |
| Records.ReplaceById | app/projects/page.tsx:108 | same length; entries with the new entry's id become it, the others stay |
| Records.RemoveById | app/projects/page.tsx:119 | the kept entries are exactly those with another id |
| Records.RemoveConcat | app/projects/page.tsx:119 | removal works piecewise, so order is kept |
| Records.RemoveAbsent | app/projects/page.tsx:119 | removing an id nobody has changes nothing |
| Records.CreateThenDelete | app/projects/page.tsx:81-126 | appending an entry with a fresh id and removing that id gives the list back |
| Records.ReplaceThenDelete | app/projects/page.tsx:97-126 | a delete after a replace of the same id has the same result as the delete alone |
| Models.FindProject | components/common/timer-list.tsx:36 | the project found has the id and is listed, and no listed project before it has that id; none is found only when no listed project has it |
| Api.SearchParams.Append | app/actions/client.ts:9-17 | appends exactly one parameter at the end |
| Api.BuildListQuery | app/actions/client.ts:8-18 | the step-by-step appends produce the list query, or nothing when there is no page |
| Api.ListParamsShape | app/actions/client.ts:6-18 | the query starts with page then pageSize (10 unless given); search appears iff non-empty; sortField and sortOrder appear together iff the sort field is non-empty, with 'asc' as the default order |
| Api.MissingPageThrows | app/actions/client.ts:9 | without a page the query cannot be built |
| Api.ListOutcome | app/actions/client.ts:27-35 | 401 redirects and returns the empty list; other non-OK statuses and network errors throw; OK returns the body |
| Api.GuardedOutcome | app/actions/client.ts:52-59 | 401 redirects and throws 'Unauthorized'; a result is returned exactly on OK |
| Api.PlainOutcome | app/actions/project.ts:54-58 | never redirects; a result is returned exactly on OK; every other status throws the given message |
| ClientActions.ListRequest | app/actions/client.ts:8-26 | a GET to the base + '/client' with the list query, and no request when the page is missing |
| ClientActions.GetClientList | app/actions/client.ts:6-40 | redirect iff 401; a result iff 401 or OK, empty on 401; missing page throws the `toString` error; other failures throw 'Failed to fetch client list' |
| ClientActions.Create | app/actions/client.ts:42-65 | redirect iff 401; a result exactly on OK; other failures throw 'Failed to create client' |
| ClientActions.Update | app/actions/client.ts:67-90 | redirect iff 401; a result exactly on OK; other failures throw 'Failed to update client' |
| ClientActions.Remove | app/actions/client.ts:92-112 | redirect iff 401; success exactly on OK; other failures throw 'Failed to delete client' |
| ClientActions.GetAll | app/actions/client.ts:114-136 | checked as the list is: empty on 401, body on OK, 'Failed to fetch client list' otherwise |
| ClientActions.ItemUrlsIdentifyClients | app/actions/client.ts:69-94 | update and remove address the same URL, and distinct ids give distinct URLs |
| ClientActions.GetAllIsNoItem | app/actions/client.ts:116 | '/client/all' is never a single client's URL |
| ClientActions.ListWithoutPageRejects | app/actions/client.ts:6-9 | a call with no arguments sends nothing and throws |
| ProjectActions.ListRequest | app/actions/project.ts:8-26 | a GET to the base + '/project' with the list query, and no request when the page is missing |
| ProjectActions.GetProjectList | app/actions/project.ts:6-40 | checked as the client list is, with the client list's failure message |
| ProjectActions.CreateProject | app/actions/project.ts:44-63 | no redirect; a result exactly on OK; otherwise 'Failed to create project' |
| ProjectActions.UpdateProject | app/actions/project.ts:64-83 | no redirect; a result exactly on OK; otherwise 'Failed to update project' |
| ProjectActions.DeleteProject | app/actions/project.ts:84-103 | no redirect; a result exactly on OK; otherwise 'Failed to delete project' |
| ProjectActions.UnauthorizedMutationsThrow | app/actions/project.ts:54-96 | a 401 on create, update or delete is an ordinary failure without redirect |
| ProjectActions.ListAndCreateShareServerOnlyByDefault | app/actions/project.ts:2-46 | the list and the mutations reach the same URL iff the configured base is the default one |
| ProjectActions.DeleteTargetsCollection | app/actions/project.ts:46-92 | delete goes to the collection URL that create uses, never to update's item URL |
| ProjectsPage.FormClientId | app/projects/page.tsx:85 | '' gives no client id; any other text gives `Number` of it |
| ProjectsPage.NewProject | app/projects/page.tsx:82-87 | the new project carries the form's name, description, status and converted client id |
| ProjectsPage.Edited | app/projects/page.tsx:100-106 | the edited project keeps id, owner and timestamps and takes the four form fields |
| ProjectsPage.FindClientByNumber | app/projects/page.tsx:218 | the client found has the numeric id; none only when no client has it |
| ProjectsPage.MountQuery | app/projects/page.tsx:47-57 | on mount the list asks for page 1 with 10 items, no search and no sort |
| ProjectsPage.CreateAppends | app/projects/page.tsx:88-89 | a created project is appended and nothing else changes; a failed create changes nothing |
| ProjectsPage.EditReplaces | app/projects/page.tsx:107-108 | an edit keeps the length and replaces exactly the entries with the returned id |
| ProjectsPage.NoCurrentProjectNoChange | app/projects/page.tsx:97-118 | without a current project, edit and delete send nothing and change nothing |
| ProjectsPage.DeleteRemoves | app/projects/page.tsx:116-119 | a delete keeps exactly the entries with another id |
| ProjectsPage.CreateSelectDelete | app/projects/page.tsx:81-126 | creating a project with a fresh id, selecting and deleting it, gives the list back |
| ProjectsPage.EditFormRoundTrip | app/projects/page.tsx:214-219 | if the form submits its default values, the project is kept, except a missing description becomes '', a missing status 'INACTIVE', and an unknown client id is dropped |
| ProjectsPage.PageChangeForgetsPage | app/projects/page.tsx:158-170 | a page change requests the new page but stores nothing, so the next search uses the old page |
| ProjectsPage.SearchDropsSort | app/projects/page.tsx:127-129 | a search request is never sorted; the stored sort returns with the next page change |
| ProjectsPage.UnauthorizedMutationsKeepList | app/projects/page.tsx:81-126 | with an expired session no mutation changes the page |
| ProjectsPage.ProjectManagement.constructor | app/projects/page.tsx:38-50 | the initial state: empty lists, page 1, ascending, loading |
| ProjectsPage.ProjectManagement.OnProjects | app/projects/page.tsx:57-67 | a settled list request sets the projects or the error, and clears loading |
| ProjectsPage.ProjectManagement.OnClients | app/projects/page.tsx:69-78 | a settled `getAll` sets the clients or the error |
| ProjectsPage.ProjectManagement.OnSelect | app/projects/page.tsx:185-192 | edit and delete buttons set the current project |
| ProjectsPage.ProjectManagement.HandleCreateProject | app/projects/page.tsx:81-95 | sends the converted form and appends the returned project |
| ProjectsPage.ProjectManagement.HandleEditProject | app/projects/page.tsx:97-114 | sends the edited project and replaces entries by the returned id |
| ProjectsPage.ProjectManagement.HandleDeleteProject | app/projects/page.tsx:116-126 | sends the current project and removes its id |
| ProjectsPage.ProjectManagement.HandleSearch | app/projects/page.tsx:127-141 | stores the term and requests the current page with it and no sort |
| ProjectsPage.ProjectManagement.HandleSort | app/projects/page.tsx:142-157 | stores the sort and requests it with the stored term |
| ProjectsPage.ProjectManagement.HandlePageChange | app/projects/page.tsx:158-170 | requests the new page with the stored term and sort |
| ClientsPage.Edited | app/clients/page.tsx:62-68 | the edited client keeps its id and takes the four form fields |
| ClientsPage.MountEndsInError | app/clients/page.tsx:114-126 | the initial fetch sends nothing and always ends with the `toString` error and loading cleared |
| ClientsPage.SearchSendsQueryAsPage | app/clients/page.tsx:87-88 | a search sends the query as the page parameter and no search parameter |
| ClientsPage.SortSendsColumnAsPage | app/clients/page.tsx:100-101 | were `handleSort` called, it would send the column as the page and the direction as the search text, never a sort field; the page passes no `onSort` to its table, so no header click reaches it |
| ClientsPage.EditReplaces | app/clients/page.tsx:69-70 | an edit keeps the length and replaces exactly the entries with the returned id |
| ClientsPage.EditFormRoundTrip | app/clients/page.tsx:168-173 | submitting the edit form unchanged sends the client as it was |
| ClientsPage.NoCurrentClientNoChange | app/clients/page.tsx:60-80 | without a current client, edit and delete send nothing and change nothing |
| ClientsPage.DeleteRemoves | app/clients/page.tsx:77-80 | a delete keeps exactly the entries with another id |
| ClientsPage.CreateSelectDelete | app/clients/page.tsx:45-86 | creating a client with a fresh id, selecting and deleting it, gives the list back |
| ClientsPage.UnauthorizedMutationsKeepList | app/clients/page.tsx:45-86 | with an expired session no mutation changes the list |
| ClientsPage.ClientManagement.constructor | app/clients/page.tsx:35-41 | no clients, no current client, no error, loading |
| ClientsPage.ClientManagement.OnClients | app/clients/page.tsx:88-98 | a settled list request sets the clients or the error, and clears loading |
| ClientsPage.ClientManagement.OnSelect | app/clients/page.tsx:142-149 | edit and delete buttons set the current client |
| ClientsPage.ClientManagement.HandleCreateClient | app/clients/page.tsx:45-59 | sends the form as a new client and appends the returned one |
| ClientsPage.ClientManagement.HandleEditClient | app/clients/page.tsx:60-76 | sends the edited client and replaces entries by the returned id |
| ClientsPage.ClientManagement.HandleDeleteClient | app/clients/page.tsx:77-86 | sends the removal of the current client and removes its id |

## Left out

- Floating point: minutes are exact reals. IEEE-754 rounding and the exponent form of `String(n)` for huge or tiny numbers are not modelled.
- `Js.ToNumber`: only '' and optionally signed decimal digit runs are read. Other forms of `Number(text)` (fractions, exponents, hex, surrounding blanks) read as NaN in this model.
- TimerList.List.SelectProject: text that is not an integer gives no project id here, where the source stores NaN. Both are falsy, so the payload is the same; only the project menu's displayed text ("NaN" versus "null") differs.
- `Js.Lower` lower-cases ASCII letters only. `Js.StrLess` compares by character, not by UTF-16 code unit, and there is no Unicode case folding.
- DataTable.SortByTies: stability is stated only for input in which no row sorts before another. That rows with equal keys keep their input order in a general input is not proved.
- ClientsPage.SortSendsColumnAsPage: app/clients/page.tsx:139-152 passes no `onSort` to `DataTable`, so `handleSort` is never called from the page. The lemma states what it would send.
- DataTable.SortBySorted: sortedness is proved only for columns whose values are all strings or all numbers. For mixed, boolean, object or undefined values, JavaScript's comparison rules and the engine's sort algorithm under an inconsistent comparator are not modelled. The sort is modelled as a stable insertion sort over values, which matches the engine for consistent comparators.
- The `page` text of the table's address bar is taken as an integer. `Number` of other text is not modelled for paging.
- Network and browser effects are not modelled: `fetch`, JSON parsing and its failures, `localStorage` and the bearer header, `window.location`, the router and its query strings, toasts, console logging, and the open and close flags of the modals. A redirect is recorded as a flag on the outcome.
- `new URL(...)` failing on a malformed base is not modelled.
- The mutation at app/projects/page.tsx:72 of the shared field list's client options is not modelled.
- The form values are taken as arbitrary strings. The modal's select of client objects is components/common/modals/crud-modal.tsx and is not part of this model.
- ProjectsPage: the branch that reports 'Failed to fetch projects' for an undefined result cannot occur, because a list action never resolves to `undefined`. It is therefore absent.
- Concurrency and timing: the interval scheduling of the tracker (a tick is a method call) and the race between the projects page's two mount requests (each result is applied by its own method, in whatever order).
- Closures that capture stale state are not modelled: each handler sees the state at the moment its result is applied.
- The locale time strings and the ISO date slicing of the timer rows' date inputs are not modelled. Instants are milliseconds and are displayed as such. A set instant is a `Date` or ISO text and so is truthy even at the epoch; the model treats every `Some` instant as present.
- The UI-only components, authentication, tags and the timer actions (`getTimers`, `updateOnStopTimer`) are not part of this model. Their results are inputs: whether `updateOnStopTimer` resolved, and the page a `getTimers(0)` refresh resolved to, if any.
- Type mismatches that only TypeScript sees are not modelled. Examples are the grouped timers' element type, `status` missing from the `Project` interface, and the table's `sortField` and `onPageChange` props. The model follows what the code does at run time.
- The component's copies of the duration converters (components/common/timer-list.tsx:77-87) are identical to utils/time.ts. Module `Time` models both.
