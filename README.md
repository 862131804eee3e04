# bold-debtrix core, modelled in Dafny

bold-debtrix is a tracker for "UX debt": usability, accessibility, visual,
performance or heuristic issues logged against design projects. It has two
parts.

- A React web app. Its project store (`ProjectContext`) is the signed-in
  user's projects, each with its issues, plus the project currently open.
  The store keeps this state in sync with a hosted database. On top of the
  store sit:
  - the dashboard, analytics and project pages, which count and search;
  - the list and board views of a project's issues;
  - the issue edit dialog;
  - the navigation bar;
  - the form schemas.
- A design-tool plugin. Its host script keeps a small session of API key,
  user and endpoint configuration. It answers typed messages from the
  plugin's UI by calling the database's REST interface. It can also build a
  deep link to the current file and selection. There are two versions of the
  host: `code.js` (current) and `code.ts` (older).

The model treats every backend answer, storage read, document read, clock
reading and date parse as an input value. On that basis it states what each
piece of logic does.

- **Plugin hosts.** Each message handler is a pure step function on a
  `State`. The classes `PluginHost.Host` and `LegacyPluginHost.LegacyHost`
  hold the module variables as fields. Each class has one method per message,
  proved to perform the step function. The lemmas state:
  - the guards;
  - the verification outcomes;
  - start-up restoration;
  - logout;
  - the create payload;
  - the deep-link format.
- **Project store.** `ProjectStore.Store` is a class whose methods replace
  its `projects`, `currentProject` and `loading` fields. Each method
  records the write it sends. Pure functions give the reload and the
  after-write state. `BuildUpdateData` builds the partial update field by
  field, as the source does.
- **Pages and views.** These are pure functions with sum, partition and
  search lemmas. The one exception is the analytics page's type tally. The
  source fills a dictionary inside a loop, so the model uses a method with
  loop invariants. The list and board views exist in two versions. The
  version as written reads each issue's date from the row's text and fails
  to render (see "## Findings"). The corrected version reads the parsed
  date.
- **Edit dialog.** `EditDebtModal.EditDebtForm` is a class over the form
  state. Its `HandleSubmit` sends one patch to the store, built from the
  object the dialog writes, with the Figma link under `figma_url`.
- **Form schemas and navigation bar.** These are pure functions.

Where the code and the system's documented behaviour differ, the model
follows the code:

- A `verify-api-key` message to `code.js` always installs the endpoint it
  carries before verifying (`figma-plugin/code.js:58-61`). So the
  "Configuration not found" reply cannot be reached through the message
  dispatcher. It is reached only by `verifyApiKey` on a session without
  configuration (`PluginHost.VerifyWithoutConfig`).
- `logout` in `code.js` deletes only the stored key
  (`figma-plugin/code.js:87-91`). The stored configuration stays.
- Every store mutation reloads through a closure that captured the current
  project before the mutation (`src/contexts/ProjectContext.tsx:114-117`).
  After `deleteProject` clears the selection, the reload re-selects from
  that earlier value. The selection ends up cleared only because the deleted
  project is no longer among the reloaded rows.
- `create-ux-debt` to `code.js` with a null or undefined `debtData` gets no
  answer. Reading `debtData.title` throws inside the callback of the context
  promise (`figma-plugin/code.js:272-274`), before any request. That promise
  has no `catch`, so the UI is never told
  (`PluginHost.CreateWithoutDataSilent`).
- `updateUXDebt` in the store reports failures itself and never throws. So
  the edit dialog's `onClose` runs after every submit, not only after a
  successful one.

## Model

| member | source | states |
|---|---|---|
| Domain.ParseType | src/lib/supabase.ts:109 | a column value parses to a type exactly when it is one of the five type names, and parsing inverts `TypeName` |
| Domain.ParseSeverity | src/lib/supabase.ts:110 | a column value parses to a severity exactly when it is one of the four names, inverting `SeverityName` |
| Domain.ParseStatus | src/lib/supabase.ts:111 | a column value parses to a status exactly when it is one of the three names, inverting `StatusName` |
| Domain.NamesInjective | src/lib/supabase.ts:109-111 | distinct enumeration values have distinct column names |
| Text.Trim | src/components/EditDebtModal.tsx:82-85 | `trim()` returns the part of the text between its leading and trailing white space, and that part neither starts nor ends with white space |
| Text.TrimIdempotent | src/components/EditDebtModal.tsx:56-66 | trimming an already trimmed text changes nothing |
| Text.TrimEmptyIffAllSpace | src/components/EditDebtModal.tsx:82-85 | a text trims to the empty string exactly when all its characters are white space |
| Text.TrimNoSpace | src/components/EditDebtModal.tsx:64-65 | a text with no white space at either end is its own trim |
| Text.Split | src/components/Navbar.tsx:34 | `split(' ')` yields at least one piece and no piece holds the separator |
| Text.JoinSplit | src/components/Navbar.tsx:34 | joining the pieces of a split with the separator gives back the text |
| Text.SplitSingle | src/components/Navbar.tsx:35 | a split has exactly one piece when the separator does not occur, and that piece is the whole text |
| Text.SplitFirst | src/components/Navbar.tsx:36 | the first piece of a text that does not start with the separator starts with the text's first character |
| Text.SplitLast | src/components/Navbar.tsx:38 | the last piece of a split is the text after the last occurrence of the separator |
| Text.ContainsEmpty | src/pages/DashboardPage.tsx:26-29 | every text includes the empty search term |
| Text.ContainsAt | src/pages/DashboardPage.tsx:27 | `includes` succeeds exactly when the needle occurs at some position of the text |
| Text.Utf16Length | src/lib/validations.ts:19-31 | a JavaScript length lies between the number of characters and twice that number |
| Text.Utf16LengthBmp | src/lib/validations.ts:19-31 | the JavaScript length equals the number of characters exactly when no character lies beyond U+FFFF |
| Uri.Utf8 | figma-plugin/code.js:443 | a character encodes to one to four bytes, and to one byte exactly when it is ASCII |
| Uri.EscapeAllChars | figma-plugin/code.js:443 | the `%XY` escapes of bytes consist only of characters an encoded component may hold |
| Uri.EncodedChars | figma-plugin/code.js:443 | `encodeURIComponent` output holds only unreserved characters, `%` and hexadecimal digits |
| Uri.EncodedHasNoDelimiters | figma-plugin/code.js:443-453 | an encoded component never holds `?`, `&`, `/` or `:` |
| Uri.EncodeUnreserved | figma-plugin/code.js:453 | a text of unreserved characters encodes to itself |
| Js.Digits | figma-plugin/code.js:126 | the status number in an `HTTP <status>` message renders as `String(n)` does: decimal digits that denote `n`, with no leading zero |
| Seqs.Filter | src/pages/DashboardPage.tsx:26-29 | `filter` returns no more elements than it was given, and all of them satisfy the predicate |
| Seqs.FilterSpec | src/pages/DashboardPage.tsx:26-29 | a filter keeps the input order, and holds each element that satisfies the predicate as often as the input does, and no other |
| Seqs.FilterAll | src/pages/DashboardPage.tsx:26-29 | filtering with a predicate every element satisfies keeps the whole list |
| Seqs.FilterAppend | src/pages/AnalyticsPage.tsx:17-33 | the filter of a concatenation is the concatenation of the filters |
| Seqs.FilterFilter | src/components/DebtKanbanView.tsx:22-52 | filtering twice is filtering once with the conjunction |
| Seqs.Find | src/pages/ProjectPage.tsx:29 | `find` returns nothing exactly when no element satisfies the predicate, and otherwise returns the first element that does |
| Stats.StatusPartition | src/pages/DashboardPage.tsx:39-44 | the Open, In Progress and Resolved counts add up to the number of issues |
| Stats.SeverityPartition | src/pages/DashboardPage.tsx:31-37 | the Critical, High, Medium and Low counts add up to the number of issues |
| Stats.TypePartition | src/pages/AnalyticsPage.tsx:36-41 | the five type counts add up to the number of issues |
| Stats.CountsAppend | src/pages/AnalyticsPage.tsx:17-33 | each count over two lists of issues is the sum of the two counts |
| Stats.StatusStatsOf | src/pages/DashboardPage.tsx:39-44 | `getStatusStats` gives each status's count, and the three cover every issue |
| Stats.SeverityStatsOf | src/pages/DashboardPage.tsx:31-37 | `getSeverityStats` gives each severity's count, and the four cover every issue |
| Search.FilterProjects | src/pages/DashboardPage.tsx:26-29 | `filteredProjects` keeps, in order and with their multiplicity, exactly the projects whose title or description contains the term, ignoring case |
| Search.FilterDebts | src/components/DebtListView.tsx:25-29 | `filteredDebts` keeps, in order and with their multiplicity, exactly the issues whose title, screen or description contains the term, ignoring case |
| Search.EmptyTermKeepsAll | src/components/DebtListView.tsx:25-29 | an empty search keeps every project and every issue |
| Search.MatchesPrefix | src/components/DebtKanbanView.tsx:22-26 | a field that contains a term also contains every prefix of that term |
| Search.SearchNarrows | src/components/DebtKanbanView.tsx:22-26 | typing more characters never brings back an issue the shorter term had hidden |
| Search.SearchIgnoresCase | src/pages/DashboardPage.tsx:27-28 | upper-casing the search term does not change whether a field matches |
| Analytics.TotalsAreFlatCounts | src/pages/AnalyticsPage.tsx:17-33 | the per-project sums of issues, of each status and of each severity equal the counts over all issues taken together |
| Analytics.StatusTotalsSum | src/pages/AnalyticsPage.tsx:17-23 | `openDebts + inProgressDebts + resolvedDebts == totalDebts` |
| Analytics.SeverityTotalsSum | src/pages/AnalyticsPage.tsx:26-33 | `criticalDebts + highDebts + mediumDebts + lowDebts == totalDebts` |
| Analytics.SeverityBound | src/pages/AnalyticsPage.tsx:141-189 | no severity total exceeds `totalDebts`, so no bar is wider than the whole |
| Analytics.TallyStep | src/pages/AnalyticsPage.tsx:38 | one `acc[debt.type] = (acc[debt.type] \|\| 0) + 1` keeps the accumulator a tally of the issues seen so far |
| Analytics.TypeStats | src/pages/AnalyticsPage.tsx:36-41 | `typeStats` has a key exactly for each type that occurs, and its value is that type's number of occurrences |
| Analytics.TypeStatsSum | src/pages/AnalyticsPage.tsx:36-41 | the values of `typeStats` add up to `totalDebts` |
| Analytics.LookupIsCount | src/pages/AnalyticsPage.tsx:202 | a tally's entry for a type, or 0 when it has none, is that type's count |
| Analytics.TypeStatsBound | src/pages/AnalyticsPage.tsx:212 | no `typeStats` value exceeds `totalDebts` |
| Analytics.ResolutionRate | src/pages/AnalyticsPage.tsx:43 | the rate is the text '0' exactly when the total is 0, and otherwise the ratio of resolved issues to the total |
| Analytics.BreakdownOf | src/pages/AnalyticsPage.tsx:254-258 | a project row's open, in-progress and resolved counts add up to its total, and its rate is '0' exactly when it has no issues |
| Analytics.OverallRateZero | src/pages/AnalyticsPage.tsx:43 | the overall rate is '0' exactly when no project has an issue |
| Dashboard.Prepend | src/pages/DashboardPage.tsx:178-201 | a level's chip is put in front of lower levels' chips exactly when its count is positive |
| Dashboard.PrependFacts | src/pages/DashboardPage.tsx:178-201 | putting a chip in front keeps the row descending and counted, and adds the level's count to the chip total |
| Dashboard.Chips | src/pages/DashboardPage.tsx:178-201 | the chips run from most to least severe, show a level exactly when its count is positive, with that count, and add up to the four counts |
| Dashboard.SeverityRow | src/pages/DashboardPage.tsx:174-201 | a card has no severity row exactly when its project has no issues; otherwise each chip shows a level's positive count, most severe first |
| Dashboard.SeverityRowCovers | src/pages/DashboardPage.tsx:174-201 | the chips of a card show every level that occurs and no other, and their counts add up to the card's total |
| Dashboard.CardOf | src/pages/DashboardPage.tsx:109-111 | a card's three status counts add up to `totalDebts`, which is the number of issues, and the severity row is absent exactly when that is 0 |
| Dashboard.GridOf | src/pages/DashboardPage.tsx:92-108 | the grid shows "No projects found" exactly when no project matches, and otherwise one card per matching project, in order |
| Dashboard.EmptyGridMeansNoProjects | src/pages/DashboardPage.tsx:92 | with an empty search the grid is empty exactly when there are no projects |
| Dashboard.CardsMatch | src/pages/DashboardPage.tsx:108 | every card shown belongs to a project of the store whose title or description contains the term |
| ProjectPage.FindProject | src/pages/ProjectPage.tsx:29 | the page's project is the first project whose id is the route id; there is none exactly when no project has that id or the route has no id |
| ProjectPage.EffectOf | src/pages/ProjectPage.tsx:31-38 | the effect selects exactly the found project; it sends the user to the dashboard exactly when nothing is found and the route id is non-empty |
| ProjectPage.RunEffect | src/pages/ProjectPage.tsx:31-38 | running the effect sets the store's current project to the found project, and otherwise leaves the store unchanged |
| ProjectPage.FormatDateUnknown | src/pages/ProjectPage.tsx:67-91 | `formatDate` gives 'Unknown' exactly for a falsy value, a value neither a date nor a string, or an invalid date, and otherwise the locale's rendering |
| ProjectPage.UpdatedLabel | src/pages/ProjectPage.tsx:119 | the header's date is 'Unknown' exactly when the row's `updated_at` does not parse to a valid date |
| ProjectPage.PageOf | src/pages/ProjectPage.tsx:40-64 | the page shows the spinner exactly when no project is found; otherwise its status counts and its severity counts each add up to the number of issues |
| DebtViews.LocaleDate | src/components/DebtListView.tsx:161 | `toLocaleDateString()` renders a `Date` as the locale's text or 'Invalid Date', and throws on any other value |
| DebtViews.RenderCells | src/components/DebtListView.tsx:161 | the rows' date cells render in order, the i-th as its issue's date, and the render throws exactly when some cell's value is not a `Date` |
| DebtViews.CreatedCellsRender | src/contexts/ProjectContext.tsx:104 | date cells read from the parsed `createdAt` always render, each as its issue's creation date |
| DebtViews.CreatedAsWrittenThrows | src/components/DebtListView.tsx:161 | date cells read from the row's `created_at` text throw exactly when there is at least one row |
| DebtViews.ListViewOf | src/components/DebtListView.tsx:23-76 | corrected view: nothing without a current project; the empty state exactly when no issue matches, hinting to adjust the search exactly when the term is non-empty; otherwise the table of the matches with their creation dates |
| DebtViews.ListThrowsIffRows | src/components/DebtListView.tsx:161 | as written, the list throws exactly when some issue matches; where it renders, it equals the corrected view |
| DebtViews.ListThrowsExample | src/components/DebtListView.tsx:161 | as written, a project with one issue and an empty search shows no table, while the corrected view shows it |
| DebtViews.StartLoggingIffNoIssues | src/components/DebtListView.tsx:64-72 | the invitation to log a first issue appears exactly when the term is empty and the project has no issues |
| DebtViews.ColumnOf | src/components/DebtKanbanView.tsx:52-60 | a column holds, in order, the matching issues with its status with their creation dates, and offers a drop zone exactly when it holds none |
| DebtViews.BoardOf | src/components/DebtKanbanView.tsx:28-52 | corrected view: nothing without a current project; otherwise the Open, In Progress and Resolved columns in that order |
| DebtViews.BoardPartitions | src/components/DebtKanbanView.tsx:28-60 | each matching issue sits in exactly the column of its status, and the three badge counts add up to the number of matches |
| DebtViews.BoardThrowsIffCards | src/components/DebtKanbanView.tsx:124 | as written, the board throws exactly when some issue matches; where it renders, it equals the corrected board and every column is an empty drop zone |
| DebtViews.DropWrite | src/components/DebtKanbanView.tsx:131-143 | a drop sends a write exactly when the column has a drop zone |
| DebtViews.DropSetsOnlyStatus | src/components/DebtKanbanView.tsx:44-46 | a drop patches the dropped issue's status to the column's status, plus the time stamp, and no other column |
| ProjectStore.BuildUpdateData | src/contexts/ProjectContext.tsx:220-235 | the patch built field by field is the partial update of the defined fields with the time stamp |
| ProjectStore.PatchShape | src/contexts/ProjectContext.tsx:220-235 | the patch always carries `updated_at` and never `project_id`, and carries each copied column exactly when its field is defined, with that field's value |
| ProjectStore.ColumnsRename | src/contexts/ProjectContext.tsx:225-235 | `loggedBy` goes to `logged_by` and `figmaUrl` to `figma_url`; every other copied column takes the field of its own name |
| ProjectStore.PatchIgnoresOtherKeys | src/contexts/ProjectContext.tsx:225-235 | a key outside the eleven fields, such as `figma_url`, does not change the patch |
| ProjectStore.OwnerOverrides | src/contexts/ProjectContext.tsx:138-141 | a new project's `owner_id` is the user's id whatever the input held; its other fields pass through |
| ProjectStore.DebtInsertColumns | src/contexts/ProjectContext.tsx:187-200 | a new issue's row holds the project id and every copied column, defined or not, and no time stamp; each defined field agrees with what an update would set |
| ProjectStore.RefreshWithoutUser | src/contexts/ProjectContext.tsx:55-58 | without a user id a reload only clears the loading flag |
| ProjectStore.RefreshFailureKeepsData | src/contexts/ProjectContext.tsx:68-81 | a failed connection probe or project query leaves projects and selection as they were, with loading off |
| ProjectStore.RefreshMapsRows | src/contexts/ProjectContext.tsx:83-111 | a reload holds one project per row, in order. Each project has one issue per row of its issue query, with `loggedBy` and `figmaUrl` copied from the row. A failed issue query gives no issues |
| ProjectStore.RefreshResyncs | src/contexts/ProjectContext.tsx:113-117 | after a reload, a selection the closure saw becomes the first reloaded project with its id, or null; with no selection the current project is untouched |
| ProjectStore.FailedWriteKeepsState | src/contexts/ProjectContext.tsx:144-151 | a write the backend rejects leaves projects, selection and loading unchanged |
| ProjectStore.DeleteProjectSelection | src/contexts/ProjectContext.tsx:171-183 | deleting the open project clears the selection when the delete succeeds and the reload does not bring the project back; deleting another project resyncs the selection as any reload does |
| ProjectStore.Store.constructor | src/contexts/ProjectContext.tsx:50-52 | the store starts with no projects, no selection, loading on, and no writes |
| ProjectStore.Store.SetCurrentProject | src/contexts/ProjectContext.tsx:51 | only the selection changes |
| ProjectStore.Store.Reload | src/contexts/ProjectContext.tsx:54-130 | the fields become the reload's state for the captured selection; no write is sent |
| ProjectStore.Store.RefreshProjects | src/contexts/ProjectContext.tsx:54-130 | a reload from the current render, which captures the current selection |
| ProjectStore.Store.AddProject | src/contexts/ProjectContext.tsx:136-152 | one project insert with the user as owner is sent; the state is unchanged on error and reloaded otherwise |
| ProjectStore.StampOverrides | src/contexts/ProjectContext.tsx:158 | a project update's `updated_at` is the current time whatever the input held; its keys are the input's plus `updated_at`, and its other fields pass through |
| ProjectStore.Store.UpdateProject | src/contexts/ProjectContext.tsx:154-169 | one project update with the time stamp is sent; the state is unchanged on error and reloaded otherwise |
| ProjectStore.Store.DeleteProject | src/contexts/ProjectContext.tsx:171-183 | one project delete is sent; on success the matching selection is cleared and the pre-delete closure reloads |
| ProjectStore.Store.AddUxDebt | src/contexts/ProjectContext.tsx:185-216 | one issue insert of the copied columns is sent; the state is unchanged on error and reloaded otherwise |
| ProjectStore.Store.UpdateUxDebt | src/contexts/ProjectContext.tsx:218-250 | one partial update of the defined fields is sent; the state is unchanged on error and reloaded otherwise |
| ProjectStore.Store.DeleteUxDebt | src/contexts/ProjectContext.tsx:252-263 | one issue delete by id is sent; the state is unchanged on error and reloaded otherwise |
| EditDebtModal.With | src/components/EditDebtModal.tsx:76-78 | the changed field takes the value and every other field keeps its own |
| EditDebtModal.Initial | src/components/EditDebtModal.tsx:38-48 | the form shows the issue's columns; the Figma link and assignee show '' exactly when they are absent or empty |
| EditDebtModal.FormValidIff | src/components/EditDebtModal.tsx:82-85 | the form is valid exactly when the title, screen, description and recommendation each have a non-space character |
| EditDebtModal.OrUndefined | src/components/EditDebtModal.tsx:64-65 | `s \|\| undefined` is undefined exactly when the text is empty, and otherwise the text |
| EditDebtModal.OptionalColumn | src/components/EditDebtModal.tsx:64-65 | an optional text reaches the patch, trimmed, exactly when it has a non-space character |
| EditDebtModal.PatchOf | src/components/EditDebtModal.tsx:56-66 | the store's patch of the submitted object, whichever key carries the Figma link |
| EditDebtModal.SubmittedPatchAsWritten | src/components/EditDebtModal.tsx:56-66 | the dialog's submit patches the trimmed texts, the enumeration texts and the time stamp, and the assignee only when non-blank; the Figma column, project, author and screenshot are never touched |
| EditDebtModal.SubmittedPatch | src/components/EditDebtModal.tsx:56-66 | for the corrected payload (the link under `figmaUrl`, see "## Findings"): the same columns, plus the Figma link when non-blank |
| EditDebtModal.FigmaEditDropped | src/components/EditDebtModal.tsx:65 | as written, the link goes out under `figma_url`, and the store's patch then never sets the Figma column |
| EditDebtModal.FigmaEditDroppedExample | src/components/EditDebtModal.tsx:65 | for the link `https://x`, as written, the object carries the link while the patch leaves the column alone |
| EditDebtModal.FigmaEditSaved | src/components/EditDebtModal.tsx:65 | under the key the store reads, the Figma column is patched exactly when the link is non-blank |
| EditDebtModal.ClearedAssigneeKept | src/components/EditDebtModal.tsx:64 | blanking the assignee leaves the stored assignee in place, with either payload |
| EditDebtModal.EditDebtForm.constructor | src/components/EditDebtModal.tsx:36-48 | the dialog opens with the form initialised from the issue, not loading, not closed |
| EditDebtModal.EditDebtForm.InputChange | src/components/EditDebtModal.tsx:76-78 | only the one field of the form changes |
| EditDebtModal.EditDebtForm.HandleSubmit | src/components/EditDebtModal.tsx:50-74 | exactly one patch goes to the store, the one the object as written (link under `figma_url`) produces; the store performs that update, the dialog closes, and loading is off again |
| EditDebtModal.EditDebtForm.SubmitClicked | src/components/EditDebtModal.tsx:253-257 | the click submits the as-written patch exactly when not loading and the form is valid; otherwise nothing is sent and nothing changes |
| Validations.AtLeast | src/lib/validations.ts:5 | `.min(n)` reports its message exactly when the JavaScript length is below n |
| Validations.AtMost | src/lib/validations.ts:19 | `.max(n)` reports its message exactly when the JavaScript length is above n |
| Validations.Check | src/lib/validations.ts:13-16 | a check reports one issue at its path exactly when it fails |
| Validations.OneOf | src/lib/validations.ts:27-29 | an enumeration check reports one issue exactly when the value is not a member |
| Validations.Bounded | src/lib/validations.ts:19-31 | a bounded text reports "too short" exactly below the lower bound and "too long" exactly above the upper, never both when the bounds are ordered |
| Validations.NonEmptyLength | src/lib/validations.ts:19 | `.min(1)` holds exactly when the text is not empty |
| Validations.LoginIssues | src/lib/validations.ts:3-6 | login reports the e-mail message exactly for a bad address and the password message exactly for fewer than 6 code units |
| Validations.SignupIssues | src/lib/validations.ts:8-16 | signup reports the name (at least 2), e-mail and password (at least 6) messages each exactly when broken, and "Passwords don't match" on `confirmPassword` exactly when the two differ |
| Validations.MismatchOnConfirm | src/lib/validations.ts:13-16 | a password mismatch is the last issue, on `confirmPassword`, whatever the other fields hold |
| Validations.ProjectIssues | src/lib/validations.ts:18-22 | a project form is accepted exactly when the title is 1..100, the description 1..500 code units, and the colour non-empty; each message appears exactly when its rule is broken |
| Validations.EnumIssues | src/lib/validations.ts:27-29 | each of type, severity and status reports an issue exactly when its text is not one of its enumeration's names |
| Validations.HeadIssues | src/lib/validations.ts:25-26 | the title (1..200) and screen (1..100) messages appear exactly when broken |
| Validations.TailIssues | src/lib/validations.ts:30-33 | the description and recommendation (1..1000) and link messages appear exactly when broken |
| Validations.TextIssues | src/lib/validations.ts:30-31 | the description and recommendation are each reported exactly when their length is outside 1..1000 |
| Validations.DebtIssues | src/lib/validations.ts:24-34 | an issue form is accepted exactly when every field rule holds; the assignee is never reported |
| Validations.DebtEnumMessages | src/lib/validations.ts:27-29 | the enumeration issues of the whole form are exactly those of the three enumeration checks |
| Validations.DebtMessages | src/lib/validations.ts:25-26 | the title's and screen's messages appear in the whole form's issues exactly when their rules are broken |
| Validations.DebtLinkMessage | src/lib/validations.ts:33 | the link's message appears exactly when the link is present, non-empty and not a URL |
| Validations.AcceptedEnumsParse | src/lib/validations.ts:27-29 | an accepted form's type, severity and status parse to the enumerations |
| Validations.RowEnumsPass | src/lib/validations.ts:27-29 | a stored row's enumeration columns always pass the enumeration checks |
| Validations.BlankTitlePasses | src/lib/validations.ts:25 | a title of spaces only is not reported as missing, unlike the edit dialog's trimmed check |
| Navbar.FirstChar | src/components/Navbar.tsx:36 | `charAt(0)` is empty exactly for the empty text and otherwise the first character |
| Navbar.AvatarText | src/components/Navbar.tsx:86 | a user without a name shows 'U' |
| Navbar.InitialsLength | src/components/Navbar.tsx:33-38 | the initials are at most two characters long |
| Navbar.SingleTokenInitial | src/components/Navbar.tsx:34-37 | a name with one piece after trimming gives its upper-cased first character |
| Navbar.BlankNameNoInitials | src/components/Navbar.tsx:33-36 | a name of spaces only is truthy, so it skips 'U'; it trims to '', splits into `['']`, and gives '' |
| Navbar.SeveralTokenInitials | src/components/Navbar.tsx:38 | several pieces give the upper-cased first character of the trimmed name and the character after its last space |
| Navbar.PiecesEnds | src/components/Navbar.tsx:38 | the first and last pieces of a trimmed name with a space start with its first character and the one after its last space |
| Navbar.NoInitialsIff | src/components/Navbar.tsx:33-38 | the initials are empty exactly for a non-empty name of spaces only |
| Navbar.TwoInitialsIff | src/components/Navbar.tsx:33-38 | there are two initials exactly when a space remains after trimming |
| Navbar.ActiveItemUnique | src/components/Navbar.tsx:25-29 | at most one link is active, and one is exactly when the path is `/dashboard`, `/analytics` or `/settings` |
| PluginHost.Dashed | figma-plugin/code.js:449 | replacing colons by dashes keeps the length and every other character and leaves no colon |
| PluginHost.NodeQuery | figma-plugin/code.js:450-453 | the node query is non-empty and starts with `?` |
| PluginHost.ContextOf | figma-plugin/code.js:435-474 | the context never fails: a readable document gives `DeepLink` of its file key, file name and selection as the link, its page and file names, and its selection's names in order |
| PluginHost.ContextLinkQuery | figma-plugin/code.js:443-454 | the posted link starts with the file prefix and holds a `?` exactly when something is selected, for a file key without `?` |
| PluginHost.VerifyWithoutConfig | figma-plugin/code.js:107-114 | verifying without a configuration replies "Configuration not found", sends nothing and changes nothing |
| PluginHost.VerifyMessageConfigures | figma-plugin/code.js:58-61 | a `verify-api-key` message installs the endpoint it carries and queries that endpoint's profiles with the offered key |
| PluginHost.VerifyOutcomes | figma-plugin/code.js:124-153 | a non-empty profile list signs in with its first row, persists the key and replies success with that row; an empty one replies "Invalid API key - no user found"; a non-OK response replies `HTTP <status>: <body>`; no failure changes the state |
| PluginHost.GuardFailure | figma-plugin/code.js:164-387 | a backend message whose guard fails posts one failure reply of its own type, sends nothing and changes nothing |
| PluginHost.GuardSuccess | figma-plugin/code.js:164-424 | a backend message that passes its guard sends exactly one request, with the session's keys, to the configured endpoint, and posts one reply; for `create-ux-debt` this holds when `debtData` is present |
| PluginHost.GetProjectsAuthorized | figma-plugin/code.js:174-181 | a signed-in `get-projects` sends one request to the projects URL under the base, carrying both keys |
| PluginHost.GetUxDebtsAuthorized | figma-plugin/code.js:222-229 | `get-ux-debts` sends one request under the base, carrying both keys |
| PluginHost.CreateAuthorized | figma-plugin/code.js:286-296 | `create-ux-debt` sends one request under the base, carrying both keys |
| PluginHost.UpdateAuthorized | figma-plugin/code.js:338-348 | `update-ux-debt` sends one request under the base, carrying both keys |
| PluginHost.DeleteAuthorized | figma-plugin/code.js:389-397 | `delete-ux-debt` sends one request under the base, carrying both keys |
| PluginHost.AuthorizedUnder | figma-plugin/code.js:117-122 | the host's headers on any URL that extends the base satisfy the authorization rule |
| PluginHost.LogoutSignsOut | figma-plugin/code.js:87-91 | logout clears the key and user, keeps the configuration, and afterwards every backend message fails its guard |
| PluginHost.StartupRestores | figma-plugin/code.js:14-38 | start-up restores the configuration whenever one is stored, the key only together with a configuration, and never the user |
| PluginHost.SaveThenLoad | figma-plugin/code.js:47-56 | a saved configuration is what the next `load-config` reports |
| PluginHost.KeyOnlyFromVerification | figma-plugin/code.js:44-104 | a session without a key gains one only through a successful verification, which replies success with the first profile |
| PluginHost.CreatePayloadFields | figma-plugin/code.js:273-285 | the create row has status 'Open', the debt's screen or else the page name, the user's full name as author, and the context link |
| PluginHost.CreatePayloadShape | figma-plugin/code.js:274-285 | the create object has exactly the ten keys of the literal, with the fixed and copied values (before serialisation) |
| PluginHost.WritesUnwrapArrays | figma-plugin/code.js:307 | create and update replies unwrap an array body to its first element |
| PluginHost.NotInPrefix | figma-plugin/code.js:443 | the file URL prefix contains no `?` |
| PluginHost.DeepLinkQuery | figma-plugin/code.js:443-454 | the link starts with the file URL and the key, and has a `?` exactly when something is selected, for a file key without `?` |
| PluginHost.QueryLink | figma-plugin/code.js:443-454 | a head and name without `?` followed by a query give a link with `?` exactly when the query is non-empty |
| PluginHost.DeepLinkNodeId | figma-plugin/code.js:446-454 | with a selection, the link ends with `?node-id=`, the dashed first id encoded, and `&viewport=` with `0,0,1,1` encoded |
| PluginHost.ContextFallback | figma-plugin/code.js:463-471 | an unreadable document gives the file-level link, 'Unknown' page and file names, and no selection |
| PluginHost.Host.constructor | figma-plugin/code.js:14-41 | the host starts in the start-up state with the start-up replies and no requests |
| PluginHost.Host.OnLoadConfig | figma-plugin/code.js:47-51 | the host performs the `load-config` step |
| PluginHost.Host.OnSaveConfig | figma-plugin/code.js:53-56 | the host performs the `save-config` step |
| PluginHost.Host.VerifyKey | figma-plugin/code.js:106-162 | the host performs `verifyApiKey` |
| PluginHost.Host.OnVerifyApiKey | figma-plugin/code.js:58-61 | the host installs the message's endpoint and then verifies |
| PluginHost.Host.OnGetProjects | figma-plugin/code.js:164-210 | the host performs `getProjects` |
| PluginHost.Host.OnGetUxDebts | figma-plugin/code.js:212-259 | the host performs `getUXDebts` |
| PluginHost.CreateWithoutDataSilent | figma-plugin/code.js:272-274 | a signed-in `create-ux-debt` with null or undefined `debtData` sends no request, posts no reply and changes nothing |
| PluginHost.Host.OnCreateUxDebt | figma-plugin/code.js:261-326 | the host performs `createUXDebt`; with `debtData` null or undefined it sends no request and posts no reply |
| PluginHost.Host.OnUpdateUxDebt | figma-plugin/code.js:328-377 | the host performs `updateUXDebt` |
| PluginHost.Host.OnDeleteUxDebt | figma-plugin/code.js:379-424 | the host performs `deleteUXDebt` |
| PluginHost.Host.OnGetFigmaContext | figma-plugin/code.js:426-433 | the host posts the document's context |
| PluginHost.Host.OnLogout | figma-plugin/code.js:87-91 | the host performs the logout step |
| PluginHost.Host.OnClosePlugin | figma-plugin/code.js:93-95 | the host closes |
| PluginHost.Host.OnMessage | figma-plugin/code.js:44-104 | the host performs the step of the message's case |
| LegacyPluginHost.ContextOf | figma-plugin/code.ts:238-258 | the context fails exactly when the document cannot be read; otherwise its link is `DeepLink` of the file key, file name and selection, and it holds the page and file names and the selection's names in order |
| LegacyPluginHost.ContextLinkRawId | figma-plugin/code.ts:244-249 | for a file key without `&`, the posted link holds no `&`, and with a selection ends with `?node-id=` and the raw first id encoded |
| LegacyPluginHost.VerifyMessageSetsEndpoint | figma-plugin/code.ts:25-29 | verification first installs the message's endpoint and then queries it with the offered key |
| LegacyPluginHost.VerifyOutcomes | figma-plugin/code.ts:59-96 | a non-OK response and an empty profile list both reply "Invalid API key" and keep the session; a non-empty list signs in with its first row and persists the key |
| LegacyPluginHost.GuardFailure | figma-plugin/code.ts:98-184 | a failed guard replies 'Not authenticated' with no request and no change |
| LegacyPluginHost.LogoutSignsOut | figma-plugin/code.ts:47-51 | logout forgets the key and the user, and afterwards every backend message fails its guard |
| LegacyPluginHost.RestoredSessionHasNoEndpoint | figma-plugin/code.ts:9-20 | a stored key alone restores the key without an endpoint, so a listing then goes to the bare path with an empty anonymous key |
| LegacyPluginHost.UnhandledIgnored | figma-plugin/code.ts:23-57 | a message without a case is ignored |
| LegacyPluginHost.CreatePayloadOverrides | figma-plugin/code.ts:190-196 | the create payload keeps every property of the debt data except the four it sets, which it overrides |
| LegacyPluginHost.NotInPrefix | figma-plugin/code.ts:244 | the file URL prefix contains neither `&` nor `?` |
| LegacyPluginHost.DeepLinkRawId | figma-plugin/code.ts:244-249 | the node id goes into the link encoded but undashed, with no viewport, so for a file key without `&` the link holds no `&` |
| LegacyPluginHost.LegacyHost.constructor | figma-plugin/code.ts:14-20 | the host starts in the start-up state with the start-up replies and no requests |
| LegacyPluginHost.LegacyHost.VerifyKey | figma-plugin/code.ts:59-96 | the host performs `verifyApiKey` |
| LegacyPluginHost.LegacyHost.OnVerifyApiKey | figma-plugin/code.ts:25-29 | the host installs the message's endpoint and then verifies |
| LegacyPluginHost.LegacyHost.OnGetProjects | figma-plugin/code.ts:98-135 | the host performs `getProjects` |
| LegacyPluginHost.LegacyHost.OnGetUxDebts | figma-plugin/code.ts:137-174 | the host performs `getUXDebts` |
| LegacyPluginHost.LegacyHost.OnCreateUxDebt | figma-plugin/code.ts:176-228 | the host performs `createUXDebt` |
| LegacyPluginHost.LegacyHost.OnGetFigmaContext | figma-plugin/code.ts:230-236 | the host posts the context, or nothing when the document cannot be read |
| LegacyPluginHost.LegacyHost.OnLogout | figma-plugin/code.ts:47-51 | the host performs the logout step |
| LegacyPluginHost.LegacyHost.OnClosePlugin | figma-plugin/code.ts:53-55 | the host closes |
| LegacyPluginHost.LegacyHost.OnMessage | figma-plugin/code.ts:23-57 | the host performs the step of the message's case |

## Left out

- Backend queries, `fetch`, client storage, `postMessage`, `closePlugin`
  and the design tool's document are inputs. A handler takes the outcome of
  its one request (`Response`, `Query`, `Backend`) and the document read
  (`Document`) as parameters. Replies and requests are recorded sequences.
- Toasts and console output are not modelled. They change no state.
- Async ordering is not modelled. Each handler and store operation runs to
  completion before the next one, and the interleavings of concurrent
  promises are not captured.
- Date parsing is the parameter `parse`. `toLocaleDateString` is the
  parameter `locale`. The current time is the parameter `now`.
- The resolution rate's `toFixed(1)` text and the percentage bar widths are
  left out, because they are floating point. The rate is modelled as
  "'0'" or "resolved over total".
- Case folding is ASCII-only, because full Unicode case mapping is not
  modelled.
- `encodeURIComponent` is written out for UTF-8 with upper-case escapes. A
  lone surrogate, which makes JavaScript throw, cannot occur in a Dafny
  `string`.
- The locale's date text is the parameter `locale`. What React does after a
  render throws (unmounting the tree) is not modelled. The failed render is
  the value `Throws`.
- Analytics.TypeStats: the tally is a `map`, so the order of the type bars,
  which `Object.entries` gives in order of first occurrence, is not
  modelled.
- LegacyPluginHost.Spread: spreading a value that is not an object
  contributes no keys. For a string or an array JavaScript would contribute
  its indices. The UI sends `debtData` only as an object or not at all.
- A request's body is the value before `JSON.stringify`. Serialisation
  drops keys whose value is `undefined` (`figma-plugin/code.js:295`,
  `figma-plugin/code.ts:206`). So `PluginHost.CreatePayloadShape`'s ten keys
  describe the object literal, not the JSON text that is sent.
- The e-mail and URL checks of the schemas are predicate parameters.
- zod's default message for a failed enumeration is represented by a fixed
  issue kind.
- `uxDebts?.length || 0` (src/pages/DashboardPage.tsx:111 and
  src/pages/ProjectPage.tsx:164) is not modelled. The records the store
  builds always hold an issue list, so the default never applies.
- `if (!isOpen) return null` in the edit dialog is not modelled. It decides
  only whether markup renders.
- The edit dialog's native form submit and the `required` attributes are not
  modelled for the same reason. Submission is modelled through the button
  (`SubmitClicked`).
- `handleInputChange` with a key outside the form's nine fields is not
  modelled. Every input of the dialog passes one of the nine.
- The `loading` flag while the update is awaited is not observable in a
  model without interleaving. `HandleSubmit` states only its final value.
- Navbar `handleLogout` is not modelled. The authentication context it calls
  (`AuthContext`) is not part of this model.
- The store's `useEffect` that reloads when the user changes is not
  modelled. The reload itself is `Store.RefreshProjects`.
- The plugin's `showUI` call is left out. It only opens the UI frame.
- The details of reading the document are left out. `getFigmaContextData`
  takes a `Document` value that is readable or not. The property access that
  throws is not modelled.
- PluginHost.OnMessage: the `catch` around the dispatcher in
  `figma-plugin/code.js:97-103`, which posts `{type: 'error', ...}`, is not
  modelled. It is reached only when a handler throws before its first
  `await`, such as on a `null` message, and the model's messages are always
  tagged values.
- Navbar.FirstChar: takes the whole first character where `charAt(0)`
  takes the first UTF-16 code unit. For a name that starts with a character
  beyond U+FFFF the source yields a lone high surrogate, which a Dafny
  `string` cannot hold. `Js.First` does the same for `s[0]` on a string.
- LegacyPluginHost.ReadError: the text of the `TypeError` for reading a
  property of `null` or `undefined` comes from the JavaScript engine, not
  from `figma-plugin/code.ts`. The model assumes current V8's wording,
  "Cannot read properties of null (reading 'length')". Other engines and
  older V8 versions word it differently.

## Findings

| source | as written | input that shows it | evidently intended | confidence | as-written member | corrected member |
|---|---|---|---|---|---|---|
| src/components/EditDebtModal.tsx:65 | the dialog sends the Figma link under the key `figma_url`, but the store's `updateUXDebt` reads only `figmaUrl` (src/contexts/ProjectContext.tsx:234), so an edited link is never saved | an issue whose Figma field is edited to `https://x` and submitted | the link is sent as `figmaUrl`, so a non-blank link reaches the `figma_url` column | high (not executed) | EditDebtModal.SubmitPayloadAsWritten, EditDebtModal.SubmittedPatchAsWritten, EditDebtModal.FigmaEditDropped, EditDebtModal.FigmaEditDroppedExample | EditDebtModal.SubmitPayload, EditDebtModal.SubmittedPatch, EditDebtModal.FigmaEditSaved |
| src/components/DebtListView.tsx:161 | the list's date cell calls `toLocaleDateString()` on `debt.created_at`, which the store copies from the row as ISO text (src/contexts/ProjectContext.tsx:100); a string has no such method, so rendering any row throws; the board's cards do the same (src/components/DebtKanbanView.tsx:124) | a current project with one issue and an empty search | the cell reads `debt.createdAt`, the `Date` parsed at src/contexts/ProjectContext.tsx:104, so the table and the cards render with each issue's creation date | high (not executed) | DebtViews.ListViewAsWritten, DebtViews.BoardAsWritten, DebtViews.CreatedAsWrittenThrows, DebtViews.ListThrowsIffRows, DebtViews.ListThrowsExample, DebtViews.BoardThrowsIffCards | DebtViews.ListViewOf, DebtViews.BoardOf, DebtViews.CreatedCellsRender |

The dialog class `EditDebtModal.EditDebtForm` sends the payload as written,
so its contracts describe the program as it stands. The corrected payload is
stated and proved beside it.

Likewise `DebtViews.ListViewAsWritten` and `DebtViews.BoardAsWritten`
render the views as written. `DebtViews.ListViewOf` and `DebtViews.BoardOf`
are the corrected views, and the other view lemmas are stated about them.
