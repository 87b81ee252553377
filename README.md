# Jira work item importer — a Dafny model

This project models the core of `JiraImporter` in `jira_work_item_import.py`.
The importer reads work items from CSV rows, infers an Epic → Story/Task →
Sub-task hierarchy from the order of the rows, and creates the issues in a
Jira project tier by tier, so that a parent is always created before its
children. The model has three parts.

- **Row intake** (`read_csv`). Each parsed row gets its 1-based position
  as its id. A row whose `Work Item Type` cell is absent or blank is
  dropped. This is `WorkItems.Intake`, with the loop
  `Importer.JiraImporter.ReadCsv` proved equal to it.
- **Hierarchy organizer** (`organize_work_items`). A single pass with two
  pieces of rolling state, the current epic and the current story or task.
  It sorts the items into four groups and records child → parent links.
  - `Hierarchy.Organize` is the pass.
  - `Hierarchy.Filter`, `LastEpic`, `OpenParent` and `ExpectedParent` are
    independent backward-looking definitions of what the pass should
    produce; lemmas prove the two agree.
  - `Importer.JiraImporter.OrganizeWorkItems` is the loop over the
    object's `relationships` field, proved equal to the pass.
- **Sequenced import** (`import_work_items` and the request shaping of
  `create_jira_issue`).
  - The tracker's create call is a function `create: Request -> Option<Key>`
    given up front.
  - Each row's outcome is an `Importing.Event`: created with a key, failed,
    or skipped without calling create.
  - The created-issues map is the replay of the events.
  - `Importing.ImportAll` and `ImportRun.Run` are the specification.
  - `Importer.JiraImporter.ImportTier` and `ImportWorkItems` are the loops
    over the object's `createdIssues` field, proved equal to it.

Modules: `Wrappers` (Option), `Text` (strip, lower, split, replace),
`WorkItems`, `Hierarchy`, `IssueFields`, `Importing`, `ImportRun`, `Importer`
(the class) and `Scenarios` (worked runs on rows of a given type).

In two places the code behaves differently from what a reader might
expect, and the model follows the code:
- A priority warning is printed only for a non-empty invalid priority
  (`jira_work_item_import.py:184`), not for an absent one. The chosen
  priority is the same either way.
- The transition to the default status is requested whenever the tracker
  answers without an error, even when the answer carries no key
  (`jira_work_item_import.py:205-209`). The transition is not part of this
  model.

## Model

| member | source | states |
|---|---|---|
| Text.StripIsInfix | jira_work_item_import.py:67 | stripping leaves the infix between a leading and a trailing whitespace run; the result has no whitespace at either end; it is empty exactly when the input is all whitespace |
| Text.StripIdempotent | jira_work_item_import.py:91 | stripping twice equals stripping once |
| Text.StripPadded | jira_work_item_import.py:91 | stripping removes a leading space and a trailing tab around a non-blank word |
| Text.LowerSpec | jira_work_item_import.py:92 | lower-casing keeps the length and maps every character on its own |
| Text.LowerIdempotent | jira_work_item_import.py:92 | a lower-cased string has no upper-case letter, and lower-casing it again changes nothing |
| Text.ReplaceSpec | jira_work_item_import.py:164 | replacing keeps the length and changes exactly the occurrences of the replaced character |
| Text.ReplaceAbsent | jira_work_item_import.py:164 | replacing a character that does not occur changes nothing |
| Text.ReplaceAppend | jira_work_item_import.py:164 | replacing distributes over concatenation |
| Text.JoinSplit | jira_work_item_import.py:162 | joining the fragments of a split with the delimiter gives back the string |
| Text.SplitJoin | jira_work_item_import.py:162 | splitting a join of delimiter-free fragments gives back the fragments |
| Text.Split | jira_work_item_import.py:162 | a split has at least one fragment, and no fragment holds the delimiter |
| WorkItems.Intake | jira_work_item_import.py:62-72 | at most one item per row; ids strictly increasing; every id is a row position between 1 and the number of rows |
| WorkItems.IntakeCarriesRow | jira_work_item_import.py:65-71 | each kept item carries the cells of the row at its position, and that row has a non-blank type |
| WorkItems.IntakeKeepsTyped | jira_work_item_import.py:65-68 | a row's position is a kept id exactly when its type cell is present and not blank |
| WorkItems.IdsSnoc | jira_work_item_import.py:71 | appending an item adds exactly its id to the set of ids |
| WorkItems.ClassifiedNotBlank | jira_work_item_import.py:67-68 | a recognised type cell is never blank, so every row the organizer files survived the intake filter |
| WorkItems.ClassifyStripped | jira_work_item_import.py:91-92 | only the stripped cell matters to the classification |
| WorkItems.ClassifyName | jira_work_item_import.py:91-113 | each tier's own name, bare or padded with whitespace, classifies as that tier |
| WorkItems.NameClassifies | jira_work_item_import.py:94-113 | each tier's own name classifies as that tier |
| WorkItems.ClassifyUnhyphenated | jira_work_item_import.py:113 | "SubTask" in mixed case is a sub-task |
| WorkItems.ClassifyRejectsSpaced | jira_work_item_import.py:113 | "Sub task" with a space is not recognised |
| Hierarchy.OrganizeGroups | jira_work_item_import.py:80-119 | each group of the pass is the in-order filter of the items of its tier |
| Hierarchy.StepGroups | jira_work_item_import.py:94-114 | one step appends the item to the group of its kind and to no other |
| Hierarchy.FilterMembers | jira_work_item_import.py:94-119 | an item is in the group of a kind exactly when it is an input item of that kind; so a recognised item is in exactly one group, an unrecognised one in none |
| Hierarchy.FilterKeepsOrder | jira_work_item_import.py:97-114 | each group keeps the input order: ids stay strictly increasing |
| Hierarchy.FilterCounts | jira_work_item_import.py:80-119 | the four groups and the unrecognised items together count every item once |
| Hierarchy.OrganizeState | jira_work_item_import.py:87-100 | after the pass, the current epic is the last epic and the current parent is the last story or task not followed by an epic |
| Hierarchy.OrganizeLinks | jira_work_item_import.py:90-117 | the links hold only input ids; each item is linked to its expected parent when it has one, and is unlinked otherwise |
| Hierarchy.OrganizeLinkAt | jira_work_item_import.py:90-117 | the item at a position is linked exactly as its expected parent says |
| Hierarchy.LastStepLinks | jira_work_item_import.py:99-117 | the last step links the last item to its expected parent and changes no other link |
| Hierarchy.EarlierLinkKept | jira_work_item_import.py:99-117 | a later step leaves an earlier item's link as it was |
| Hierarchy.LastEpicIsEpic | jira_work_item_import.py:94-95 | the last epic is an input item of kind epic |
| Hierarchy.OpenParentIsStoryOrTask | jira_work_item_import.py:96-107 | the open parent is an input item of kind story or task |
| Hierarchy.ExpectedParentEarlier | jira_work_item_import.py:99-117 | an expected parent is a strictly earlier item: an epic for a story or task, a story or task for a sub-task |
| Hierarchy.LinksPointBackwards | jira_work_item_import.py:90-117 | every link points to a strictly earlier item of a fitting kind, and to a smaller id |
| Hierarchy.NoEpicYetUnlinked | jira_work_item_import.py:99-111 | a story or task with no epic before it gets no link |
| Hierarchy.NoParentYetUnlinked | jira_work_item_import.py:113-119 | a sub-task with no story or task before it gets no link |
| Hierarchy.AfterEpicUnlinked | jira_work_item_import.py:94-96 | an epic resets the open parent, so a sub-task right after an epic gets no link |
| Hierarchy.UnlinkedWithoutParent | jira_work_item_import.py:103-119 | an item without an expected parent gets no link |
| Hierarchy.NoEpicNoLastEpic | jira_work_item_import.py:87 | without an epic there is no current epic |
| Hierarchy.NoStoryNoOpenParent | jira_work_item_import.py:88 | without a story or task there is no current parent |
| IssueFields.CleanFragmentWellFormed | jira_work_item_import.py:162-164 | a fragment that is not blank after stripping becomes a well-formed label |
| IssueFields.CleanLabelsWellFormed | jira_work_item_import.py:162-164 | cleaning yields no more labels than fragments, and every label is non-empty, trimmed, without spaces or semicolons |
| IssueFields.LabelsWellFormed | jira_work_item_import.py:159-164 | every label taken from a tags cell is well formed |
| IssueFields.CleanLabelsKeeps | jira_work_item_import.py:162-164 | cleaning leaves well-formed labels unchanged, in order |
| IssueFields.LabelsRoundTrip | jira_work_item_import.py:159-164 | joining well-formed labels with ";" and parsing the result gives the same labels |
| IssueFields.LabelsExample | jira_work_item_import.py:159-164 | the tags "UI; needs review ; " give the labels "UI" and "needs_review" |
| IssueFields.LabelsOfFragments | jira_work_item_import.py:159-162 | the labels of a non-empty tags cell are the cleaned fragments of its split |
| IssueFields.ReplaceJoined | jira_work_item_import.py:164 | two space-free words joined by a space become one label joined by an underscore |
| IssueFields.ChoosePriority | jira_work_item_import.py:181-187 | the chosen priority is always valid; it is the cell exactly when the cell is a valid priority, compared case-sensitively; otherwise it is "Medium" |
| IssueFields.ChoosePriorityExamples | jira_work_item_import.py:181-183 | choosing is idempotent; "High" passes, while "high" and "" fall back to "Medium" |
| IssueFields.SeparatorPriorityExample | jira_work_item_import.py:129 | a priority cell "High" followed by a unit separator strips to "High", which is sent as it is |
| IssueFields.ParentField | jira_work_item_import.py:190-195 | a parent key is attached exactly for a story, task or sub-task with a non-empty key, and it is that key |
| IssueFields.BuildRequest | jira_work_item_import.py:123-195 | the request names the project, row and tier; its labels are well formed; its priority is valid; its parent is the parent field |
| Importing.AttemptFacts | jira_work_item_import.py:266-297 | an attempt skips exactly a sub-task whose linked parent has no key; otherwise it sends the request built with the parent's key (none for an epic); it records a creation exactly when the tracker returns a non-empty key |
| Importing.ReplayAppend | jira_work_item_import.py:266-295 | replaying two stretches of events is replaying one after the other |
| Importing.ReplayRecords | jira_work_item_import.py:269-295 | the created map only grows; each row in it kept its old key or has a created event carrying its key; every created row is in it |
| Importing.ReplayKeys | jira_work_item_import.py:269-295 | a row is in the created map after the events exactly when it was before or one of its events is a creation |
| Importing.TierEventsAttempts | jira_work_item_import.py:267-295 | within a tier, the event at each position is the attempt of the row at that position, made against the map the earlier events left |
| Importing.ScheduleOrder | jira_work_item_import.py:263-289 | tiers never go backwards along the schedule, and the schedule starts with the epics in group order |
| Importing.ImportAllAttempts | jira_work_item_import.py:263-297 | the whole import attempts every scheduled job once, in schedule order, each against the map all earlier events left |
| Importing.FollowsAppend | jira_work_item_import.py:263-297 | a trace of earlier tiers followed by a tier run from the map they left follows the combined schedule |
| Importing.TraceGuarantees | jira_work_item_import.py:266-297 | an epic is never skipped and never has a parent; a story or task is never skipped; a job is skipped exactly when it is a sub-task whose parent has no key yet; a sub-task that is sent always has a parent key |
| Importing.ParentCreatedBefore | jira_work_item_import.py:274-293 | starting from no created issues, a request carries a parent key only if its row is linked and an earlier event created the linked row under exactly that key |
| ImportRun.ScheduleFromGroups | jira_work_item_import.py:263-289 | every scheduled job takes its item from the group of its tier |
| ImportRun.ScheduleNoRepeats | jira_work_item_import.py:263-289 | with increasing groups, no job is scheduled twice |
| ImportRun.ScheduleCovers | jira_work_item_import.py:263-289 | every item of every group is scheduled in its tier |
| ImportRun.RunGroupsIncreasing | jira_work_item_import.py:65-121 | the groups of a run keep the row order |
| ImportRun.RunGroupsMembers | jira_work_item_import.py:65-121 | an item is in a run's group of a tier exactly when it is a kept row of that kind |
| ImportRun.InRunGroup | jira_work_item_import.py:80-119 | an item of a run's group is a kept row of the group's kind |
| ImportRun.RunJobIsRow | jira_work_item_import.py:263-289 | the job at a position of a run is a kept row whose type names the job's tier |
| ImportRun.RunJobsAreRows | jira_work_item_import.py:263-289 | every job of a run is a kept row whose type names the job's tier |
| ImportRun.RunJobsDistinct | jira_work_item_import.py:263-289 | no two jobs of a run are about the same row |
| ImportRun.RunJobsCover | jira_work_item_import.py:263-289 | every kept row with a recognised type is a job of the run, in its own tier |
| ImportRun.RunOrder | jira_work_item_import.py:263-297 | a run follows its schedule, and its events never go back to a lower tier |
| ImportRun.RunEventAt | jira_work_item_import.py:266-297 | each event of a run is its job's attempt against the keys the earlier events recorded |
| ImportRun.RunRowsDistinct | jira_work_item_import.py:263-297 | no row is attempted twice in a run |
| ImportRun.LinkedParentRow | jira_work_item_import.py:90-117 | a linked parent is a kept row of a fitting kind |
| ImportRun.ParentJobFirst | jira_work_item_import.py:263-264 | a linked parent is scheduled earlier, in a lower tier |
| ImportRun.ParentAttemptedFirst | jira_work_item_import.py:263-264 | a linked parent is attempted earlier in the run, in a lower tier |
| ImportRun.ParentKeyFromItsEvent | jira_work_item_import.py:274-275 | the key a row finds for its parent is the key of the parent's own earlier event, or none when that event created nothing |
| ImportRun.UnlinkedOutcome | jira_work_item_import.py:274-297 | an unlinked row is skipped if it is a sub-task and is sent without a parent otherwise |
| ImportRun.LinkedParentOutcome | jira_work_item_import.py:274-297 | a linked row carries the parent's key when the parent was created; when it was not, a story or task is sent without a parent and a sub-task is skipped |
| ImportRun.RunParents | jira_work_item_import.py:263-297 | for every event of a run: unlinked rows get no parent, or are skipped as sub-tasks; linked rows have their parent attempted earlier, in a lower tier, and carry its key exactly when it was created |
| Importer.JiraImporter.constructor | jira_work_item_import.py:55-58 | a new importer has no created issues and no relationships |
| Importer.JiraImporter.ReadCsv | jira_work_item_import.py:62-72 | the loop returns exactly the intake of the rows |
| Importer.JiraImporter.OrganizeWorkItems | jira_work_item_import.py:74-121 | the loop returns the groups of the pass and adds the pass's links to the relationships, leaving the created issues alone |
| Importer.JiraImporter.CreateJiraIssue | jira_work_item_import.py:123-195 | the request sent is the shaped request; it has a parent exactly for a non-epic with a present key; the answer is the tracker's |
| Importer.JiraImporter.ImportRow | jira_work_item_import.py:273-297 | one row's loop body gives that row's attempt event; the created issues gain the row's key exactly on creation |
| Importer.JiraImporter.ImportTier | jira_work_item_import.py:266-297 | one tier loop gives the tier's events, and leaves as created issues the replay of those events |
| Importer.JiraImporter.ImportWorkItems | jira_work_item_import.py:256-297 | the import reads, organizes and runs the four tier loops; on a fresh importer the result is the run, and the created issues are the replay of its events |
| Importer.TierEventsSnoc | jira_work_item_import.py:267-295 | one more row adds its attempt against the map left by the earlier ones |
| Importer.ReplaySnoc | jira_work_item_import.py:269-295 | recording one more event adds its key only when it is a creation |
| Importer.MergeUpdate | jira_work_item_import.py:104-117 | adding a link to merged relationships adds it to the new part |
| Scenarios.RowOfKind | jira_work_item_import.py:91-113 | a row typed with a tier's name is of that tier |
| Scenarios.IntakeAllTyped | jira_work_item_import.py:65-71 | with every row typed, the items are all the rows, numbered from 1 |
| Scenarios.ChainOrganized | jira_work_item_import.py:94-117 | epic, story, sub-task: one item in each of three groups; the story is linked to the epic and the sub-task to the story |
| Scenarios.ChainScenario | jira_work_item_import.py:263-297 | epic, story, sub-task are created as P-1 with no parent, P-2 under P-1, and P-3 under P-2 |
| Scenarios.LoneStoryScenario | jira_work_item_import.py:99-104 | a story with no epic before it is created without a parent |
| Scenarios.LoneSubTaskScenario | jira_work_item_import.py:288-297 | a sub-task with no story or task before it is skipped, and nothing is recorded |
| Scenarios.FailedEpicScenario | jira_work_item_import.py:266-278 | when the epic's creation fails, the story linked to it is still created, without a parent |

## Left out

- HTTP work is not modelled: the session setup (`jira_work_item_import.py:48-53`) and the POST with its response handling (197-217). Creation is the function `create`, given up front; it answers a request with a key or with none. A request error (213) and an answer without a key both count as none.
- Any other exception raised while creating or transitioning an issue is not modelled. Examples are a `KeyError` from a malformed transition (233-234) and an `AttributeError` from a response body that is a list (205). Such an exception ends the whole import: no later row is attempted, and the key of the issue just created is never recorded (269-270). The model always runs every row to its end.
- `Request.rowId` is not part of the payload the source sends (167-195). The model adds it so that `create`, a pure function, can answer each row differently; this lets it stand for a tracker whose answers depend on what it was asked before.
- `transition_issue` (219-248) is not modelled. It only reads from the tracker and asks it to change an issue's status, and it changes neither `created_issues` nor `relationships`. Its request errors are caught (247); its other exceptions are covered by the line above.
- CSV parsing, the file, and the UTF-8 byte-order mark (63-64) are not modelled. The model starts from parsed rows, each a map from column header to cell text.
- A cell that the CSV reader fills with `None` (a short row) is not modelled. An absent column stands in for it. Cells are plain strings.
- The JSON and rich-text payload (132-156, 166-178) is left out. The title and description are kept as request fields; their document wrapping is not modelled.
- Console output is left out: progress lines, warnings (119, 185, 297), the summary sorted by row id (252-259, 299-307), and `main` with its configuration checks (310-337).
- `str.strip()` and `str.lower()` are modelled on ASCII only. Stripping removes the ASCII characters Python counts as whitespace: space, tab, line feed, vertical tab, form feed, carriage return and the separators U+001C to U+001F. Non-ASCII whitespace such as U+0085 or U+00A0 is not removed, and lower-casing maps only A-Z.
- Row ids are natural numbers; the source uses their decimal strings. Distinct positions give distinct ids either way, and a non-empty id string is always true in a test, so the model drops those tests.
- The rolling state holds the current epic's and the current parent's ids; the source holds the rows themselves and reads only their id.
- The four tier loops (266-297) are one method, `ImportTier`, taking the tier as a parameter. The sub-task loop's skip test is the `tier == SubTask` branch of `ImportRow`.
