# Mission Control markdown readers, writers and bookkeeping — a Dafny model

Mission Control is a dashboard over an agent workspace. It reads hand-edited markdown
documents (the agent roster `AGENTS.md`, per-agent `SOUL.md` personas, `active-tasks.md`,
`projects.md`), builds records from them, writes task and project edits back into those
documents, and keeps caches, log buffers and small UI state machines around them.

This project models that text handling as total functions over `seq<char>`, with the
line-by-line loops of the source written as Dafny methods proved against those functions.
Each regular expression of the source is a small hand-written matcher, with lemmas that
state what it accepts. Around the readers it models the request handlers that write the
documents and start agents, the logging back end (its in-memory buffers, its log line
format and the rotation of its log files), the browser side of the logs page, and the
small state machines of the dashboard: the theme provider, the quick-action flows, swipe
detection and the list, countdown and usage rules of the cards. Objects whose fields the
source updates in place are classes; clocks, random values, storage and processes are
parameters.

Modules:

- `Strings` — the JavaScript string primitives the readers use: `trim`, `split`, `join`,
  `indexOf`/`includes`, ASCII `toLowerCase`/`toUpperCase`, `String(n)` and `parseInt`.
- `Patterns` — matchers for the recurring regular-expression shapes: `\s+(.+)$`,
  `\s*(.+)` and the lazy group `X(.+?)Y`.
- `Seqs` — filter/count, bounded-buffer helpers and sequence lemmas.
- `Types` — the records the readers build: Agent, AgentSoul, Task, Project.
- `Parser` — from `src/lib/parser.ts`: the generic table reader `parseMarkdownTable`, the
  formatting stripper `extractPlainText` and the section splitter `extractSections`.
- `Records` — from `src/lib/parser.ts`: the roster, persona, task and project extractors
  `parseAgents`, `parseAgentSoul`, `parseActiveTasks` and `parseProjects`.
- `AgentLoad` — from `src/lib/parser.ts`: the persona merge in `loadAgentData`. The roster
  text and the `SOUL.md` files are parameters (a map from directory name to file text).
- `Roster` — from `data-layer-server.js`: `parseAgentsData`, the file watcher's roster
  reader (a table row pattern, bullet responsibilities, and the `SOUL.md` merge by key
  containment). The agents object keeps its key order beside its records.
- `RosterText` — rows written in the roster's table form, read back by `Roster`.
- `DataTasks` — from `data-layer-server.js`: `parseActiveTasks` with its four fixed
  buckets, `extractDate` and `parseTaskLine`.
- `DataProjects` — from `data-layer-server.js`: `parseProjectsData`, the projects object
  keyed by the heading with its white space removed.
- `DataGit` — from `data-layer-server.js`: `buildGitAnalytics`. The two `git log` outputs,
  the presence of `.git` and the date conversion `new Date(d).toISOString()` are
  parameters.
- `DataCache` — from `data-layer-server.js`: `safeRead`, `readAllSoulFiles`,
  `buildDataJson`, the module-level cache with its WebSocket subscribers, `broadcast`,
  and the debounce of `scheduleRebuild`. The workspace (file reads, the `agents` listing,
  the git outputs), the clock readings and the open sockets are parameters.
- `ApiTasks` — from `api-server.js`: the section-less task reader
  `parseActiveTasksMarkdown` and the line edit of `upsertActiveTask`. The file's text (or
  its absence) is a parameter and the text written back is the result.
- `DataStore` — from `src/lib/data.ts`: the five-second memory cache of `loadData`,
  `rebuildData`, `getCachedData` and `clearCache`, and `addTask`, which writes a task line
  under a section heading of `active-tasks.md`. The clock readings, the snapshot file's
  text and its decoding, the markdown build and the tasks file are parameters.
- `AddTaskRoute` — from `src/app/api/add-task/route.ts`: the title check, the task entry
  and its splice into `active-tasks.md` under `## SECTION`. The parsed body (or its
  failure), the file's text (or its absence), the date and the write's success are
  parameters; the response and the written text are the result.
- `Objects` — property lookup on the components' object-literal tables: an own key, or
  one of the names every object inherits from `Object.prototype` (`constructor`,
  `toString`, …), whose members are truthy and not strings.
- `Requests` — what the request handlers share: the fields of a parsed JSON body, the
  response, and the required-text check with its `trim`.
- `TaskForm` — from `src/components/AddTaskForm.tsx`: the task text `handleGenerate`
  builds from the form's title, description and priority, read back by `Records`.
- `UpdateProjectRoute` — from `src/app/api/update-project/route.ts`: the project id check,
  the header lookup in `projects.md`, the case-insensitive status rewrite and the
  replacement of the project's `**Pending:**` block. The parsed body, the file's text (or
  its absence) and the write's success are parameters.
- `ServerAddTask` — from `src/server-api/add-task/route.ts`: the title check, the task's
  defaults, and the hand-over to `DataStore.Store.AddTask`.
- `ServerSpawn` — from `src/server-api/spawn-agent/route.ts`: the presence and allow-list
  checks and the `openclaw agent run` command; the command's run is a parameter.
- `ServerUpdateProject` — from `src/server-api/update-project/route.ts`: the project id
  check and the updates record built field by field; `updateProject`'s answer is a
  parameter.
- `SpawnRoute` — from `src/app/api/spawn-agent/route.ts`: the agent allow-list, the task
  check and the success message with the task cut to fifty characters.
- `ShellCommand` — the double-quote escape of the task in the spawn command, and how a
  POSIX shell reads a double-quoted word back (section 2.2.3 of the POSIX Shell Command
  Language), with the full escape the quoting needs.
- `SpawnButton` — from `src/components/SpawnAgentButton.tsx`: the role labels, the
  collapsed button and the command copied to the clipboard.
- `TaskList` — from `src/components/TaskList.tsx`: the grouping of tasks by section, the
  section order and the empty state.
- `TokenTracker` — from `src/components/TokenTracker.tsx`: the usage percentage, its
  warning level, the total used and what is left of the pool.
- `CronCalendar` — from `src/components/CronCalendarView.tsx`: the countdown to a job's
  next run and the labels of well-known schedules.
- `Insights` — from `src/components/InsightsPanel.tsx`: the next streak milestone, dismissing
  an insight, the type filter and its counts.
- `ProjectHealth` — from `src/components/ProjectHealthCard.tsx`: how long ago the last
  commit was, and the short hash.
- `Sorting` — `Array.prototype.sort` with a comparator, as a stable insertion sort.
- `Dashboard` — from `src/app/page.tsx`: the subagents, the lead agent and the tasks
  sorted by priority, derived from the fetched snapshot.
- `Swipe` — from `hooks/useSwipe.ts`: which callback a touch movement fires.
- `Theme` — from `src/hooks/useTheme.js`: the initial theme, the document attributes, the
  provider's actions, and its apply, persist and system-preference effects (class
  `Provider`).
- `QuickActions` — from `src/components/quick-actions/useQuickActions.ts`: the
  confirm-then-execute flow, the loading flags, the toasts and the saved counter (class
  `Hook`).
- `QuickActionsPanel` — from `src/components/QuickActionsPanel.tsx`: the same flow with a
  loading set and the caller's `onAction` (class `Panel`).
- `GatewayLine` — from `backend/integration.js`: `parseOpenClawLogLine`.
- `Integration` — from `backend/integration.js`: the live session map kept by spawn and
  death events (class `Sessions`), and the handling of tailed gateway lines.
- `LogLine` — from `backend/server.js`: the line `writeLog` appends to `current.log` and
  the pattern `loadRecentLogs` reads it back with.
- `LogServer` — from `backend/server.js`: the bounded log, error, notification and metric
  buffers, the thresholds and `current.log`, with the queries of its endpoints (class
  `Server`).
- `LogRotation` — from `backend/log-rotation.js`: `rotateLogs`, `cleanupAgentLogs` and
  `compactErrorLogs` over a model of the logs directory (class `LogDir`).
- `LogsDashboard` — from `logs/dashboard.js`: the log viewer and its filters, the error
  counters, the threshold alerts, the notification history, the toasts, the health
  roll-up and the diagnostics output (class `Dashboard`).

## Model

| member | source | states |
|---|---|---|
| Strings.Trim | src/lib/parser.ts:17 | `trim` drops the white space at both ends: the result is no longer than the input and neither starts nor ends with white space |
| Strings.TrimMeaning | src/lib/parser.ts:17 | the trimmed text is one stretch of the input, with only white space cut away before and after it |
| Strings.TrimBlank | src/lib/parser.ts:20 | a line trims to '' exactly when it is blank |
| Strings.TrimIdempotent | src/lib/parser.ts:17 | trimming twice is trimming once |
| Strings.TrimOfSpacePrefix | src/lib/parser.ts:153 | leading white space never changes the trim |
| Strings.SplitParts | src/lib/parser.ts:11 | no piece of `split(sep)` contains the separator |
| Strings.JoinSplit | src/lib/parser.ts:80 | joining the pieces of `split(sep)` with `sep` gives back the input |
| Strings.SplitAfterPrefix | src/lib/parser.ts:244 | a separator after a separator-free prefix ends the first piece |
| Strings.IndexOf | src/lib/parser.ts:195 | the result is -1 and no occurrence exists, or it is the first occurrence at or after the start |
| Strings.Lower | src/lib/parser.ts:26 | `toLowerCase` keeps the length and lowers each character |
| Strings.ReplaceNonAlnum | src/lib/parser.ts:26 | every character outside `[a-z0-9]` becomes the replacement, the others stay |
| Strings.NatToString | src/lib/parser.ts:192 | `String(n)` is a non-empty digit string without a leading zero |
| Strings.ParseIntOfNatToString | src/lib/parser.ts:192 | reading back the decimal text of a counter gives the counter |
| Strings.ParseIntOfIntToString | src/components/quick-actions/useQuickActions.ts:55-61 | `parseInt(String(n), 10)` gives back `n`, negative or not |
| Patterns.SpacedRestToEndMeaning | src/lib/parser.ts:180 | `\s+(.+)$` matches exactly when the text splits into white space and a non-empty line rest; the capture is the rest after the longest such split |
| Patterns.SpacedRestToEndTrim | src/lib/parser.ts:182 | the trimmed capture of `\s+(.+)$` is the trimmed tail |
| Patterns.LazyClose | src/lib/parser.ts:186 | the lazy group `(.+?)` closes at the first closing delimiter after at least one character, never across a line terminator; -1 when there is none |
| Patterns.LazyCloseOfPlain | src/lib/parser.ts:186 | a group text without line terminators and without the delimiter's first character closes right after itself |
| Parser.Cells | src/lib/parser.ts:24 | the cells of a line are non-empty |
| Parser.CellsNonEmpty | src/lib/parser.ts:24-25 | a line has cells exactly when it holds a character other than '\|' and white space |
| Parser.HeaderKey | src/lib/parser.ts:26 | a column name keeps the length and consists of `[a-z0-9_]` |
| Parser.ShapeMeaning | src/lib/parser.ts:23-38 | the one-pass line scan finds '\|', cell text and non-separator characters exactly as the source's tests do |
| Parser.HeaderLineKind | src/lib/parser.ts:23-25 | a header line is a non-blank line with '\|' and at least one cell |
| Parser.DataLineKind | src/lib/parser.ts:33-40 | a data line is a non-blank line with '\|', at least one cell, and not made only of '\|', white space, '-' and ':' |
| Parser.FirstHeaderIsFirst | src/lib/parser.ts:23 | no line before the header line is a header line |
| Parser.RowOfCell | src/lib/parser.ts:42-44 | a column not repeated later holds the cell at its position, or '' past the last cell |
| Parser.RowKeys | src/lib/parser.ts:41-44 | a row's keys are exactly the column names |
| Parser.TableRowKeys | src/lib/parser.ts:37-46 | every row of a table has exactly the header's column names as keys |
| Parser.DataRowsCount | src/lib/parser.ts:37-46 | there is one row per data line after the header |
| Parser.SeparatorsAreNotRows | src/lib/parser.ts:32-35 | blank and separator lines never become rows |
| Parser.ScanTableMeaning | src/lib/parser.ts:16-48 | the line-by-line scan equals the declarative reading: no rows before the first header line, then one row per data line |
| Parser.TableLine | src/lib/parser.ts:17-47 | one loop iteration of the table reader is one step of the scan |
| Parser.ParseMarkdownTable | src/lib/parser.ts:10-51 | the table reader's loop returns the declarative table rows |
| Parser.CollapseNoTriple | src/lib/parser.ts:63 | after `\n{3,}` is replaced by two newlines, no three newlines follow each other |
| Parser.ExtractPlainTextShape | src/lib/parser.ts:56-65 | the plain text is trimmed and never holds three consecutive newlines |
| Parser.ExtractPlainText | src/lib/parser.ts:56-65 | stripping formatting never lengthens the text |
| Parser.ScanSectionsHeading | src/lib/parser.ts:77-83 | a heading line stores the pending lines under the current key when there are any, then opens a new empty section under its key |
| Parser.ScanSectionsPlain | src/lib/parser.ts:84-86 | any other line is appended to the pending lines |
| Parser.SectionsWithoutHeadings | src/lib/parser.ts:73-91 | a document without `##`/`###` headings is one section 'header' holding the whole text |
| Parser.ScanAfterHeading | src/lib/parser.ts:76-87 | the lines after a heading, up to the next heading, are pending under that heading's key |
| Parser.LastSection | src/lib/parser.ts:76-93 | the last heading's key maps to the lines after it joined by newlines, and a last heading with nothing after it records nothing, so a repeated key keeps its last value |
| Parser.ExtractSections | src/lib/parser.ts:70-94 | the splitter's loop returns the declarative section map |
| Records.StripBoldNoPair | src/lib/parser.ts:108 | after `replace(/\*\*/g, '')` no two asterisks follow each other |
| Records.StripBoldOfPlain | src/lib/parser.ts:108 | text without '**' is unchanged |
| Records.StripBoldIdempotent | src/lib/parser.ts:108 | stripping bold twice is stripping once |
| Records.NoHeaderNoAgents | src/lib/parser.ts:103-104 | without a `\| Agent \|` table header there are no agents, and with one the table is found |
| Records.AgentOfRow | src/lib/parser.ts:107-124 | a row gives an agent only with a non-empty name; id is the lowercased name; status idle; a temperature only for 'sam' |
| Records.AgentsOfFields | src/lib/parser.ts:107-127 | every parsed agent has a non-empty name, id = lowercased name, status idle, and a temperature only when it is 'sam' |
| Records.AgentsOfCount | src/lib/parser.ts:107-127 | one agent per row with a non-empty name: duplicate names are not merged |
| Records.ParseAgents | src/lib/parser.ts:99-131 | the roster reader's loop returns the declarative agent list |
| Records.SoulSectionFound | src/lib/parser.ts:148 | a `##\s*Specialties` section is found exactly when such a heading exists |
| Records.SoulSectionFrom | src/lib/parser.ts:148 | a found section never holds '##' |
| Records.BulletItemDash | src/lib/parser.ts:153 | a '-' line's item is the trimmed text after the dash |
| Records.BulletItemsCount | src/lib/parser.ts:150-153 | one specialty per line whose trim starts with '-' |
| Records.BulletItemsMeaning | src/lib/parser.ts:150-153 | the specialties are the items of the '-' lines, in the order of the lines |
| Records.ParseAgentSoul | src/lib/parser.ts:136-169 | whenToUse and boundaries are empty; personality and systemPrompt are at most 500 characters; specialties are [] without a Specialties section and otherwise exactly the items of its '-' lines, in order, each trimmed |
| Records.TaskLineMatch | src/lib/parser.ts:186 | a task line starts `- [`, holds 'x' or white space in the box, is done iff 'x', and has a non-empty single-line title |
| Records.ClassifyTaskHeading | src/lib/parser.ts:180-182 | a line is a heading iff it starts `##`, and its section text is the trimmed text after the '#' run |
| Records.ClassifyTaskItem | src/lib/parser.ts:186-188 | an indented line or a '[X]' box is never a task; completed iff the box holds 'x' |
| Records.TaskStatusOf | src/lib/parser.ts:194-196 | completed iff done; otherwise in-progress when the lowercased section contains 'in progress', then blocked, then todo |
| Records.MakeTask | src/lib/parser.ts:191-198 | the `i`-th task gets id `task-i`, its title and its section |
| Records.SectionBeforeNone | src/lib/parser.ts:177 | a task with no heading above it has section '' |
| Records.SectionBeforeNearest | src/lib/parser.ts:180-184 | a task's section is the text of the nearest heading above it |
| Records.TasksUpTo | src/lib/parser.ts:179-200 | the `i`-th task comes from the `i`-th task line, in input order, with id `task-i` and the section of the nearest heading above |
| Records.TaskIndices | src/lib/parser.ts:179-200 | task lines are taken in increasing order and none is skipped |
| Records.ActiveTaskIdsDistinct | src/lib/parser.ts:192 | task ids are distinct |
| Records.ParseActiveTasks | src/lib/parser.ts:174-203 | the task reader's loop returns the declarative task list |
| Records.ProjectIdMeaning | src/lib/parser.ts:220 | the project id is the lowercased name with every character outside `[a-z0-9]` replaced by '-' |
| Records.TechStackItems | src/lib/parser.ts:244 | the tech stack is the ','-pieces of the capture, each trimmed and free of ',' |
| Records.LastCaptureMeaning | src/lib/parser.ts:226-246 | a field is unset when no line matches; otherwise it comes from the last matching line |
| Records.ProjectAfterLastWins | src/lib/parser.ts:219-246 | status, URL, description and tech stack each come from the last line matching their pattern, trimmed; id, name and details never change |
| Records.StatusDefault | src/lib/parser.ts:222 | without a Status line the status is 'unknown' |
| Records.ReadProject | src/lib/parser.ts:226-246 | the per-line loop returns the declarative project |
| Records.ProjectIds | src/lib/parser.ts:218-220 | every project's id is its name lowercased with every character outside `[a-z0-9]` replaced by '-' |
| Records.ProjectsCount | src/lib/parser.ts:212-216 | one project per '##' chunk after the first that has a non-empty line |
| Records.ParseProjects | src/lib/parser.ts:208-252 | the project reader's loop returns the declarative project list |
| AgentLoad.SoulAgentId | src/lib/parser.ts:271-275 | a directory outside the four renamed ones maps to its own name |
| AgentLoad.AgentDirIds | src/lib/parser.ts:267-275 | the five listed directories map to themselves and are distinct |
| AgentLoad.FindAgent | src/lib/parser.ts:281 | `find` returns the first agent with the id, or none when no agent has it |
| AgentLoad.NewSubagent | src/lib/parser.ts:286-294 | a new agent has the id, the capitalised name, role 'Subagent', model 'unknown', status idle and the soul |
| AgentLoad.Capitalize | src/lib/parser.ts:288 | the first character is upper-cased and the rest kept |
| AgentLoad.AttachSoulMeaning | src/lib/parser.ts:281-295 | the soul goes to the first agent with the id and nothing else changes; without one, exactly one new agent is appended |
| AgentLoad.FindAgentAppend | src/lib/parser.ts:281-295 | appending an agent does not change which agent is found first |
| AgentLoad.MergeDirsLength | src/lib/parser.ts:269-297 | each directory adds at most one agent and none is removed |
| AgentLoad.AttachSoulKeepsSoul | src/lib/parser.ts:281-283 | attaching a soul under another id keeps an agent's soul |
| AgentLoad.LoadAgentsSouls | src/lib/parser.ts:257-300 | every listed directory with a SOUL.md gives its persona to the first agent with its id; at most five agents are added |
| AgentLoad.LoadAgentsReadsListed | src/lib/parser.ts:267 | SOUL.md files outside the five listed directories never change the result |
| AgentLoad.MergeSoulFiles | src/lib/parser.ts:269-297 | the directory loop returns the declarative merge |
| AgentLoad.LoadAgentData | src/lib/parser.ts:257-300 | the loader returns the roster agents merged with the listed personas |
| Roster.RowMatchLaidOut | data-layer-server.js:171 | a line laid out as `\| **name** \| role \| model \| responsibility \|` with bar-free cells that start with a non-space character matches the row pattern with exactly those four groups |
| Roster.MatchKeyFirst | data-layer-server.js:194-196 | `find` returns the first key that contains the directory name or is contained in it; none when no key does |
| Roster.RecordOf | data-layer-server.js:177-184 | a row's record holds its one trimmed responsibility, no skills and no soul |
| Roster.PutKeeps | data-layer-server.js:177 | `agents[key] = ...` keeps the keys distinct and equal to the records' keys, and adds `key` only |
| Roster.PutOrder | data-layer-server.js:177 | `Object.keys` keeps its earlier order and gains `key` at the end exactly when it is new |
| Roster.LastRowKey | data-layer-server.js:175 | there is a current agent exactly when some earlier line is a row |
| Roster.ScanRosterState | data-layer-server.js:166-190 | the line loop keeps the agents object well formed, and `currentAgent` is the key of the most recent row, which holds a record |
| Roster.ScanRosterKeys | data-layer-server.js:172-177 | a key holds a record exactly when some row has that key |
| Roster.NoRowNoAgents | data-layer-server.js:185 | lines before the first row change nothing, so bullets without a row above are dropped |
| Roster.StepKeepsRecord | data-layer-server.js:169-189 | a line that is neither a row with the key nor a bullet under it leaves that key's record alone |
| Roster.StepAppends | data-layer-server.js:185-188 | a bullet under the current agent appends its trimmed label to that agent's responsibilities |
| Roster.LastRowWins | data-layer-server.js:172-189 | the last row with a key stands, with its responsibility followed by the bullets after it while it is the current agent |
| Roster.AttachKeeps | data-layer-server.js:193-204 | one soul entry keeps the keys, their order, and the set of records |
| Roster.AttachRecord | data-layer-server.js:194-203 | one soul entry sets the soul of its first matching key, when that key is non-empty, and of no other agent |
| Roster.MergeSoulsKeys | data-layer-server.js:193-204 | the SOUL.md merge keeps the keys in their order and the set of records |
| Roster.MergeSoulsKeeps | data-layer-server.js:193-204 | the SOUL.md merge keeps the agents object well formed |
| Roster.MergeSoulsRecord | data-layer-server.js:193-204 | the merge changes no field but `soul`, and a record's soul comes from the last entry that first matches it |
| Roster.AgentsDataWellFormed | data-layer-server.js:160-207 | the result is well formed, and a missing or empty roster gives `{}` |
| Roster.AgentsDataKeys | data-layer-server.js:160-207 | an agent is in the result exactly when some line of the roster is a row with its key |
| Roster.RosterLine | data-layer-server.js:171-189 | the loop body applies the row test first and the bullet test only to other lines, as one step of the scan |
| Roster.ScanLines | data-layer-server.js:165-190 | the line loop returns the declarative roster |
| Roster.MergeSoulEntries | data-layer-server.js:193-204 | the entry loop returns the declarative merge |
| Roster.ParseAgentsData | data-layer-server.js:160-207 | the reader returns the declarative agents object |
| RosterText.RowTextRoundTrip | data-layer-server.js:171 | a written row reads back with its name and its three fields, each followed by the one space before the next bar |
| RosterText.RowTextRecord | data-layer-server.js:171-184 | a written row of trimmed fields is read as a row keyed by the lower-cased name, with the lower-cased model and the one responsibility |
| RosterText.QuinnRow | data-layer-server.js:170-184 | the row `\| **Quinn** \| Code Architect \| model-x \| reviews code \|` gives the agent `quinn` with that role, model and responsibility |
| DataTasks.ExtractDate | data-layer-server.js:364-367 | a found date has the shape `\d{4}-\d{2}-\d{2}` |
| DataTasks.DateFromMeaning | data-layer-server.js:365 | the search returns the leftmost match, and fails only when the pattern matches nowhere |
| DataTasks.ExtractDateOfLabel | data-layer-server.js:364-367 | a document that opens with `Last updated: ` and a date is dated by that date |
| DataTasks.DetailsValue | data-layer-server.js:379 | details are null when absent or blank, and otherwise trimmed and non-empty |
| DataTasks.ParseTaskLine | data-layer-server.js:372-383 | a line gives its raw trimmed text exactly when the task pattern matches nowhere in it |
| DataTasks.TaskMatchFromNone | data-layer-server.js:373 | the unanchored search fails exactly when the pattern fails at every position |
| DataTasks.TaskTextRoundTrip | data-layer-server.js:372-381 | a task line written with a plain title reads back with the trimmed title, completed exactly when the box holds 'x', and its details |
| DataTasks.PushTask | data-layer-server.js:235 | `push` adds the task at the end of its bucket and leaves the other buckets alone |
| DataTasks.HeadingBucket | data-layer-server.js:229-233 | a heading selects 'Recently Completed' when it contains it, and 'In Progress' only when it does not contain 'Recently Completed' |
| DataTasks.ActiveTasksOf | data-layer-server.js:212-223 | a missing or empty document gives no buckets; otherwise the date is the extracted one |
| DataTasks.LastHeading | data-layer-server.js:228 | the nearest line above that holds '##', with no such line between it and the current line |
| DataTasks.ScanTasksMeaning | data-layer-server.js:225-237 | `currentSection` is the bucket of the nearest heading, and each bucket holds exactly the parsed task items under headings that select it, in order |
| DataTasks.NoHeadingNoTasks | data-layer-server.js:234 | a document without a '##' line has four empty buckets |
| DataTasks.ParseActiveTasks | data-layer-server.js:212-240 | the reader's loop returns the declarative buckets |
| DataProjects.ProjectKeyShape | data-layer-server.js:255 | a project key holds no white space and no upper-case letter |
| DataProjects.HeadingKey | data-layer-server.js:252-255 | a heading starts with `##`, and its key is the text after the `##`, trimmed, without white space and lower-cased |
| DataProjects.ClassifyProjectLine | data-layer-server.js:252-262 | a line counts as a heading exactly when the `##` heading pattern matches it, and then carries that heading's name and key; the heading test comes before every other test |
| DataProjects.ProjectsData | data-layer-server.js:246 | a missing or empty document gives `{}` |
| DataProjects.LastProjectKey | data-layer-server.js:255 | there is a current project exactly when some earlier line is a heading |
| DataProjects.ScanProjectsState | data-layer-server.js:249-264 | `currentProject` is the key of the last heading, and that key holds a record |
| DataProjects.ScanProjectsKeys | data-layer-server.js:253-256 | a key holds a project exactly when some heading has that key |
| DataProjects.NoHeadingNoProjects | data-layer-server.js:257-262 | without a heading no line adds anything |
| DataProjects.LastStatusNone | data-layer-server.js:256-258 | the status stays 'Unknown' exactly when no line of the block sets it |
| DataProjects.DetailLinesFrom | data-layer-server.js:261-262 | every detail comes from a detail line of the block, and each such line gives one |
| DataProjects.DetailShape | data-layer-server.js:261-262 | a detail is non-blank and trimmed |
| DataProjects.BlockStep | data-layer-server.js:257-262 | a line that is not a heading extends the current project's block by one line |
| DataProjects.LastHeadingBlock | data-layer-server.js:251-264 | the last heading owns the lines after it: the last status line's text, the last URL, and the other non-blank lines not starting with '#' as details, in order |
| DataProjects.OtherHeadingsKeep | data-layer-server.js:251-264 | lines without a heading for a key, after that key stopped being current, leave its record alone |
| DataProjects.ProjectRecord | data-layer-server.js:251-264 | a key's final record is the block from its last heading to the next heading; a repeated heading starts the record afresh |
| DataProjects.ProjectsDataKeys | data-layer-server.js:245-267 | a key names a project exactly when some `##` heading of the document has that key |
| DataProjects.ProjectsDataNoHeading | data-layer-server.js:245-267 | a document without headings gives `{}` |
| DataProjects.ParseProjectsData | data-layer-server.js:245-267 | the reader's loop returns the declarative projects object |
| DataProjects.ProjectLineStep | data-layer-server.js:252-263 | the loop body tests for a heading first and, under a truthy current key, the status, URL and detail tests in that order, as one step of the scan |
| DataGit.ParseCommitLine | data-layer-server.js:285-295 | a commit line throws exactly when it has fewer than four `\|` fields or an invalid date; the full hash is the first field and the short hash its first seven characters |
| DataGit.CollectMeaning | data-layer-server.js:285 | collecting succeeds exactly when every line does, keeping one commit per line in order |
| DataGit.ParseCommitsMeaning | data-layer-server.js:285-295 | the commits are the lines' commits in order, unless some line throws |
| DataGit.CommitLineSplit | data-layer-server.js:286 | the four leading fields split off as written, and the message keeps its own `\|` |
| DataGit.CommitLineRoundTrip | data-layer-server.js:281-295 | a written commit line reads back with its fields trimmed, the date in ISO form, and the whole message |
| DataGit.ShortLineFails | data-layer-server.js:286-290 | a line with fewer than four fields is malformed |
| DataGit.Authored | data-layer-server.js:302-313 | an author's commits are among the listed ones and are all theirs |
| DataGit.AuthorStatsMeaning | data-layer-server.js:301-313 | an author has statistics exactly when they wrote a listed commit; the count is their number of commits, the email and `firstCommit` come from their first listed commit and `lastCommit` from their last |
| DataGit.AuthorCountBound | data-layer-server.js:311 | every author's count is between 1 and the number of commits |
| DataGit.AuthorCountsSum | data-layer-server.js:301-313 | the authors are distinct, are exactly the keys of the statistics, and their counts add up to the number of commits |
| DataGit.BuildAuthorStats | data-layer-server.js:301-313 | the `forEach` returns the declarative statistics |
| DataGit.ContributionsMeaning | data-layer-server.js:316-320 | a day is in the graph exactly when a commit was made on it, and its count is the number of those commits |
| DataGit.CommitsOnBound | data-layer-server.js:318-319 | no day counts more commits than were listed |
| DataGit.TallyStep | data-layer-server.js:319 | one more commit on a day raises the total of the graph by one and keeps its days distinct |
| DataGit.DayCountsSum | data-layer-server.js:316-320 | the days are distinct, are exactly the keys of the graph, and their counts add up to the number of commits |
| DataGit.BuildContributions | data-layer-server.js:316-320 | the `forEach` returns the declarative graph |
| DataGit.FieldEnd | data-layer-server.js:331 | the first field of `split(/\s+/)` runs to the first white space |
| DataGit.NumstatTotalsAppend | data-layer-server.js:330-338 | the totals over two runs of lines add up |
| DataGit.TabbedFields | data-layer-server.js:331 | two tab-separated fields without white space come back as written |
| DataGit.NumstatOfText | data-layer-server.js:330-337 | a text file's numstat line counts exactly the additions and deletions it names |
| DataGit.NumstatOfBinary | data-layer-server.js:332-333 | a binary file's line `-\t-\tpath` counts nothing |
| DataGit.SumNumstat | data-layer-server.js:330-338 | the line loop returns the declarative totals |
| DataGit.Report | data-layer-server.js:343-354 | the total is the number of commits, the recent commits are the first ten, the last commit is the first listed, the last activity is its date when non-empty, and a failed numstat leaves the counts at zero |
| DataGit.GitAnalytics | data-layer-server.js:272-358 | an error without `.git`, when `git log` fails or when a commit line throws; otherwise the report on the listed commits |
| DataGit.BuildGitAnalytics | data-layer-server.js:272-358 | the analytics method returns the declarative result |
| DataCache.Directories | data-layer-server.js:130-132 | a name is listed exactly when the `agents` directory holds a directory entry of that name |
| DataCache.FirstTaken | data-layer-server.js:142-150 | the index the candidate loop stops at: every earlier path is missing or empty, and the path there is neither |
| DataCache.FirstSoulMeaning | data-layer-server.js:136-150 | the candidate loop finds nothing when every path is missing or empty, and otherwise takes the first other path's text or its read error |
| DataCache.SoulsThrownStays | data-layer-server.js:134-151 | once a directory's read throws, later directories do not change the outcome |
| DataCache.SoulsOfDone | data-layer-server.js:134-151 | reading the soul files fails exactly when some directory's candidate loop throws |
| DataCache.SoulsOfEntries | data-layer-server.js:134-151 | every soul entry is a listed directory with the file its candidate loop finds |
| DataCache.SoulsOfDistinct | data-layer-server.js:134-151 | over distinct directories no directory has two soul entries |
| DataCache.SoulsOfComplete | data-layer-server.js:134-151 | every listed directory whose candidate loop finds a file has that entry |
| DataCache.ReadAllSoulFiles | data-layer-server.js:124-155 | the nested loops with `break` return the declarative soul files, or the first read error |
| DataCache.LastGitCommit | data-layer-server.js:47 | `lastGitCommit` is never empty: the newest commit's hash, or "unknown" |
| DataCache.LastGitCommitDate | data-layer-server.js:48 | `lastGitCommitDate` is never empty: the newest commit's date, or "unknown" |
| DataCache.BuildData | data-layer-server.js:27-105 | the build throws exactly when a source read fails, a soul read fails or the write fails, with the roster's read error when that read failed; a built snapshot has version "1.0.0", the workspace root, the elapsed build time and the git analytics |
| DataCache.NoRepositoryUnknown | data-layer-server.js:47-48 | without a repository both commit fields are "unknown" |
| DataCache.MissingFilesEmpty | data-layer-server.js:33-35 | missing roster, task and project files build an empty roster, four empty task buckets and no projects |
| DataCache.BuildSnapshot | data-layer-server.js:31-77 | the build as written returns the declarative snapshot or error |
| DataCache.SentToAppend | data-layer-server.js:388-395 | the messages a client receives over two broadcasts add up |
| DataCache.DeliveriesMeaning | data-layer-server.js:388-395 | a broadcast delivers its message to a client exactly when the client subscribes and its socket is open |
| DataCache.DeliveriesOnce | data-layer-server.js:390-394 | with distinct subscribers, each open subscriber receives the message once and no one else receives it |
| DataCache.BuiltCache | data-layer-server.js:79-82 | a successful build replaces the data and the modification time and raises the version by one; a failed one keeps all three |
| DataCache.BuiltNotifies | data-layer-server.js:86-104 | after a build each open subscriber receives exactly one message: `data-rebuilt` with the new version on success, `build-error` with the error otherwise |
| DataCache.Without | data-layer-server.js:523-526 | removing a subscriber keeps every other subscriber and no one else |
| DataCache.WithoutKeeps | data-layer-server.js:523-526 | removing a subscriber keeps the subscribers distinct |
| DataCache.ConnectMeaning | data-layer-server.js:511-521 | a connecting client becomes a subscriber, the set stays distinct, the data and version stay, and the client receives one message exactly when data exists |
| DataCache.Cache.constructor | data-layer-server.js:17-22 | the cache starts with no data, version 0 and no subscribers |
| DataCache.Cache.Broadcast | data-layer-server.js:388-395 | the subscriber loop sends the message to the open subscribers in order |
| DataCache.Cache.Commit | data-layer-server.js:79-104 | the cache update and the broadcast after a build |
| DataCache.Cache.BuildDataJson | data-layer-server.js:27-105 | the build returns the declarative outcome and leaves the cache as the build prescribes, keeping the subscribers distinct |
| DataCache.Cache.Connect | data-layer-server.js:511-521 | a connection adds the subscriber and sends the current data when there is some |
| DataCache.Cache.Disconnect | data-layer-server.js:523-526 | a closed socket leaves the subscribers |
| DataCache.BurstDefers | data-layer-server.js:430-438 | while file events keep arriving sooner than the delay, nothing is built and the rebuild is due one second after the last event |
| DataCache.BurstBuildsOnce | data-layer-server.js:434-438 | a burst of file events builds exactly once, at the first tick after the delay, and the timer is then cleared |
| DataCache.Watcher.ScheduleRebuild | data-layer-server.js:430-446 | a file event re-arms the timer for one second later and broadcasts the change |
| DataCache.Watcher.Tick | data-layer-server.js:436-438 | the timer fires exactly when its deadline has passed, then builds and updates the cache; otherwise nothing changes |
| ApiTasks.LineTask | api-server.js:42-52 | a line gives a task only when the task pattern matches after its leading white space; the task comes from `active-tasks.md`, has a non-empty title and is completed exactly when the box holds `x` |
| ApiTasks.TasksOfLinesAppend | api-server.js:42-52 | reading two runs of lines gives the tasks of the first run followed by those of the second |
| ApiTasks.TasksOfOneLine | api-server.js:42-52 | one line gives its own task or nothing |
| ApiTasks.TasksOfLinesMeaning | api-server.js:37-55 | a task is read exactly when some line reads as it, wherever that line stands |
| ApiTasks.ParseMarkdownTasks | api-server.js:37-55 | the `forEach` over the lines returns the tasks of the lines in order |
| ApiTasks.ReadBackDescription | api-server.js:43 | the description read back is never empty, and a non-empty description comes back as written |
| ApiTasks.DetailsOfBareDash | api-server.js:43 | an em dash with nothing after its space captures that space as the description |
| ApiTasks.UpsertLineMatch | api-server.js:43-61 | the task pattern matches a written line at its dash, with the title and the description in their groups |
| ApiTasks.UpsertLineTask | api-server.js:43-61 | a written line reads back as the task with its title, completed exactly when written done, and its description |
| ApiTasks.UnindentedIndent | api-server.js:43 | white space before a line is skipped together with the line's own |
| ApiTasks.UnindentedAtDash | api-server.js:43 | a line starting with its dash is read from its first character |
| ApiTasks.LineTaskIndent | api-server.js:43 | white space before a line does not change the task it gives |
| ApiTasks.IndentedLineTask | api-server.js:43-61 | a written line, indented by any white space, still reads back as its task |
| ApiTasks.ActiveTasksText | api-server.js:27-34 | an unreadable file reads as the empty text, a readable one as its text |
| ApiTasks.FirstContaining | api-server.js:69-79 | the index of the first line containing the title, or -1 when no line does |
| ApiTasks.FirstInProgress | api-server.js:83 | the index of the first line starting with `## In Progress`, or -1 when no line does |
| ApiTasks.SpliceIn | api-server.js:85 | the new line sits at the given index (at the end when the index is past it) with the lines before and after it kept |
| ApiTasks.UpsertedFoundAt | api-server.js:69-79 | with the title first found at a line, that line alone is rewritten, and only when the file has a task section |
| ApiTasks.UpsertedNotFound | api-server.js:81-86 | with the title on no line, a done task changes nothing and another task is spliced in two lines below the first `## In Progress` heading when there is one |
| ApiTasks.UpsertFoundMeaning | api-server.js:65-79 | a found task stays on its line: the line count is unchanged, every other line is kept, the found line becomes the task line exactly when the file has a task section (or already was it), and the chosen target section is never used |
| ApiTasks.UpsertInsertMeaning | api-server.js:81-86 | a new task that is not done goes below the first `## In Progress` heading, two lines down or at the end; taking it out again gives back the file's lines |
| ApiTasks.UpsertUnchanged | api-server.js:58-92 | when no line is rewritten or inserted, the file is written back exactly as it was read |
| ApiTasks.UpsertLineOneLine | api-server.js:61 | a task line with a one-line title and description holds no newline |
| ApiTasks.UpsertedLines | api-server.js:60-91 | splitting the written text gives back exactly the joined lines |
| ApiTasks.UpsertRoundTrip | api-server.js:37-92 | whenever the task line is written, reading the written file finds that task, done exactly when the status was `done` |
| ApiTasks.UpsertActiveTask | api-server.js:58-92 | the index loop with `break` and the splice write the declarative lines joined by newlines |
| DataStore.LoadFromMemory | src/lib/data.ts:31-34 | the cache answers exactly when it holds a document stored less than 5000 ms earlier, and then the state is unchanged |
| DataStore.LoadStale | src/lib/data.ts:36-50 | a stale or empty cache takes the snapshot file exactly when it exists and decodes, stored with the current time; otherwise the rebuilt document, stored with the time after the build |
| DataStore.LoadCaches | src/lib/data.ts:27-51 | every load leaves the document it returns in the cache |
| DataStore.LoadAgain | src/lib/data.ts:31-34 | a second load less than five seconds after the first stored its document returns that document from memory |
| DataStore.ClearedMisses | src/lib/data.ts:75-78 | after `clearCache` there is no cached document and the next load does not come from memory |
| DataStore.Store.constructor | src/lib/data.ts:11-12 | the module starts with no cached document and time 0 |
| DataStore.Store.RebuildData | src/lib/data.ts:56-63 | the built document is cached with the clock reading after the build, and returned |
| DataStore.Store.LoadData | src/lib/data.ts:27-51 | the returned document and the new cache state are those of `Load` on the old state |
| DataStore.Store.GetCachedData | src/lib/data.ts:68-70 | the cached document, if any, is returned and nothing changes |
| DataStore.Store.ClearCache | src/lib/data.ts:75-78 | the cache is emptied and its time reset to 0 |
| DataStore.SectionOf | src/lib/data.ts:114 | the section is never empty, and is the given one when that is not empty |
| DataStore.PriorityTag | src/lib/data.ts:123 | the tag is empty exactly when no priority is given, and holds no newline |
| DataStore.PriorityTagUpper | src/lib/data.ts:123 | the tag is the priority's upper-cased name in brackets after a space |
| DataStore.AgentTag | src/lib/data.ts:124 | the agent tag holds a newline only when the agent name does |
| DataStore.DescriptionTag | src/lib/data.ts:125 | the description tag holds a newline only when the description does |
| DataStore.TaskEntryEnds | src/lib/data.ts:126 | the entry opens with the unchecked box and the bold title and ends with a backslash and `n` |
| DataStore.TaskEntryOneLine | src/lib/data.ts:123-126 | the whole entry lies on one line when the title, the agent and the description do |
| DataStore.HeadingText | src/lib/data.ts:119 | the appended heading starts with a backslash and holds a newline only when the section name does |
| DataStore.NewlineEnd | src/lib/data.ts:115 | the greedy `\s*\n` stops after the last newline of the range, with no newline after it, or finds none |
| DataStore.HeadingEnd | src/lib/data.ts:115 | a match of `##+\s*SECTION\s*\n` tried at a place ends after a newline beyond that place, or there is none |
| DataStore.FirstHeadingMatches | src/lib/data.ts:115-117 | the place the pattern is first found at is a match |
| DataStore.FirstHeadingFinds | src/lib/data.ts:115-117 | no match lies before the first one found |
| DataStore.HeadingEndCaseless | src/lib/data.ts:115 | a case-exact match is a match under the `i` flag, ending at the same place |
| DataStore.CaseExactFound | src/lib/data.ts:129 | when the case-exact pattern finds a heading, the caseless test does too |
| DataStore.HeadingEndAppend | src/lib/data.ts:117-120 | text appended without a newline and starting with neither `#` nor white space adds no match and changes none |
| DataStore.NoHeadingAfterAppend | src/lib/data.ts:117-120 | when no heading is found, the appended heading (written with backslash-`n`) is still not found by the case-exact pattern |
| DataStore.AddTaskFound | src/lib/data.ts:129-132 | with a case-exact heading the entry is inserted right after the first match, behind a newline, and nothing else changes |
| Seqs.SpliceOut | src/lib/data.ts:132 | taking the inserted entry out again gives back the file |
| DataStore.AddTaskCaseOnly | src/lib/data.ts:117-135 | a heading that matches only up to case gets no new heading, and the entry is appended at the end |
| DataStore.AddTaskMissing | src/lib/data.ts:117-135 | with no heading at all, the heading text and then the entry are appended at the end |
| DataStore.ReturnedTask | src/lib/data.ts:140-142 | the result is the rebuilt data's last task, or the given task with the id `task-<time>` when there is none |
| DataStore.ReturnedTaskNotAdded | src/lib/data.ts:140-142 | the returned task can be another task than the one added |
| DataStore.Store.AddTask | src/lib/data.ts:104-143 | a missing file fails before anything changes; otherwise the step-by-step edit writes `AddedText` and the data is rebuilt and cached |
| DataStore.NewlineHeadingFound | src/lib/data.ts:119 | with real newlines the appended heading would be found by the case-exact pattern |
| Objects.LookupOr | src/components/CronCalendarView.tsx:105 | `table[key] \|\| fallback`: a listed non-empty text, an inherited member for an inherited name, and the fallback otherwise |
| Requests.CheckedText | src/app/api/add-task/route.ts:23-30 | a title passes exactly when it is a string that is not all white space, and what is kept is its trim, non-empty and already trimmed |
| AddTaskRoute.EntryOneLine | src/app/api/add-task/route.ts:36 | the entry opens with the unchecked box and the bold marker, and its only newline is its last character when the title, date and priority hold none |
| AddTaskRoute.InsertedBeforeNext | src/app/api/add-task/route.ts:51-58 | with the header found and a `\n## ` after it, the entry goes in at that newline, after the whole header, and taking it out gives back the file |
| AddTaskRoute.InsertedAtEnd | src/app/api/add-task/route.ts:59-62 | with the header found and no heading after it, a newline and the entry are appended |
| AddTaskRoute.InsertedMissing | src/app/api/add-task/route.ts:63-66 | without the header, `\n## SECTION`, a blank line and the entry are appended |
| AddTaskRoute.InsertedHolds | src/app/api/add-task/route.ts:47-66 | in every case the written text holds the section header and the entry |
| AddTaskRoute.DeeperHeadingCounts | src/app/api/add-task/route.ts:48-49 | the header is found as a substring, so `### SECTION` or a longer heading counts as the section |
| AddTaskRoute.Post | src/app/api/add-task/route.ts:18-85 | the file is written exactly when the status is 200, and success is reported exactly then |
| AddTaskRoute.PostRejectsTitle | src/app/api/add-task/route.ts:22-28 | the status is 400 exactly when the title is missing, not a string or blank, and then nothing is written |
| AddTaskRoute.PostWrites | src/app/api/add-task/route.ts:30-76 | with a good title the written text is the trimmed title's entry, with the default section and priority, spliced into the file or into the new-file header, and holds both |
| AddTaskRoute.PostFails | src/app/api/add-task/route.ts:78-83 | an unparsable body, or a failed write, gives a 500 with nothing written |
| TaskForm.Generate | src/components/AddTaskForm.tsx:18-23 | nothing is generated exactly when the title is blank |
| TaskForm.PriorityTagText | src/components/AddTaskForm.tsx:21 | only `high` and `low` are tagged, upper-cased as ` [HIGH]` and ` [LOW]`; `medium` adds nothing |
| TaskForm.GenerateLines | src/components/AddTaskForm.tsx:21-23 | the text is the box-and-title line, plus a second line of two spaces and the trimmed description exactly when the description is not blank |
| TaskForm.FirstLineTask | src/components/AddTaskForm.tsx:23 | the first line is read by the task classifier of `parseActiveTasks` as an open task titled by the trimmed title |
| TaskForm.GenerateRoundTrip | src/components/AddTaskForm.tsx:23 | round trip: `parseActiveTasks` reads the generated text as exactly one open task `task-0` with the trimmed title and no section, for titles without `*` or line breaks |
| UpdateProjectRoute.IndexOfCaseless | src/app/api/update-project/route.ts:57 | the first position at or after `from` where the pattern stands up to ASCII case, and no earlier one |
| UpdateProjectRoute.CaselessHeaderFirst | src/app/api/update-project/route.ts:43-57 | the status search's `## ID` comes no later than the exact header the project was found by |
| UpdateProjectRoute.LineStop | src/app/api/update-project/route.ts:57 | the end of the rest of the line: the first newline at or after the position, or the end, with no newline before it |
| UpdateProjectRoute.LineRestSetParts | src/app/api/update-project/route.ts:58 | the text up to the marker's end and from the line's newline on is kept, and a space and the status stand between |
| UpdateProjectRoute.StatusRewriteFound | src/app/api/update-project/route.ts:56-59 | the match ends at the end of the first `**Status:**` after the first `## ID`, both up to case |
| UpdateProjectRoute.StatusRewriteNone | src/app/api/update-project/route.ts:57-58 | without the header, or without a status marker after it, the text is unchanged |
| UpdateProjectRoute.StatusCrossesProjects | src/app/api/update-project/route.ts:57 | the status search runs past the next project's heading: a project without a status line gets the next project's status line rewritten |
| UpdateProjectRoute.PendingStop | src/app/api/update-project/route.ts:69 | the lazy block ends at the first blank line before a `## ` or `# ` heading, or at the end of the slice |
| UpdateProjectRoute.PendingLinesRead | src/app/api/update-project/route.ts:71-73 | the new block's lines are the items after `- `, or the single line `- None` for no items |
| UpdateProjectRoute.ReplaceFirstParts | src/app/api/update-project/route.ts:78 | a string `replace` changes the first occurrence only and keeps the text around it; no occurrence, no change |
| UpdateProjectRoute.PendingRewriteFound | src/app/api/update-project/route.ts:62-80 | with a block in the project's slice, the rewrite replaces the first copy of that block in the whole text by the marker and the new lines |
| UpdateProjectRoute.PendingBlockInText | src/app/api/update-project/route.ts:69-78 | the block starts with `**Pending:**` and a newline, and a copy of it is always found in the whole text |
| UpdateProjectRoute.PendingRewriteNone | src/app/api/update-project/route.ts:69-70 | a slice without the marker leaves the text unchanged |
| UpdateProjectRoute.Post | src/app/api/update-project/route.ts:17-99 | a text is written exactly when the status is 200, and success holds exactly then |
| UpdateProjectRoute.PostRejectsId | src/app/api/update-project/route.ts:22-27 | a 400 exactly for a missing, non-string or blank id, with nothing written |
| UpdateProjectRoute.PostNotFound | src/app/api/update-project/route.ts:31-51 | an unreadable file is a 500, and a 404 comes exactly when the trimmed id's header is absent; only a 200 writes |
| UpdateProjectRoute.PostNoFields | src/app/api/update-project/route.ts:53-83 | with neither status nor pending, the file is written back unchanged |
| UpdateProjectRoute.PostWrites | src/app/api/update-project/route.ts:53-90 | a success writes the status rewrite followed by the pending rewrite from the original header position |
| CronCalendar.NextRun | src/components/CronCalendarView.tsx:70-81 | 'Overdue' exactly for a negative difference, 'Any second now' below a minute, minutes below an hour, hours and minutes below a day, days and hours below a week, the date from a week on; each shown figure brackets the time left |
| CronCalendar.HoursOfMinutes | src/components/CronCalendarView.tsx:75-80 | the whole hours are the whole minutes divided by 60, so `diffMins % 60` completes them |
| CronCalendar.DaysOfHours | src/components/CronCalendarView.tsx:76-81 | the whole days are the whole hours divided by 24, so `diffHours % 24` completes them |
| CronCalendar.FormatNextRunShape | src/components/CronCalendarView.tsx:67-89 | only a run at least a week away shows the date; every run from a minute to a week away starts with `in ` |
| CronCalendar.NextRunMinutesMonotone | src/components/CronCalendarView.tsx:75-79 | the minutes shown never decrease as the run moves further away |
| CronCalendar.ParseSchedule | src/components/CronCalendarView.tsx:92-106 | a listed cron expression gives its label; a name the lookup object inherits (such as `constructor`) gives that inherited member, never a text; any other text is returned unchanged |
| CronCalendar.LabelsNotExpressions | src/components/CronCalendarView.tsx:94-103 | no label is itself a listed expression |
| CronCalendar.LabelsNotInherited | src/components/CronCalendarView.tsx:94-103 | no listed expression and no label is a name the lookup object inherits, and no label is empty |
| CronCalendar.ParseScheduleIdempotent | src/components/CronCalendarView.tsx:92-106 | when a schedule reads as a text, reading that text again gives the same text |
| Insights.FirstAbove | src/components/InsightsPanel.tsx:219 | `find(m => current < m) \|\| last` on an increasing list: the smallest value above `current`, or `last` when none is above or when that value is the falsy `0` |
| Insights.Milestone | src/components/InsightsPanel.tsx:218-219 | the next milestone is the smallest of 7, 14, 30, 50, 100 above the streak, and 100 once the streak reaches 100 |
| Insights.DaysToNext | src/components/InsightsPanel.tsx:271 | the days to the next milestone are positive exactly while the streak is under 100 |
| Insights.Dismiss | src/components/InsightsPanel.tsx:339-340 | dismissing keeps exactly the insights with another id |
| Insights.DismissAppend | src/components/InsightsPanel.tsx:340 | dismissing works piece by piece, so the kept insights keep their order |
| Insights.DismissAbsent | src/components/InsightsPanel.tsx:340 | dismissing an id no insight has changes nothing |
| Insights.DismissIdempotent | src/components/InsightsPanel.tsx:340 | dismissing twice is dismissing once |
| Insights.OfType | src/components/InsightsPanel.tsx:345 | the insights of one type are exactly those of that type in the list |
| Insights.Shown | src/components/InsightsPanel.tsx:343-345 | 'all' shows every insight; any other filter shows exactly the insights of its type |
| Insights.Buttons | src/components/InsightsPanel.tsx:347-352 | four buttons; All counts the total and each other button counts the insights its filter shows |
| Insights.CountsPartition | src/components/InsightsPanel.tsx:347-352 | the counts of the four types add up to the total |
| Insights.SuccessesUncounted | src/components/InsightsPanel.tsx:347-352 | what All counts beyond the three type buttons is exactly the successes, which have no button |
| Integration.Classify | backend/integration.js:109-111 | a line is a spawn exactly when it names `spawned` or `subagent`, and a death exactly when it names neither but names `terminated` or `completed` |
| Integration.SessionsAfterChanges | backend/integration.js:51-85 | one tailed line changes at most the session of the agent it names and the session count by at most one; only a parsed line changes anything, and a spawned session starts with no tasks |
| Integration.ReplayStep | backend/integration.js:104-117 | the lines of a chunk are handled one after the other |
| Integration.ReplayGrowth | backend/integration.js:104-117 | a run of lines adds at most one session per line |
| Integration.SpawnState | backend/integration.js:58-66 | after a spawn the log ends with the spawn entry and the notifications with the unread `info` notice; metrics and thresholds are unchanged and the errors stay errors only |
| Integration.DeathState | backend/integration.js:71-85 | after a death of a known agent the log ends with the termination entry carrying its age; an unknown agent leaves the server as it was; notifications, metrics and thresholds never change |
| Integration.AnnouncedState | backend/integration.js:108-112 | a line of neither kind leaves the server as it was, and only a spawn raises a notification; metrics and thresholds never change |
| Integration.LineState | backend/integration.js:104-116 | a line that does not parse leaves the server as it was; a parsed one ends the log with its own entry, after the spawn or death it stands for; only a parsed spawn line changes the notifications |
| Integration.ServerAfter | backend/integration.js:104-117 | over a run of lines the metrics and thresholds never change, the errors stay errors only, and the notifications are unchanged unless some line is a parsed spawn |
| Integration.ServerAfterStep | backend/integration.js:104-117 | the server state after one more line of a run is one more `LineState`, taken with the sessions the earlier lines left |
| Integration.Sessions.HandleNext | backend/integration.js:106-116 | handling the next line of a run extends both the session replay and the server replay by that line, and keeps track of whether any date threw |
| Integration.Sessions.constructor | backend/integration.js:14 | the session map starts empty |
| Integration.Sessions.Spawn | backend/integration.js:51-67 | the agent's session is set afresh with no tasks; the whole new server state is `SpawnState`: `Agent spawned (session: ID)` logged under the lowercased agent with meta `{ event: 'spawn', sessionId }`, then one `info` notification `AGENT agent spawned`; errors, metrics and thresholds are unchanged |
| Integration.Sessions.Death | backend/integration.js:70-86 | a known agent's session is removed and the whole new server state is `DeathState`: `Agent terminated after Nms (reason)` logged with its age and meta `{ event: 'death', sessionId, duration }`; an unknown agent changes neither the sessions nor the server |
| Integration.Sessions.Announce | backend/integration.js:108-112 | a spawn sets a `session-NOW` session, a death of a known agent removes it with reason `completed`, any other line leaves the sessions alone; the whole new server state is `AnnouncedState` |
| Integration.Sessions.HandleLine | backend/integration.js:104-116 | a parsed line acts as a spawn or death and is then logged itself as the last entry; a line that does not parse changes nothing; the sessions are `SessionsAfter` and the whole new server state `LineState` |
| Integration.Sessions.HandleLines | backend/integration.js:104-117 | the lines are handled in order, stopping after the first whose date throws; the sessions are the `Replay` and the whole server state the `ServerAfter` of the lines taken |
| Integration.Sessions.HandleChunk | backend/integration.js:100-117 | a chunk is split at newlines, blank lines are dropped and the rest handled in order, stopping after the first whose date throws; the sessions and the whole server state are the replay of the lines taken |
| GatewayLine.BracketRun | backend/integration.js:22 | how far `[^\]]+` reaches from a position: it stays in the text |
| GatewayLine.HeadSound | backend/integration.js:22 | a matched `^\[([^\]]+)\] \[(\w+)\] ` gives a `]`-free non-empty stamp and a word that, with the rest, make up the line |
| GatewayLine.HeadComplete | backend/integration.js:22 | a line made of a stamp, a word and any rest is matched back into exactly them |
| GatewayLine.HeadRuns | backend/integration.js:22 | on a line laid out from a stamp and a word the runs stop at their ends, so the match is unique |
| GatewayLine.AgentSound | backend/integration.js:22 | a matched `\[(\w+)\] (.+)$` gives a word and a one-line non-empty message that make up the text |
| GatewayLine.AgentComplete | backend/integration.js:22 | a word and a message are matched back from the text they make up |
| GatewayLine.ParseFour | backend/integration.js:22-32 | a four-field line is read into its level, agent and message, with the stamp's ISO date |
| GatewayLine.FourAlsoThree | backend/integration.js:22-36 | a four-field line also matches the second pattern with the agent in the message, so only trying the first pattern first gives the agent its field |
| GatewayLine.ParseThree | backend/integration.js:35-44 | a line without an agent, whose message does not open with `[word] `, is read with agent `SYSTEM` |
| GatewayLine.ParseThrows | backend/integration.js:27-40 | a line of either form whose stamp is not a valid date throws; any other line with that stamp gives `null` |
| GatewayLine.ParseSound | backend/integration.js:17-48 | every entry comes from a line of one of the two forms, the four fields or the three with agent `SYSTEM`, with a word level and a one-line message |
| LogLine.AgentName | backend/server.js:102 | `entry.agent \|\| 'SYSTEM'`: never empty, and the agent itself when it is present and not empty |
| LogLine.WrittenSnoc | backend/server.js:102-106 | each `writeLog` appends exactly its line to `current.log` |
| LogLine.MatchSound | backend/server.js:201 | a match of `^(\S+) \[(\w+)\] \[(\w+)\] (.+)$` gives groups the pattern can capture that make up the line |
| LogLine.MatchComplete | backend/server.js:201 | every set of capturable groups is matched back from the line it makes up |
| LogLine.RunsOfGroups | backend/server.js:201 | on a line made of capturable groups, `\S+` and each `\w+` stop exactly at the ends of the groups, so the match is unique |
| LogLine.ReadLine | backend/server.js:200-211 | a line reads back with no stack and no fix fields |
| LogLine.ReadUnmatched | backend/server.js:210 | a line the pattern does not match is kept whole as the message of an `INFO` entry from `SYSTEM` stamped now |
| LogLine.LoadRecentLogs | backend/server.js:192-215 | a missing or unreadable file gives nothing, otherwise at most `limit` entries |
| LogLine.ReadLinesSuffix | backend/server.js:198-211 | reading the last lines is taking the last entries read |
| LogLine.ReadWritten | backend/server.js:201-208 | a written line reads back as its entry, with `SYSTEM` for a missing agent |
| LogLine.BodyOneLine | backend/server.js:102 | a written line holds no newline and is not blank |
| LogLine.LinesOfWritten | backend/server.js:198 | the written text splits into the written lines and an empty last piece |
| LogLine.NonBlankBodies | backend/server.js:198 | dropping the blank pieces leaves exactly the written lines |
| LogLine.ReadBodies | backend/server.js:200-211 | the written lines read back as their entries |
| LogLine.LoadWritten | backend/server.js:101-211 | round trip: a `current.log` written only by `writeLog` reads back, for a limit of at least one, as the last `limit` entries with their time stamp, level, agent and message |
| LogRotation.Setting | backend/log-rotation.js:13-15 | `parseInt(env) \|\| fallback`: unset gives the fallback, and a non-zero fallback never lets a zero through |
| LogRotation.ConfigOf | backend/log-rotation.js:12-17 | compression is on exactly for `LOG_COMPRESS=true` |
| LogRotation.ConfigDefaults | backend/log-rotation.js:12-17 | with nothing set the configuration is 7 days, 10 MB, 30 archives and no compression, and no limit is ever zero |
| LogRotation.InsertKeeps | backend/log-rotation.js:96 | inserting an entry into a newest-first list keeps it newest first and adds exactly that entry |
| LogRotation.SortNewestKeeps | backend/log-rotation.js:96 | `sort((a, b) => b.mtime - a.mtime)` gives a newest-first permutation of the archives |
| LogRotation.ExcessOldest | backend/log-rotation.js:94-101 | the archives beyond the newest `maxArchiveFiles` are the excess, and none of them is newer than an archive kept |
| LogRotation.ArchivesAreListed | backend/log-rotation.js:94-96 | every archive is a listed log file whose name starts with `archive-` and does not mention `current`, each kept once |
| LogRotation.Without | backend/log-rotation.js:61 | after an unlink the name is gone and every other file stays |
| LogRotation.Unlinked | backend/log-rotation.js:58-64 | unlinking names in turn stops at the first missing one: it failed exactly when fewer names were deleted than given |
| LogRotation.UnlinkedRemoves | backend/log-rotation.js:58-64 | a run that did not throw leaves none of the names and keeps every other file |
| LogRotation.UnlinkedAbsent | backend/log-rotation.js:61 | a name that is missing when its turn comes makes the run throw |
| LogRotation.UnlinkedTwice | backend/log-rotation.js:61-104 | the same name unlinked twice makes the run throw |
| LogRotation.UnlinkedAppend | backend/log-rotation.js:58-106 | unlinking two runs of names is the first run, then the second if the first did not throw |
| LogRotation.UnlinkedExisting | backend/log-rotation.js:102-106 | the cap pass as intended, skipping names already gone, never throws |
| LogRotation.UnlinkedExistingRemoves | backend/log-rotation.js:102-106 | skipping the missing names, none of the names is left and every other file stays |
| LogRotation.Dashed | backend/log-rotation.js:72 | `replace(/[:.]/g, '-')` keeps the length and leaves no ':' or '.' |
| LogRotation.Current | backend/log-rotation.js:67-68 | `current.log` is found exactly when it is listed |
| LogRotation.Renamed | backend/log-rotation.js:66-91 | `current.log` is rotated exactly when it exists and is strictly larger than the limit, compressed exactly when rotated with compression on, and otherwise the directory is unchanged |
| LogRotation.RenamedAbsent | backend/log-rotation.js:79-85 | the rename brings back no file that is gone other than the archive and its `.gz` |
| LogRotation.AgedExcessThrows | backend/log-rotation.js:58-106 | as written, an archive both older than the age limit and beyond the cap is unlinked twice and the run throws |
| LogRotation.TwoOldArchivesThrow | backend/log-rotation.js:58-106 | two archives older than a week with a cap of one make the run throw |
| LogRotation.KeptInOrder | backend/log-rotation.js:42-96 | two archives already newest first are listed and sorted unchanged |
| LogRotation.CheckedRunCompletes | backend/log-rotation.js:22-107 | with the cap pass skipping what is gone, a run whose age pass succeeds completes, leaving no old log file and no excess archive other than the new archive |
| LogRotation.CleanupSelects | backend/log-rotation.js:165-181 | `cleanupAgentLogs` unlinks exactly the files whose name holds the lowercased agent name and that are strictly older than the days kept |
| LogRotation.Compacted | backend/log-rotation.js:185-198 | with more than 1000 non-blank lines, the last 1000 joined by newlines; otherwise nothing is written |
| LogRotation.NonBlankMembers | backend/log-rotation.js:191 | the kept lines are exactly the non-blank pieces of the split text |
| LogRotation.CompactedIdempotent | backend/log-rotation.js:191-196 | the compacted text reads back as exactly the 1000 lines kept, so compacting again writes nothing |
| LogRotation.LogDir.constructor | backend/log-rotation.js:9 | the directory holds the given entries and `errors.log` text |
| LogRotation.LogDir.UnlinkAll | backend/log-rotation.js:58-64 | the loop deletes in turn, stopping where an unlink throws, as `Unlinked` says |
| LogRotation.LogDir.RotateLogs | backend/log-rotation.js:22-119 | a missing directory is created and nothing else happens; otherwise the age pass, the rename and the cap pass run as `RotateRun` says |
| LogRotation.LogDir.RenameAndCap | backend/log-rotation.js:66-107 | after an age pass that went through, the rename and then the cap pass over the first listing |
| LogRotation.LogDir.CleanupAgentLogs | backend/log-rotation.js:162-182 | a missing directory throws before anything; otherwise the selected files are unlinked in turn |
| LogRotation.LogDir.CompactErrorLogs | backend/log-rotation.js:185-198 | without `errors.log` nothing happens; otherwise the compacted text, if any, replaces it |
| LogServer.Merge | backend/server.js:54 | `{ ...thresholds, ...patch }`: a field the patch does not give keeps its value |
| LogServer.MergeTwice | backend/server.js:54 | merging two patches in turn is merging their field-by-field combination, and merging the same patch again changes nothing |
| LogServer.ErrorRecord | backend/server.js:117-121 | the recorded error keeps level, message and fix flag, and has a stack exactly when the entry's stack is present and not empty |
| LogServer.Alert | backend/server.js:151-155 | `error` exactly above the critical rate, `warning` exactly above the warning rate but not the critical one, nothing otherwise |
| LogServer.AlertMonotone | backend/server.js:151-155 | a higher token rate never gives a milder alert |
| LogServer.Notifications | backend/server.js:380-382 | all notifications, or exactly the unread ones for `?unread=true` |
| LogServer.MarkedHaveNoUnread | backend/server.js:389-392 | once every notification is marked read, the unread query is empty |
| LogServer.LimitOr | backend/server.js:257 | `parseInt(limit) \|\| fallback`: an unparsable or zero limit gives the fallback |
| LogServer.SliceLast | backend/server.js:261 | `slice(-limit)` for a positive limit is the last `limit` elements |
| LogServer.LogsQueryMeaning | backend/server.js:256-268 | `/api/logs` returns exactly the entries of the last `limit` (100 by default) that match the level and agent asked for, never more than the limit |
| LogServer.ErrorsQueryMeaning | backend/server.js:278-283 | `/api/errors` returns a suffix of the errors, the last 50 when no limit is given |
| LogServer.Stats | backend/server.js:285-298 | `current` and `perHour` are the same count of errors stamped within the last hour, and neither count exceeds the errors |
| LogServer.RecentShrinks | backend/server.js:286-287 | a later clock never counts more recent errors |
| LogServer.OverallOf | backend/server.js:316-322 | healthy exactly when every component is online, critical exactly when one is offline |
| LogServer.DegradedMeaning | backend/server.js:316-322 | degraded exactly when some component is degraded and none is offline |
| LogServer.Diagnostics | backend/server.js:327-359 | six checks: one per component, passed when it is online, and two that always pass |
| LogServer.DiagnosticsAgree | backend/server.js:316-359 | every diagnostic passes exactly when the health roll-up is healthy |
| LogServer.Recorded | backend/server.js:141-148 | each metric series gains the sample's point stamped with its time and keeps its last 300 |
| LogServer.ErrorsAfter | backend/server.js:115-123 | only an `ERROR` entry adds its record to the errors, as the last, dropping the oldest past 500; the buffer holds only errors |
| LogServer.Server.constructor | backend/server.js:524-525 | start-up loads the last 100 lines of `current.log` as the log, with the default thresholds and empty buffers |
| LogServer.Logged | backend/server.js:101-124 | after `writeLog` the entry is the log's last, the log holds at most 1000 entries and the errors only errors; notifications, metrics and thresholds are unchanged |
| LogServer.Notified | backend/server.js:176-189 | after `createNotification` it is the last notification, at most 100 are kept, and nothing else changes |
| LogServer.Server.MergeThresholds | backend/server.js:50-58 | a parsed thresholds object is merged in; a missing or unparsable one changes nothing |
| LogServer.Server.WriteLog | backend/server.js:101-124 | the line is appended to `current.log`, the entry becomes the log's last (oldest dropped past 1000) and an `ERROR` adds its record to the errors; the new state is `Logged` of the old |
| LogServer.Server.CreateNotification | backend/server.js:176-189 | a new unread notification is appended, the oldest dropped past 100; the new state is `Notified` of the old |
| LogServer.Server.MarkRead | backend/server.js:389-392 | every notification is marked read in place and nothing else changes |
| LogServer.Server.CollectMetrics | backend/server.js:127-158 | a point is added to each series and at most one token-rate notification is raised, exactly when `Alert` says so |
| Dashboard.Subagents | src/app/page.tsx:63 | the subagents are exactly the agents other than `sam` and `kevin`, and none without a snapshot |
| Dashboard.FirstWithId | src/app/page.tsx:64 | the position of the first agent with the id, every earlier agent having another id |
| Dashboard.Sam | src/app/page.tsx:64 | the first agent with id `sam`, and none exactly when no agent has that id |
| Dashboard.SamNotSubagent | src/app/page.tsx:63-64 | `sam` is never among the subagents |
| Dashboard.Weight | src/app/page.tsx:68-70 | the comparator's weight: high 3, medium or no priority 2, low 1 |
| Dashboard.OfWeightMeaning | src/app/page.tsx:67-73 | a weight's list holds exactly the tasks of that weight |
| Dashboard.OfWeightPartition | src/app/page.tsx:67-73 | the three weights together hold every task exactly once |
| Dashboard.ByPriorityPermutes | src/app/page.tsx:67-73 | the sorted tasks are a permutation of the tasks |
| Dashboard.ByPrioritySorted | src/app/page.tsx:67-73 | the sorted tasks come by non-increasing weight: high, then medium, then low |
| Dashboard.ByPriorityStable | src/app/page.tsx:67-73 | tasks of equal priority keep their relative order |
| Dashboard.SortByPriority | src/app/page.tsx:67-73 | the stable sort with the page's comparator gives exactly the high, medium, low concatenation |
| Dashboard.InsertByPriority | src/app/page.tsx:67-73 | inserting a task into the sorted tasks puts it at the end of its own weight |
| Dashboard.InsertPoint | src/app/page.tsx:67-73 | the insertion point is the end of the new task's weight in the sorted tasks |
| Dashboard.ByPriorityWeights | src/app/page.tsx:67-73 | the sorted tasks hold the high ones, then the medium ones, then the low ones, position by position |
| Dashboard.OfWeightAppend | src/app/page.tsx:67-73 | keeping one weight distributes over concatenation |
| Dashboard.Buckets | src/app/page.tsx:67-73 | one pass over the array collects the tasks of each weight in order |
| Dashboard.SortTasks | src/app/page.tsx:67-73 | the fetched array is reordered in place into the stable priority order |
| Dashboard.SortedTasks | src/app/page.tsx:67-73 | the snapshot's tasks in priority order, and none without a snapshot |
| Sorting.InsertPos | src/app/page.tsx:67-73 | the insertion point follows the last element that may come before the new one, and no later element may |
| Sorting.InsertPosUnique | src/app/page.tsx:67-73 | the insertion point is the one place that splits the list into what may come before the element and what may not |
| Sorting.InsertPermutes | src/app/page.tsx:67-73 | inserting adds exactly the element |
| Sorting.InsertSplits | src/app/page.tsx:67-73 | in a sorted list, for a total transitive order, the elements before the insertion point may come before the element, and the element before the others |
| Sorting.InsertSorted | src/app/page.tsx:67-73 | inserting into a sorted list keeps it sorted |
| Sorting.SplitInsertSorted | src/app/page.tsx:67-73 | putting an element between the two halves of a sorted list it splits gives a sorted list |
| Sorting.SortByPermutes | src/app/page.tsx:67-73 | `sort(compare)` returns a permutation of the input |
| Sorting.SortBySorted | src/app/page.tsx:67-73 | for a total transitive order the sorted list is in order |
| ProjectHealth.TimeAgo | src/components/ProjectHealthCard.tsx:52-64 | just now below a minute (the future included), then minutes below an hour, hours below a day, days beyond; each figure is the floor of the time in its unit |
| ProjectHealth.TimeAgoUnitMonotone | src/components/ProjectHealthCard.tsx:52-64 | an older commit is never described in a finer unit |
| ProjectHealth.FormatTimeAgoSuffix | src/components/ProjectHealthCard.tsx:60-63 | every description from a minute on ends with ` ago`, and 'Just now' does not |
| ProjectHealth.ShortHash | src/components/ProjectHealthCard.tsx:116-119 | the hash's first seven characters (all of a shorter one), and nothing for an empty hash |
| ServerAddTask.TaskOf | src/server-api/add-task/route.ts:20-26 | the task handed to `addTask` has the trimmed title, status todo, no agent, the given priority (medium by default), a section and a description |
| ServerAddTask.DefaultsTagged | src/server-api/add-task/route.ts:22-23 | without a section or priority the task lands in `To Do` with the ` [MEDIUM]` tag |
| ServerAddTask.EntryTagged | src/server-api/add-task/route.ts:20-26 | the written task line starts with the trimmed title in bold, followed by a non-empty priority tag |
| ServerAddTask.HeadThen | src/server-api/add-task/route.ts:20-26 | a prefix put before a non-empty text is read back as that prefix, followed by the text's first character |
| ServerAddTask.Post | src/server-api/add-task/route.ts:8-44 | 400 exactly for a falsy title (absent, `null`, `false`, `0`, empty) or a blank string; a truthy title that is not a string fails with `title.trim is not a function`; 200 exactly when a string title is given and the tasks file exists, then the task is echoed with the untrimmed title in the message, the file text is the one `addTask` writes and the cache holds the rebuilt data; on every other outcome nothing is written and the cache is unchanged; a missing file gives the `active-tasks.md not found` details |
| ServerSpawn.Post | src/server-api/spawn-agent/route.ts:11-67 | a command is run exactly when the body parses, the agent is allowed and the task is a non-empty string, and it is `openclaw agent run AGENT "ESCAPED" --detach`; the reply is a start exactly when that command ran; 400 exactly for a falsy agent or task (absent, `null`, `false`, `0`, empty) or an agent not on the list; an allowed agent with a truthy task that is not a string fails with `task.replace is not a function` |
| ServerSpawn.BlankTaskRuns | src/server-api/spawn-agent/route.ts:16-21 | a task of spaces only passes the presence check and is run |
| ServerSpawn.ExecFailureDetails | src/server-api/spawn-agent/route.ts:57-66 | a failed run is a 500 with the run's error message as details |
| ServerSpawn.RanReply | src/server-api/spawn-agent/route.ts:50-55 | a successful run answers with the agent and its trimmed output, status 200 |
| ServerSpawn.CommandQuotesTask | src/server-api/spawn-agent/route.ts:33-36 | the command starts with the fixed words and the agent, and for a task without backslash, `$` or backquote the shell reads the quoted word back as the task, followed by ` --detach` |
| ServerUpdateProject.UpdatesForUnique | src/server-api/update-project/route.ts:20-24 | a body determines its updates record |
| ServerUpdateProject.BuildUpdates | src/server-api/update-project/route.ts:20-24 | the record holds the status only when it is non-empty, the pending list only when given (a single value wrapped in a list), and the details as they are |
| ServerUpdateProject.Post | src/server-api/update-project/route.ts:8-52 | 400 exactly for a missing or empty project id; otherwise the updates are built and sent; 404 exactly when the project is not found, with its message; 200 exactly when it is updated, echoing id and updates; 500 details from the parse or the update error |
| ServerUpdateProject.EmptyPending | src/server-api/update-project/route.ts:23 | an empty pending list is still sent, an empty single value is not |
| ShellCommand.EscapeQuotesBounds | src/server-api/spawn-agent/route.ts:33 | the escape adds exactly one character per double quote and leaves quote-free text unchanged |
| ShellCommand.ReadPlain | src/server-api/spawn-agent/route.ts:36 | a character with no special meaning inside double quotes is read as itself |
| ShellCommand.ReadEscaped | src/server-api/spawn-agent/route.ts:36 | a backslash before `$`, backquote, `"` or backslash is read as that character |
| ShellCommand.ReadQuoteOne | src/server-api/spawn-agent/route.ts:33 | one character escaped by the route, other than backslash, `$` or backquote, is read back as itself |
| ShellCommand.EscapeQuotesReadsBack | src/server-api/spawn-agent/route.ts:33-36 | for text without backslash, `$` or backquote the route's escape, closed by a quote, is read back as the text |
| ShellCommand.TrailingBackslashBreaks | src/server-api/spawn-agent/route.ts:33-36 | a task ending in a backslash is not changed by the escape, and the shell then never finds the end of the quoted word |
| ShellCommand.NoQuoteUnread | src/server-api/spawn-agent/route.ts:36 | text without quote, backslash, `$` or backquote never closes a word |
| ShellCommand.DollarExpands | src/server-api/spawn-agent/route.ts:33-36 | a `$` in the task still starts an expansion inside the quotes, so the task is not read back |
| ShellCommand.ReadShellOne | src/server-api/spawn-agent/route.ts:33 | one character under the full escape is read back as itself |
| ShellCommand.EscapeShellReadsBack | src/server-api/spawn-agent/route.ts:33-36 | every text, escaped for `"`, backslash, `$` and backquote and closed by a quote, is read back as itself |
| ShellCommand.EscapesAgree | src/server-api/spawn-agent/route.ts:33 | on text without backslash, `$` or backquote the full escape is the route's escape |
| SpawnButton.Label | src/components/SpawnAgentButton.tsx:19-25 | a known agent shows its role; a name the lookup object inherits (such as `constructor`) gives that member, never a text; any other name shows itself |
| SpawnButton.KnownLabelsDiffer | src/components/SpawnAgentButton.tsx:19-25 | each of the five known agents shows a role, a text different from its id |
| SpawnButton.Capitalize | src/components/SpawnAgentButton.tsx:52 | same length; the first character upper-cased and the rest unchanged |
| SpawnButton.CapitalizeIdempotent | src/components/SpawnAgentButton.tsx:52 | capitalizing twice is capitalizing once |
| SpawnButton.Collapsed | src/components/SpawnAgentButton.tsx:42-57 | the closed view is a button exactly when standalone, reading `Spawn ` and the capitalized agent |
| SpawnButton.GenerateCommand | src/components/SpawnAgentButton.tsx:27-30 | nothing exactly for a blank task, otherwise a command |
| SpawnButton.GeneratedIsServerCommand | src/components/SpawnAgentButton.tsx:27-30 | the copied command is the spawn route's command without ` --detach` |
| SpawnButton.GeneratedQuotesTask | src/components/SpawnAgentButton.tsx:30 | for a task without backslash, `$` or backquote the shell reads the quoted word back as the untrimmed task, ending the command |
| SpawnRoute.ShortTask | src/app/api/spawn-agent/route.ts:42 | the shortened task is at most 53 characters |
| SpawnRoute.ShortTaskCases | src/app/api/spawn-agent/route.ts:42 | a task of at most fifty characters is kept, a longer one becomes its first fifty and `...`; and the result equals the task exactly in those two cases |
| SpawnRoute.Post | src/app/api/spawn-agent/route.ts:16-52 | success exactly for status 200, which happens exactly when the body parses, the agent is allowed and the task is a non-blank string; 500 exactly when the body does not parse |
| SpawnRoute.AgentCheckedFirst | src/app/api/spawn-agent/route.ts:20-26 | a missing, non-string or unlisted agent gives the invalid-agent 400 whatever the task |
| SpawnRoute.TaskChecked | src/app/api/spawn-agent/route.ts:28-34 | with an allowed agent, 400 exactly for a missing, non-string or blank task, with the task-required message |
| SpawnRoute.PostQuotesTask | src/app/api/spawn-agent/route.ts:40-43 | the success message names the agent and quotes the task untrimmed, cut to fifty characters with `...` exactly when longer |
| Swipe.Fired | hooks/useSwipe.ts:40-67 | a callback fires only if given; horizontal exactly when the horizontal movement is strictly larger and beyond the threshold, vertical (ties included) when the vertical one is beyond it; the sign picks the direction, both directions of each case |
| Swipe.SmallMoveFiresNothing | hooks/useSwipe.ts:49-66 | a movement within the threshold on both axes fires nothing |
| Swipe.FiredMirror | hooks/useSwipe.ts:49-57 | a gesture mirrored left to right with the two horizontal callbacks exchanged fires the mirrored direction |
| Swipe.FiredMoreHandlers | hooks/useSwipe.ts:49-66 | the direction depends only on the movement: any callbacks including it fire it too |
| TaskList.SectionName | src/components/TaskList.tsx:35 | a task's section name is never empty: its own section, or `Uncategorized` |
| TaskList.TasksIn | src/components/TaskList.tsx:34-39 | a section's list is no longer than the task list |
| TaskList.TasksInMeaning | src/components/TaskList.tsx:34-39 | a task is in a section's list exactly when it is one of the tasks and belongs to that section |
| TaskList.TasksInSnoc | src/components/TaskList.tsx:36-37 | a task pushed last is appended to its own section's list and to no other |
| TaskList.AddTaskStep | src/components/TaskList.tsx:34-39 | each `reduce` step keeps the record an exact grouping of the tasks seen so far |
| TaskList.AddTaskMember | src/components/TaskList.tsx:36-37 | after a step each key holds exactly that section's tasks, never an empty list |
| TaskList.TasksInNone | src/components/TaskList.tsx:34-39 | a section no task has lists nothing |
| TaskList.AddTaskKeys | src/components/TaskList.tsx:36 | a step keeps the keys and their insertion order together, each key once |
| TaskList.AddTaskCovers | src/components/TaskList.tsx:34-39 | after a step every task's section, the new one's included, is a key |
| TaskList.GroupAllGroups | src/components/TaskList.tsx:34-39 | the record the `reduce` builds when it does not throw has one key per section of the tasks, each once, holding exactly its tasks in input order |
| TaskList.TaskInOneGroup | src/components/TaskList.tsx:34-39 | every task is in exactly one group, the one of its section |
| TaskList.Reduce | src/components/TaskList.tsx:34-39 | the `reduce` throws exactly when some task's section is an inherited name, whose truthy member is never given a list; otherwise its record is `GroupAll` |
| TaskList.ReduceGroups | src/components/TaskList.tsx:34-39 | when no section is an inherited name the `reduce` completes and groups every task as `GroupsOf` says |
| TaskList.RankFrom | src/components/TaskList.tsx:51-52 | the first well-known section at or after a position that the name mentions, ignoring case, or -1 when none does |
| TaskList.Rank | src/components/TaskList.tsx:51-52 | `findIndex`: the first well-known section the name mentions, and -1 exactly when it mentions none |
| TaskList.LexCompare | src/components/TaskList.tsx:56 | a three-way comparison that is 0 exactly for equal texts |
| TaskList.LexAntisymmetric | src/components/TaskList.tsx:56 | swapping the texts flips the comparison |
| TaskList.LexTransitive | src/components/TaskList.tsx:56 | the text comparison is transitive |
| TaskList.CompareMeaning | src/components/TaskList.tsx:50-57 | swapping flips the comparator; equal ranks compare equal; a ranked section comes before an unranked one; two unranked ones compare equal only when equal |
| TaskList.LeTotal | src/components/TaskList.tsx:50-57 | any two sections can be ordered |
| TaskList.LeTransitive | src/components/TaskList.tsx:50-57 | the comparator's order is transitive |
| TaskList.LePreorder | src/components/TaskList.tsx:50-57 | the comparator's order is total and transitive, so the sort is well defined |
| TaskList.SortSectionsSorted | src/components/TaskList.tsx:50-57 | the sorted names are a permutation of the keys, in comparator order |
| TaskList.SectionsOfAt | src/components/TaskList.tsx:70-71 | section `i` is the `i`-th sorted name with its group's tasks |
| TaskList.SortedKeys | src/components/TaskList.tsx:50 | every sorted name is a key of the grouping |
| TaskList.Render | src/components/TaskList.tsx:34-66 | rendering throws exactly when some task's section is an inherited name; otherwise the empty state is shown exactly when there are no tasks |
| TaskList.SortedKeysMeaning | src/components/TaskList.tsx:34-57 | the sorted keys are the tasks' sections, each once, in comparator order |
| TaskList.RenderMeaning | src/components/TaskList.tsx:34-71 | a non-empty list shows sections exactly when no section is an inherited name, and then the sections are the tasks' sections, each once, in comparator order, each holding exactly its own tasks in input order |
| TaskList.DistinctPermutation | src/components/TaskList.tsx:50 | sorting distinct keys keeps them distinct |
| TaskList.DistinctCount | src/components/TaskList.tsx:50 | a name occurs at most once among distinct keys |
| TokenTracker.RoundsHalfUpUnique | src/components/TokenTracker.tsx:34 | a quotient has one half-up rounding |
| TokenTracker.RoundsOrdered | src/components/TokenTracker.tsx:34 | rounding keeps the order of quotients |
| TokenTracker.RoundDiv | src/components/TokenTracker.tsx:34 | `Math.round` of a quotient: the integer within a half of it, ties rounded up |
| TokenTracker.FormatPercentage | src/components/TokenTracker.tsx:32-35 | 0 for a zero limit; never above 100; below 100 it is the half-up rounding of `100 * used / limit` |
| TokenTracker.PercentageMonotone | src/components/TokenTracker.tsx:32-35 | with a positive limit the percentage never decreases as usage grows |
| TokenTracker.PercentageFull | src/components/TokenTracker.tsx:34 | a percentage of 100 means a quotient of at least 99.5 percent |
| TokenTracker.PercentageInRange | src/components/TokenTracker.tsx:32-35 | usage within a positive limit gives 0 to 100 |
| TokenTracker.UsageWarningLevel | src/components/TokenTracker.tsx:37-42 | critical exactly from 90, high exactly from 75 below 90, medium exactly from 50 below 75, low exactly below 50 |
| TokenTracker.WarningMonotone | src/components/TokenTracker.tsx:37-42 | the level never decreases as the percentage grows |
| TokenTracker.SumUsedAppend | src/components/TokenTracker.tsx:51 | the `reduce` sum over two joined lists is the sum of the sums |
| TokenTracker.SumUsedBounds | src/components/TokenTracker.tsx:51 | each agent's non-negative usage is at most the total |
| TokenTracker.SumUsedNonneg | src/components/TokenTracker.tsx:51 | a sum of non-negative usages is non-negative |
| TokenTracker.TotalUsed | src/components/TokenTracker.tsx:51 | the given total when there is one; 0 for no total and no agents |
| TokenTracker.RemainingOf | src/components/TokenTracker.tsx:52-100 | a non-negative amount, marked over exactly when the usage exceeds the pool, which with its mark gives back `pool - used` |
| TokenTracker.Summarize | src/components/TokenTracker.tsx:44-54 | the percentage is at most 100, critical only from 90, and what is left with its mark is the pool minus the total used |
| TokenTracker.FullPoolCritical | src/components/TokenTracker.tsx:51-54 | using at least the whole pool shows 100 percent and the critical level |
| LogsDashboard.Visible | logs/dashboard.js:50-61 | the shown entries are exactly the log's entries passing all three filters, never more than the log |
| LogsDashboard.NoFiltersShowAll | logs/dashboard.js:56-61 | with every filter input empty the whole log is shown, in order |
| LogsDashboard.VisibleMatches | logs/dashboard.js:56-61 | each shown entry has the filtered agent (an entry without one is never shown under an agent filter), the filtered level, and contains the search term ignoring case |
| LogsDashboard.LowerUpper | logs/dashboard.js:53 | lower-casing an upper-cased text is lower-casing the text |
| LogsDashboard.SearchIgnoresCase | logs/dashboard.js:53-59 | changing the case of the search term or of a message does not change what is shown |
| LogsDashboard.AddedEntryShown | logs/dashboard.js:42-61 | below the cap, an added entry is shown first exactly when it passes the filters, the rest keep their order |
| LogsDashboard.StatsOf | logs/dashboard.js:120-132 | each counter is at most the number of errors |
| LogsDashboard.StatsAfterAdd | logs/dashboard.js:104-132 | a new error adds one to the recent count exactly when it is from the last hour, and one to the fixes exactly when it came fixed |
| LogsDashboard.FixCounts | logs/dashboard.js:152-156 | marking an error fixed adds one to the fixes unless it already was, and leaves the recent count |
| LogsDashboard.ShownErrors | logs/dashboard.js:136 | the first twenty errors, or all of fewer, in order |
| LogsDashboard.TokenAlert | logs/dashboard.js:207-211 | at most one token alert: critical exactly above the critical limit, else the warning exactly above the warning limit |
| LogsDashboard.Optional | logs/dashboard.js:213-219 | a toast asked for exactly when its condition holds |
| LogsDashboard.ThresholdAlerts | logs/dashboard.js:201-220 | at most three alerts: the token alert as above, memory exactly above its limit, CPU exactly above its limit; an unparsable limit is never exceeded; the only error alert is the critical one |
| LogsDashboard.TokenAlertMonotone | logs/dashboard.js:207-211 | a higher token rate never loses the alert: critical stays, a warning stays or becomes critical |
| LogsDashboard.SavedThresholdReads | logs/dashboard.js:201-232 | a threshold saved as a number is compared as that number |
| LogsDashboard.Toasted | logs/dashboard.js:276-277 | toasts appear only while toasts are switched on |
| LogsDashboard.Sounds | logs/dashboard.js:287-289 | at most one sound per toast, none unless toasts and sound are both on |
| LogsDashboard.HealthOfPage | logs/dashboard.js:314-347 | the page reports healthy exactly when ollama is online, degraded otherwise, never critical |
| LogsDashboard.CheckLinesGrow | logs/dashboard.js:365-372 | the check lines printed so far stay at the front as more are printed |
| LogsDashboard.OutputAfterGrows | logs/dashboard.js:352-378 | the output always starts with its opening line, and what is printed earlier stays at the front |
| LogsDashboard.DiagnosticsGrow | logs/dashboard.js:352-378 | the diagnostics text starts with `Running diagnostics...` and only grows as the timers fire |
| LogsDashboard.DiagnosticsAllPass | logs/dashboard.js:358-378 | every check result starts with `✓ PASS`, and once all seven timers fired the text ends with the completion line |
| LogsDashboard.Dashboard.constructor | logs/dashboard.js:24-30 | on load the log, errors and toasts are empty, saved thresholds fill the inputs and a saved history replaces the notifications |
| LogsDashboard.Dashboard.ShowToast | logs/dashboard.js:276-294 | the toast is added only while toasts are on, and an error toast plays the sound only while sound is also on; nothing else changes |
| LogsDashboard.Dashboard.AddLogEntry | logs/dashboard.js:42-48 | the entry goes first and the oldest is dropped past 1000; the log stays within 1000 entries |
| LogsDashboard.Dashboard.ClearLogs | logs/dashboard.js:83-87 | the log is emptied and a `Logs cleared` info toast follows |
| LogsDashboard.Dashboard.AddNotification | logs/dashboard.js:235-240 | the notification goes first, the oldest dropped past 50, and the history is saved |
| LogsDashboard.Dashboard.LoadNotifications | logs/dashboard.js:259-265 | a saved history replaces the shown one, otherwise nothing changes |
| LogsDashboard.Dashboard.AddError | logs/dashboard.js:104-118 | the error goes first, uncapped; when error notifications are on an error toast and a notification follow, otherwise nothing else changes |
| LogsDashboard.Dashboard.ApplyFix | logs/dashboard.js:152-156 | for an existing index the error is marked fixed and a success toast follows; any other index changes nothing |
| LogsDashboard.Dashboard.CheckThresholds | logs/dashboard.js:201-220 | the toasts and sounds are those of the threshold alerts for the inputs as `parseInt` reads them |
| LogsDashboard.Dashboard.Alert | logs/dashboard.js:207-219 | the three comparisons add the threshold alerts in order |
| LogsDashboard.Dashboard.ShowTokenAlert | logs/dashboard.js:207-211 | the token comparison adds the token alert |
| LogsDashboard.Dashboard.ShowIf | logs/dashboard.js:213-219 | one conditional toast request |
| LogsDashboard.Dashboard.SaveThresholds | logs/dashboard.js:222-232 | the four inputs are saved as they stand and a `Thresholds saved` toast follows |
| LogsDashboard.Dashboard.LoadConfig | logs/dashboard.js:595-604 | saved thresholds fill the inputs, otherwise nothing changes |
| LogsDashboard.ToastsAppend | logs/dashboard.js:276-294 | two toast requests in a row show and sound what each does, one after the other |
| LogsDashboard.ToastsThree | logs/dashboard.js:201-220 | three toast requests in a row show and sound what the three do together |
| Theme.OrDefault | src/hooks/useTheme.js:49-50 | a non-empty value is kept, an empty one gives the fallback |
| Theme.InitialTheme | src/hooks/useTheme.js:38-64 | the default without a window or when storage throws; a stored item's own fields, each defaulting without any check, or the default when it does not parse to an object; with nothing stored the system preference picks the mode and the accent is purple; never an empty mode or accent |
| Theme.ThemeJson | src/hooks/useTheme.js:120 | the saved text is a non-empty JSON object text |
| Theme.SavedThemeReadBack | src/hooks/useTheme.js:38-124 | a saved theme is what the next start reads back, whenever `JSON.parse` undoes `JSON.stringify` |
| Theme.Applied | src/hooks/useTheme.js:70-84 | `data-theme` is absent exactly for `dark` and `light` for every other mode; `data-accent` is the accent |
| Theme.Toggle | src/hooks/useTheme.js:145-147 | the result is a valid mode, and it is `light` exactly when the mode was `dark` |
| Theme.ToggleTwice | src/hooks/useTheme.js:145-147 | toggling twice gives back either valid mode; an invalid mode ends as `light` |
| Theme.SetModeExplicit | src/hooks/useTheme.js:153-157 | only `dark` and `light` are taken; any other request keeps the mode |
| Theme.SetAccent | src/hooks/useTheme.js:163-167 | the four accent names are taken, and so is any name the colour table inherits (such as `toString`); any other request keeps the accent |
| Theme.ActionsKeepValid | src/hooks/useTheme.js:145-175 | from a valid mode and accent the mode actions and the reset leave them valid, and an accent request leaves the accent valid exactly when it is not an inherited name |
| Theme.FollowSystem | src/hooks/useTheme.js:130-136 | the mode follows the system preference exactly while nothing is stored |
| Theme.Provider.constructor | src/hooks/useTheme.js:102-105 | the first render takes the initial theme's fields with the defaults, not yet mounted, no effect run |
| Theme.Provider.Commit | src/hooks/useTheme.js:107-124 | the attributes are applied exactly when mode or accent changed; the persist effect runs exactly when its dependencies changed, its first run only marking the provider mounted and every later one saving the theme |
| Theme.Provider.Mount | src/hooks/useTheme.js:102-124 | after mounting the theme is applied and saved as it stands |
| Theme.Provider.Render | src/hooks/useTheme.js:107-124 | once settled, any new mode and accent are applied and saved |
| Theme.Provider.ToggleMode | src/hooks/useTheme.js:145-147 | the mode toggles, the accent stays, and the result is applied and saved |
| Theme.Provider.SetMode | src/hooks/useTheme.js:153-157 | the mode follows `SetModeExplicit`, and the result is applied and saved |
| Theme.Provider.SetAccentColor | src/hooks/useTheme.js:163-167 | the accent follows `SetAccent`, and the result is applied and saved |
| Theme.Provider.ResetTheme | src/hooks/useTheme.js:172-175 | dark and purple again, applied and saved |
| Theme.Provider.SystemChange | src/hooks/useTheme.js:127-140 | the listener follows the system only while nothing is stored, so after mounting the mode never changes |
| QuickActions.Dismissed | src/components/quick-actions/useQuickActions.ts:69-71 | the remaining toasts are exactly those with another id, never more |
| QuickActions.DismissUnknown | src/components/quick-actions/useQuickActions.ts:69-71 | dismissing an unknown id changes nothing |
| QuickActions.LoadedCount | src/components/quick-actions/useQuickActions.ts:52-57 | a non-empty stored item gives `parseInt(item, 10)`, or 0 when that is not a number; otherwise the count stays |
| QuickActions.SavedCountReadBack | src/components/quick-actions/useQuickActions.ts:52-62 | a saved counter, negative or not, is loaded back unchanged |
| QuickActions.GarbageLoadsZero | src/components/quick-actions/useQuickActions.ts:55 | a stored item that is not a number loads as 0 |
| QuickActions.SuccessMessage | src/components/quick-actions/useQuickActions.ts:83 | the label followed by ` completed successfully` |
| QuickActions.FailureMessage | src/components/quick-actions/useQuickActions.ts:85 | `Failed to ` followed by the lower-cased label |
| QuickActions.Hook.constructor | src/components/quick-actions/useQuickActions.ts:46-62 | after mounting the counter is the loaded count and is saved; nothing loads, no toast, nothing pending |
| QuickActions.Hook.AddToast | src/components/quick-actions/useQuickActions.ts:64-67 | one toast of 3000 ms is appended; nothing else changes |
| QuickActions.Hook.DismissToast | src/components/quick-actions/useQuickActions.ts:69-71 | the toasts with that id go, nothing else changes |
| QuickActions.Hook.Start | src/components/quick-actions/useQuickActions.ts:74 | the action's loading flag is set |
| QuickActions.Hook.Finish | src/components/quick-actions/useQuickActions.ts:76-88 | success adds one to the saved counter and one success toast; failure adds one error toast only; the loading flag is cleared either way |
| QuickActions.Hook.HandleActionClick | src/components/quick-actions/useQuickActions.ts:91-97 | an action asking for confirmation becomes pending without starting; any other one starts at once |
| QuickActions.Hook.ConfirmAction | src/components/quick-actions/useQuickActions.ts:99-104 | the pending action, if any, starts and the pending slot is cleared at once |
| QuickActions.Hook.CancelAction | src/components/quick-actions/useQuickActions.ts:106-108 | nothing is pending and nothing else changes |
| QuickActions.Hook.ResetCounter | src/components/quick-actions/useQuickActions.ts:110-113 | the counter is 0 and saved, and an info toast follows |
| QuickActions.ConfirmedRun | src/components/quick-actions/useQuickActions.ts:91-113 | a confirmed successful run ends with nothing pending, exactly one more on the saved counter, the flag cleared and one success toast |
| QuickActionsPanel.ShowsReset | src/components/QuickActionsPanel.tsx:201 | the reset button shows exactly for a positive count with a reset handler |
| QuickActionsPanel.ButtonDisabled | src/components/QuickActionsPanel.tsx:224 | a button is disabled exactly while its action runs or when the action is disabled |
| QuickActionsPanel.ModalText | src/components/QuickActionsPanel.tsx:277 | the action's own confirmation text, or the default when it has none; never empty |
| QuickActionsPanel.OutcomeToast | src/components/QuickActionsPanel.tsx:160-175 | a resolved call gives the success toast, a rejected one `LABEL failed: MESSAGE` as an error |
| QuickActionsPanel.Panel.constructor | src/components/QuickActionsPanel.tsx:133-135 | nothing loading, nothing pending, no toast |
| QuickActionsPanel.Panel.DismissToast | src/components/QuickActionsPanel.tsx:137-147 | the toasts with that id go, nothing else changes |
| QuickActionsPanel.Panel.Start | src/components/QuickActionsPanel.tsx:161 | the action joins the loading set |
| QuickActionsPanel.Panel.Finish | src/components/QuickActionsPanel.tsx:163-174 | one toast for the outcome, and the action leaves the loading set whatever happened |
| QuickActionsPanel.Panel.HandleActionClick | src/components/QuickActionsPanel.tsx:149-158 | a disabled action or a missing handler does nothing; one asking for confirmation becomes pending; otherwise it starts |
| QuickActionsPanel.Panel.ConfirmAction | src/components/QuickActionsPanel.tsx:177-182 | the pending action starts and stays pending while it runs |
| QuickActionsPanel.Panel.FinishConfirmed | src/components/QuickActionsPanel.tsx:177-182 | after the run the outcome toast is added, the action leaves the loading set and nothing is pending |
| QuickActionsPanel.Panel.CancelAction | src/components/QuickActionsPanel.tsx:184-186 | nothing is pending and nothing else changes |
| QuickActionsPanel.ConfirmedRun | src/components/QuickActionsPanel.tsx:149-186 | a confirmed run ends with nothing pending, the action out of the loading set and exactly one outcome toast |

## Left out

- `AddTaskRoute`: a section or priority of a non-string JSON type, which the template literals would turn into text, is not modelled; the date `toISOString().split('T')[0]` is a parameter, and console logging is left out.
- `AddTaskRoute.Post`: every failure to read the file counts as a missing file, and a failed write writes nothing.
- `TaskForm`: the clipboard write, the delayed form reset and the React state that drives the form are left out; the section chosen in the form is not an input because the generated text never uses it.
- `UpdateProjectRoute`: the project id is put into a regular expression without escaping; ids holding regular-expression syntax are not modelled, and the header is matched as literal text.
- `UpdateProjectRoute`: `$` patterns in the status and in the pending items, which `replace` would expand, are taken literally; a status of a non-string JSON type is not modelled.
- `UpdateProjectRoute.IndexOfCaseless`: the `i` flag's case folding is modelled for ASCII letters only.
- `UpdateProjectRoute.Post`: every failure to read the file is a missing file, a failed write writes nothing, and console logging is left out.
- `DataStore`: `ensureDataDir`, the snapshot write of `saveData` and the errors `buildData` and `saveData` may throw are left out; a snapshot that parses as some other JSON value is not distinguished from a document.
- `DataStore`: `getAgents`, `getTasks` and `getProjects` are field projections of `loadData` and are not modelled apart from it.
- `DataStore`: `updateTaskStatus` and `updateProject` build their patterns from doubly escaped template text and are not modelled.
- `DataStore.HeadingEnd`: the section name is matched as literal text; this agrees with the regular expression when the name starts with neither `#` nor white space and holds no regular-expression syntax, and differs otherwise.
- `DataStore.AddTaskMissing`: requires a section name without a newline, since the appended heading's own text is otherwise not characterised.
- `ApiTasks`: the HTTP server (api-server.js:96-172), the `tasks.json` load and atomic save and its file watcher are transport and JSON, and are not modelled; the atomic write of `active-tasks.md` through a temporary file is the returned text.
- `ApiTasks.UpsertActiveTask`: a missing `task.description` is the empty description; a missing `task.title`, which the source interpolates as the text "undefined", is not modelled.
- `DataCache`: the constant `fileWatcherConfig`, `apiEndpoints` and `cacheStrategy` blocks of the snapshot, its JSON serialization and the payload texts are left out; messages are values.
- `DataCache`: the HTTP routes `/api/data`, `/api/health` and `/api/rebuild` only read the cache or call the build, so they are transport and are not modelled apart from the build itself.
- `DataCache`: `path.join` is plain concatenation with `/`, without normalisation of `..` or doubled separators.
- `DataCache`: `lastModified` is stored as its ISO string, not as a `Date` object; console logging and the watcher's ignore patterns and write-stability options are left out.
- `DataCache.Watcher.Tick`: a timer runs as a tick with the current time; concurrent callbacks of the event loop are not modelled.
- `Roster`: `Object.keys` lists integer-like keys (such as "42") first in numeric order; the model keeps insertion order for every key.
- `Objects`: a lookup key is always a string, and `Object.prototype` is the standard one; properties a library might add to it at run time are not modelled.
- `Roster`, `DataProjects`, `DataGit`: a key equal to an inherited property name (such as "constructor") is not distinguished from a missing one in the source's truthiness tests; the model treats every key as an own property.
- `DataGit`: the date conversion is a parameter, so the ISO format and its failure are not modelled; the commit `repository` field, the empty `byAgent` object and the error message texts are left out.
- `DataGit.AuthorStatsMeaning`: `firstCommit` is the first listed commit, which in `git log` order is the newest; the model states the listing order and not dates.
- File reads, `existsSync` and the workspace path: the file contents are parameters, and a missing file is `None` or a key absent from the map.
- Case mapping is ASCII-only; other letters are left unchanged by `Lower`/`Upper`.
- String lengths are counted in Unicode scalar values, not UTF-16 code units, so the 500-character cut differs for text outside the Basic Multilingual Plane.
- `Parser.ExtractPlainText`: the rules that strip headings, bold, italic, code and links are modelled, but the only properties proved are the length bound and the trimmed, no-triple-newline shape; the exact text is not characterised.
- `Records.ParseAgentSoul`: personality and systemPrompt are bounded and stripped, but their text is not related back to the `Core Truths`/`System Prompt` sections by a lemma.
- `ServerAddTask`, `ServerSpawn`, `ServerUpdateProject`, `SpawnRoute`: the `GET` handlers only return fixed usage texts and are not modelled; console logging is left out.
- `ServerUpdateProject`: the project id, the status and a single pending item are strings or absent; a body whose `projectId`, `status` or `pending` is another JSON type (`null`, `false`, `0`, a number, an object), which the source's truthiness tests and template literals would also accept or refuse, is not modelled.
- `ServerSpawn`: the 30-second timeout and the environment of `exec`, and the warning logged for standard error, are left out; a failed run is its error message.
- `SpawnButton`: the clipboard write, the 1.5-second reset timer and the open/loading/result state of the form are left out.
- `TaskList`: `localeCompare` is modelled as code-point order, since locale collation is not available; the icons and colours per status and priority are left out.
- `TokenTracker.FormatPercentage`: `Math.round((used / limit) * 100)` is rounded exactly; the source computes it in floating point, where the quotient can round differently (used 29, limit 200 gives 14 there and 15 here). `formatNumber` and the colour tables are display only and are left out.
- `CronCalendar`: the localized date shown past a week is a parameter; the calendar grid and the job list rendering are left out.
- `Insights`: the timestamps, projects, actions and metrics of an insight are not modelled.
- `ProjectHealth`, `CronCalendar`: `new Date` and the clock are replaced by the milliseconds elapsed, a parameter; an unreadable date (`NaN`) is not modelled.
- `Dashboard`: the fetch of the snapshot, its loading and error states and the refresh timer are left out; the snapshot is a parameter.
- `Swipe`: coordinates are integers, not floating point; `preventDefault` and the listener bookkeeping on `document` are left out.
- `Theme`: `JSON.parse` is a parameter, and fields of a type other than string are not modelled; `Theme.ThemeJson` does not escape quotes or backslashes, so `Theme.SavedThemeReadBack` takes the read-back of the saved text as its premise; a stored mode or accent holding them is not modelled. The `useTheme` context check, the accent colour values and the no-flash script of the layout are left out.
- `Theme.Provider`: storage write failures, which the source only logs, are left out; a React commit is `Commit`, run once per state change.
- `QuickActions.Hook`: the first run of the save effect writes `"0"` before the load effect's value; the model shows the state after both effects, where the loaded count is saved. The one-second simulated call is split into `Start` and `Finish`; its `catch` branch is modelled by `failed`, which the simulation never sets. Random toast ids are parameters, and icons and variants are left out.
- `QuickActionsPanel.Panel`: the four-second auto-dismiss of a toast is `DismissToast` called later; the awaited `onAction` is split into `Start` and `Finish` with its outcome a parameter; the default action list, icons, variants and the `className` are left out.
- `Integration`: the `tail -F` process, the simulated activity, the system metrics and the WebSocket or HTTP forwarding are not modelled; the clock is a parameter.
- `LogServer`: the SSE stream, static file serving, the HTTP routing and the random metrics are left out; `server.js`'s own `rotateLogs` (backend/server.js:62-99) repeats the age and size passes of `LogRotation` and is not modelled separately; threshold loading and saving are values, not files.
- `LogServer.Merge`: a patch is modelled as optional integer values of the four known thresholds; a parsed object's values of other JSON types (a string, `null`, a nested object), which the spread would store as they are, and keys other than the four, which it would add, are not modelled.
- `LogServer.Server.MergeThresholds`: a parsed JSON value that is not an object (an array, a string, a number) is not modelled; it is either a patch of the four thresholds or nothing.
- `LogRotation`: the gzip compression is synchronous here, its output size a parameter; the `readdir` order is the listing given; console output, `formatBytes` and the command-line dispatch beyond the argument values are left out.
- `LogsDashboard`: the charts, tab switching, the random simulated logs, metrics and health, `fixCommonIssues` (random), log and error downloads and exports, the expand toggle of an error and the timers' actual delays are left out; `JSON.parse` of the saved history and thresholds is taken to succeed, and the saved values are the parsed values.
- `LogsDashboard.Dashboard.ShowToast`: the five-second removal of a toast and the sound's audio graph are left out; a played sound is counted.

## Findings

| source | as written | input that shows it | evidently intended | confidence | as-written member | corrected member |
|---|---|---|---|---|---|---|
| src/lib/data.ts:119 | the template literal's doubled backslashes append a backslash and an `n` instead of newlines around `## SECTION`, so the appended heading has no line of its own | content `# Tasks\n` with section `To Do`: after the append the section pattern still finds no heading, and every later `addTask` appends the heading again | real newlines, so the appended heading is found by the next lookup | not executed | DataStore.NoHeadingAfterAppend | DataStore.NewlineHeadingFound |
| backend/log-rotation.js:94-106 | the archive cap lists archives from the directory listing taken before the age pass, so an archive the age pass already deleted is unlinked again and `unlinkSync` throws | two archives, both older than seven days, with a cap of one archive: the older one is deleted by age and again by the cap; the second `unlinkSync` throws inside the async `rotateLogs`, which the command-line dispatch (backend/log-rotation.js:207) does not await, so the rotation stops before its summary and the error surfaces as an unhandled promise rejection | skip archives that are already gone, so the run completes with every old file and every excess archive removed | not executed | LogRotation.TwoOldArchivesThrow | LogRotation.CheckedRunCompletes |
| src/server-api/spawn-agent/route.ts:33-36 | only double quotes are escaped before the task is put between double quotes on a shell command line, so a task ending in a backslash escapes the closing quote | the task `a\`: the command holds `"a\" --detach` and the shell never finds the end of the quoted word | escape backslash, `$` and backquote as well, so every task is read back by the shell as itself | not executed | ShellCommand.TrailingBackslashBreaks | ShellCommand.EscapeShellReadsBack |
| src/server-api/spawn-agent/route.ts:33-36 | a `$` in the task is left unescaped inside the double quotes, so the shell expands it instead of passing it on | the task `$x`: the shell reads `$x` as a parameter expansion, not as the two characters | escape `$` (and backquote), so the task reaches the agent as typed | not executed | ShellCommand.DollarExpands | ShellCommand.EscapeShellReadsBack |
