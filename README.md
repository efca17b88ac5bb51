# ArtisanAI core, modelled in Dafny

ArtisanAI is a desktop front-end for batch article generation. A user gives
company and product descriptions and an article count. The app fills a
prompt template, asks a hosted language model for one article per item, and
tracks every batch as a task whose progress is shown to subscribed views.
Finished articles can be exported through native commands.

This project models the logic of that core and proves what it promises:

- `Gemini` — the batch loop of `GeminiService.generateArticles`:
  - count validation and template filling by first-occurrence replacement;
  - one article per item, where a failed item becomes a placeholder article;
  - title extraction by `/^#\s+(.+)$/m`, including the regex's leftmost-then-greedy choice;
  - the character-based word count and the rounded progress reports;
  - the single-instance service cache.
- `Tasks` — the `TaskService` registry, written as a class:
  - tasks keyed by id, plus their insertion order;
  - listeners with subscribe/unsubscribe, and the newest-first snapshot every listener is handed;
  - task creation from the backend's reply;
  - the processing run from pending through processing to completed or failed, with the backend calls it makes;
  - partial article writes and the export of a task's articles;
  - the `getTaskService` singleton.
- `Rules` — `rulesService.ts` over a key-value store: reading and saving rules, and appending them to a prompt.
- `Backend` — the native commands of `src-tauri/src/lib.rs`:
  - task construction;
  - `export_content` with its file-name default and format dispatch, over a file map;
  - `export_batch`;
  - `preview_export`;
  - the advertised format list.
- `Database` — the lazily opened connection of `src/lib/database.ts`, `createProject`, and the `updateTaskProgress` statement builder.
- `TaskManager` — the pure rules of the task panel: the selection toggle, the export filter and Markdown text, the auto-refresh test, and the word-count total.
- `CreateTaskSheet` — the parsing and clamping of the form's numeric inputs, and the `isSubmitting` flag.
- `Js` — the JavaScript built-ins these rely on:
  - `trim`, `String.replace` with a string pattern (including `$`-patterns), and `parseInt`;
  - `join`;
  - error messages.

The outside world is passed in as parameters:

- The language model is an oracle `model(prompt, i)`, which answers the i-th call with text or with a thrown value.
- The backend's replies (`invoke`) are parameters. The calls whose replies the service ignores are recorded in `backendLog`.
- The clock is a parameter (`now`, or `clock(k)` in a batch).
- The file system is a map from path to text, plus the set of paths whose writes fail.
- `localStorage` is a map.
- A listener is a number. What each listener is handed is recorded in `inbox`.

Three things the code does not do:

- Generation does not stream. `processTask` passes a target word count and a partial-article callback that `generateArticles` never takes (its signature has five parameters), so the callback is never called. It is modelled as a stand-alone operation, `Tasks.TaskService.OnPartialArticle`.
- Rules are not injected into generation prompts. `applyRulesToPrompt` has no caller in the generation path, so `RunOf` fills the template without rules.
- The service cache is not keyed by API key. Once an instance exists, `getGeminiService` returns it and ignores the key it is given.

## Model

| member | source | states |
|---|---|---|
| Gemini.GeminiService.GenerateArticles | src/services/geminiService.ts:32-97 | A count outside 1..100 is rejected with the range message before any call, with no progress reported. Otherwise the result has exactly `articleCount` articles, article i is the outcome of the i-th model call on the filled prompt, and one progress report is made per successful item, in order. |
| Gemini.ItemArticleShape | src/services/geminiService.ts:56-92 | A successful item keeps the text as content, titled by the heading rule, with a word count no larger than the text. A failed, blank or throwing item is the placeholder `文章 {i+1} (生成失败)` with word count 0, built from the error's message. |
| Gemini.FailedArticle | src/services/geminiService.ts:84-92 | The placeholder has word count 0 and the failure title, and its content carries the error message right after the fixed prefix. |
| Gemini.WhitespaceReplyFails | src/services/geminiService.ts:58-60 | Text made only of whitespace fails the item with the empty-content message. |
| Gemini.ItemArticlesAt | src/services/geminiService.ts:45-96 | The articles of a batch: one per reply, and article i is item i's. |
| Gemini.ItemArticlesStep | src/services/geminiService.ts:69-92 | Each loop iteration appends exactly the current item's article. |
| Gemini.ItemArticle | src/services/geminiService.ts:56-92 | One item's article from its reply; its properties are stated by Gemini.ItemArticleShape and Gemini.FailedArticle. |
| Gemini.Replies | src/services/geminiService.ts:45-56 | The model is asked once per item, n times in all, always with the same filled prompt. |
| Gemini.HeadingCapture | src/services/geminiService.ts:63 | The regex finds nothing exactly when no line-start `#` is followed by one or more whitespace characters and then a character that is not a line terminator. The whitespace run may include line breaks, because `\s` matches them. Otherwise group 1 runs from the end of the longest such whitespace run, at the leftmost such start, to the end of its line. |
| Gemini.MatchAt | src/services/geminiService.ts:63 | At a given start, the match found is a title match, and it is the one with the longest whitespace run; none is found only when none exists. |
| Gemini.SearchFrom | src/services/geminiService.ts:63 | The search returns the leftmost start holding a title match, with its greedy group start, and finds nothing only when no start holds one. |
| Gemini.LastGroupStart | src/services/geminiService.ts:63 | The greedy `\s+` backtracks to the last position from which `.+` can still take a character. |
| Gemini.LineEnd | src/services/geminiService.ts:63 | `.+$` stops at the first line terminator or at the end of the text. |
| Gemini.WhitespaceEnd | src/services/geminiService.ts:63 | `\s+` runs to the first non-whitespace character. |
| Gemini.Title | src/services/geminiService.ts:63-64 | The trimmed capture, or `文章 {i+1}` without one; stated by Gemini.TitleFallback, Gemini.FirstLineHeading, Gemini.BareHashLine and Gemini.SubheadingSkipped. |
| Gemini.TitleFallback | src/services/geminiService.ts:63-64 | With no title match anywhere, the title is `文章 {i+1}`; when some match exists, the capture is found. The converse of the first clause is the "exactly when" of Gemini.HeadingCapture. |
| Gemini.FirstLineHeading | src/services/geminiService.ts:63-64 | Content whose first line is `# t` gets the title `t`, trimmed. |
| Gemini.SubheadingSkipped | src/services/geminiService.ts:63-64 | A leading `##` line is not a title, because its second `#` is not whitespace; the `# ` heading on the next line is chosen. |
| Gemini.BareHashLine | src/services/geminiService.ts:63-64 | A line holding only `#` is a title match, because `\s+` takes the line break, so the next line (trimmed) becomes the title. |
| Gemini.StripMarkup | src/services/geminiService.ts:67 | Deleting `#`, `*`, `-` and whitespace keeps every other character with its multiplicity and leaves no markup character. |
| Gemini.WordCount | src/services/geminiService.ts:67 | The length of the text with markup deleted; stated by Gemini.WordCountBounds, Gemini.WordCountFull and Gemini.WordCountZero. |
| Gemini.WordCountBounds | src/services/geminiService.ts:67 | 0 <= wordCount <= length. It equals the length exactly when the text has no markup, and is 0 exactly when the text is all markup. |
| Gemini.WordCountFull | src/services/geminiService.ts:67 | The word count equals the length exactly when no character is markup. |
| Gemini.WordCountZero | src/services/geminiService.ts:67 | The word count is 0 exactly when every character is markup. |
| Gemini.Progress | src/services/geminiService.ts:76 | `Math.round(((i+1)/n)*100)` over the rationals; stated by Gemini.ProgressIsNearest, Gemini.ProgressBounds and Gemini.ProgressMonotone. |
| Gemini.ProgressIsNearest | src/services/geminiService.ts:76 | The progress value is the integer nearest to 100(i+1)/n, with halves rounded up, as `Math.round` does. |
| Gemini.ProgressBounds | src/services/geminiService.ts:76 | For a valid item index the progress lies in 1..100, and it is 100 for the last item. |
| Gemini.ProgressMonotone | src/services/geminiService.ts:76 | A later item never reports a smaller progress. |
| Gemini.ProgressReports | src/services/geminiService.ts:75-77 | The reports of a run of replies, one per success; stated by the four lemmas below. |
| Gemini.ProgressReportsStep | src/services/geminiService.ts:75-77 | An item adds a progress report exactly when it succeeded. |
| Gemini.ProgressReportsBounded | src/services/geminiService.ts:75-77 | There are no more reports than items so far. Each report lies in 1..100 and is at most the latest item's progress. |
| Gemini.ProgressReportsSorted | src/services/geminiService.ts:75-77 | The reports never decrease. |
| Gemini.ProgressReportsShape | src/services/geminiService.ts:75-77 | The reports of a valid batch lie in 1..100, never decrease, and the last is 100 when the last item succeeded. |
| Gemini.FillPrompt | src/services/geminiService.ts:48-50 | The two chained first-occurrence replacements, company first; stated by Gemini.ReplaceAfterBraceFree and Gemini.ProductPlaceholderInsideCompanyInfo. |
| Gemini.ReplaceAfterBraceFree | src/services/geminiService.ts:48-50 | A placeholder after a `{`-free prefix is replaced at that first occurrence by a `$`-free text, verbatim. |
| Gemini.FirstAfterBraceFree | src/services/geminiService.ts:48-50 | A `{`-pattern that follows a `{`-free prefix is found at that position first. |
| Gemini.ProductPlaceholderInsideCompanyInfo | src/services/geminiService.ts:48-50 | Company info is substituted first, so a `{product_info}` inside it is the one that gets replaced, and the template's own `{product_info}` further on stays. |
| Gemini.ResolveKey | src/services/geminiService.ts:16-26 | The key is the first of apiKey, saved key and environment key that is present (`??`). An empty chosen key counts as no key. |
| Gemini.GeminiService.constructor | src/services/geminiService.ts:16-30 | The service keeps the key it was built with. |
| Gemini.ServiceCache.GetGeminiService | src/services/geminiService.ts:117-122 | A cached instance is returned unchanged and the key is ignored. Otherwise a fresh instance with the resolved key is cached and returned, or the missing-key error is raised and nothing is cached. |
| Gemini.ServiceCache.ResetGeminiService | src/services/geminiService.ts:124-126 | The cache is emptied. |
| Gemini.ServiceCache.constructor | src/services/geminiService.ts:117 | The cache starts empty. |
| Tasks.SortNewest | src/services/taskService.ts:34-38 | The sorted snapshot is a permutation of the tasks and is ordered newest first. |
| Tasks.InsertNewestCount | src/services/taskService.ts:35-37 | Inserting adds the task once and keeps every other task. |
| Tasks.InsertNewestOrdered | src/services/taskService.ts:35-37 | Inserting into a newest-first sequence keeps it newest first. |
| Tasks.InsertNewestBound | src/services/taskService.ts:35-37 | Inserting keeps a bound on creation times. |
| Tasks.ValuesInOrderMembers | src/services/taskService.ts:35 | `Map.values()` in insertion order lists exactly the stored tasks, one per key. |
| Tasks.SnapshotMembers | src/services/taskService.ts:34-38 | The snapshot holds exactly the stored tasks and has one entry per stored value. |
| Tasks.TaskService.Snapshot | src/services/taskService.ts:34-38 | The stored tasks newest first; stated by Tasks.TaskService.SnapshotSpec. |
| Tasks.TaskService.SnapshotSpec | src/services/taskService.ts:34-38 | `snapshot()` and `getAllTasks()` hold each stored task once, newest first, and nothing else. |
| Tasks.TaskService.constructor | src/services/taskService.ts:30-32 | A new service has no tasks, listeners, deliveries or backend calls. |
| Tasks.TaskService.GetTask | src/services/taskService.ts:117-119 | A task is found exactly when its id is stored, and it is the stored task. |
| Tasks.TaskService.Notify | src/services/taskService.ts:40-43 | Every listener, in order, is handed the current snapshot, and nothing else changes. |
| Tasks.Deliveries | src/services/taskService.ts:40-43 | One delivery per listener, in listener order, each carrying the same snapshot. |
| Tasks.DeliveriesReach | src/services/taskService.ts:40-50 | An unsubscribed listener receives nothing from `notify`, and a subscribed one receives the snapshot. |
| Tasks.TaskService.Subscribe | src/services/taskService.ts:45-47 | The listener joins the set once, and the current snapshot is delivered to it at once. |
| Tasks.TaskService.Unsubscribe | src/services/taskService.ts:48-50 | The listener leaves the set and nothing else changes. |
| Tasks.Without | src/services/taskService.ts:48-50 | Deleting from the listener set removes exactly that listener and keeps the set free of duplicates. |
| Tasks.TaskService.CreateTask | src/services/taskService.ts:53-105 | A reply that throws, or that has no task or an empty id, gives the prefixed error and changes nothing. Otherwise a pending task at 0, created at `created_at*1000`, is stored under its id and the listeners are told. |
| Tasks.FromReply | src/services/taskService.ts:71-82 | For any reply, the task copies the reply's id, company info, product info and article count, takes the caller's target word count, and is pending at 0, created at the reply's seconds × 1000, with no completion time and no articles. The reply's own status is ignored. The task is well formed. |
| Tasks.CreateRoundTrip | src/services/taskService.ts:61-82 | A task the backend builds comes back with the caller's inputs, the backend's id, pending at 0, created at the backend's seconds times 1000. |
| Tasks.TaskService.Put | src/services/taskService.ts:84-85 | Storing a task updates the map, appends a new id to the insertion order, and tells every listener. |
| Tasks.TaskService.Store | src/services/taskService.ts:84 | `tasks.set`: the map is updated and the registry invariant is kept. |
| Tasks.TaskService.Commit | src/services/taskService.ts:127-130 | A stored task's new state is synced to the backend with the given calls, stored, and the new snapshot is handed to every listener; the registry invariant holds. |
| Tasks.TaskService.Begin | src/services/taskService.ts:127-130 | The run starts by setting the task processing at 0 and syncing that to the backend. Exactly one round of deliveries is appended to the inbox: every listener, in order, gets the snapshot with the task processing at 0. |
| Tasks.TaskService.OnProgress | src/services/taskService.ts:142-151 | A progress report sets the task's progress and syncs it to the backend. Exactly one round of deliveries is appended: every listener gets the snapshot with the task at that progress. |
| Tasks.TaskService.ReportProgress | src/services/taskService.ts:142-151 | Over all reports, in order: the task ends at the last report, and one sync per report is made. The inbox grows by exactly `ProgressRounds(..)`: one round per report, each handing every listener the snapshot with the task at that report. |
| Tasks.ProgressRoundAt | src/services/taskService.ts:142-151 | Round k of the replay is the k-th block of one delivery per listener. It hands each listener, in listener order, the snapshot with the task at report k. |
| Tasks.ProgressRoundsLength | src/services/taskService.ts:142-151 | The replay makes one delivery per listener per report, and nothing more. |
| Tasks.ProgressRounds | src/services/taskService.ts:142-151 | The deliveries the progress callback makes over all reports; stated by Tasks.ProgressRoundAt and Tasks.ProgressRoundsLength. |
| Tasks.ReportSyncs | src/services/taskService.ts:145-149 | One `processing` sync per report, carrying that report. |
| Tasks.TaskService.Complete | src/services/taskService.ts:170-177 | A generated run replays its reports, then completes the task at 100 with the articles. It syncs `completed`/100 and the snake_case articles. The inbox grows by the replay's rounds and then one final round with the completed task. |
| Tasks.TaskService.Fail | src/services/taskService.ts:178-186 | An aborted run marks the task failed with a completion time, syncs `failed` with the progress it had (0). Exactly one round with the failed task is delivered. |
| Tasks.TaskService.Finish | src/services/taskService.ts:170-186 | The end of a run is the completed or the failed case, as the run went. The inbox grows by the replay's rounds, none for an aborted run, then the final round. |
| Tasks.Generate | src/services/taskService.ts:133-167 | The generation step aborts when the template fetch throws, when no service can be had, or when the count is rejected. Otherwise it yields the loop's articles and reports. The cache is untouched when the template fails or an instance existed. When the template is fetched and there was no instance, the cache ends with a new instance holding the resolved key if a key resolves, and stays empty if none does. |
| Tasks.RunOf | src/services/taskService.ts:133-167 | What a processing run generates from the template, the service lookup and the model; stated by Tasks.RunOfInputs, Tasks.RunReportsBounded and Tasks.FinishedSpec. |
| Tasks.Finished | src/services/taskService.ts:170-186 | The task as a run leaves it; stated by Tasks.FinishedSpec. |
| Tasks.TaskService.ProcessTask | src/services/taskService.ts:121-188 | An unknown id changes nothing. For a known id, the task ends as `Finished(RunOf(..))` and the backend gets `processing`/0, one sync per report, then the final calls. The inbox grows by, in order: the round with the task processing at 0, the replay's rounds (one per report), and the round with the final state. When the template is fetched and there was no cached instance, the cache holds a new instance with the resolved key, or stays empty when no key resolves. The registry invariant holds. |
| Tasks.FinishedSpec | src/services/taskService.ts:127-185 | A run generates exactly when the template, the service and the count are all fine. A finished task is then completed at 100 with one article per item; otherwise it is failed at the progress 0 it was reset to. Either way it is well formed with its completion time set. |
| Tasks.RunOfInputs | src/services/taskService.ts:137-141 | What is generated depends only on the company info, the product info and the count. |
| Tasks.RunReportsBounded | src/services/taskService.ts:142-143 | Every progress value the callback stores is a percentage. |
| Tasks.ProgressTrail | src/services/taskService.ts:129-175 | The progress the backend is told never goes back: 0, then the reports, then 100. |
| Tasks.ToWireSpec | src/services/taskService.ts:208-212 | The snake_case mapping keeps length and order field for field, and mapping back gives the articles again. |
| Tasks.ToWire | src/services/taskService.ts:208-212 | The snake_case articles sent with the completion; stated by Tasks.ToWireSpec. |
| Tasks.FilledSlots | src/services/taskService.ts:173 | The article array of a completed task has one filled slot per generated article, in order. |
| Tasks.TaskService.OnPartialArticle | src/services/taskService.ts:153-166 | For a known task the article array is created if absent, and only slot `index` is written, with `文章 {index+1}` and the word-count rule. Listeners are told. A missing task is left alone. |
| Tasks.WriteSlot | src/services/taskService.ts:160-164 | Writing past the end grows the array with holes. The written slot holds the article and every other slot is unchanged. |
| Tasks.Holes | src/services/taskService.ts:160 | The gap left by an out-of-range write is made of holes. |
| Tasks.ExportTextSpec | src/services/taskService.ts:232-234 | The combined text is each article's `# {title}\n\n{content}\n\n---\n\n`, one after another in order; holes give nothing. |
| Tasks.Sections | src/services/taskService.ts:232-233 | One section per article slot, in order. |
| Tasks.ExportText | src/services/taskService.ts:232-234 | The combined export text; stated by Tasks.ExportTextSpec. |
| Tasks.TaskService.ExportTaskResults | src/services/taskService.ts:223-265 | A missing task, or one without articles, gives nothing and writes nothing. Otherwise the combined text is exported as `task_{id}_articles.{format}`, and the written path is returned, or nothing when the export failed. |
| Tasks.TaskService.ExportTaskResultsDefault | src/services/taskService.ts:223-226 | Called without a format, the export is the Markdown one: `task_{id}_articles.markdown`. |
| Tasks.TaskExportWrites | src/services/taskService.ts:245-260 | Every format the service offers is one of the exportable formats and is written, to `./exports/task_{id}_articles.{format}`. The path is reported exactly when that write succeeds. |
| Tasks.ServiceHolder.GetTaskService | src/services/taskService.ts:269-276 | The first call creates an empty service; later calls return the same one. |
| Tasks.ServiceHolder.constructor | src/services/taskService.ts:269 | No service exists at first. |
| Tasks.KeysMatchOrder | src/services/taskService.ts:31 | The map has as many entries as the insertion order has ids. |
| Rules.ReadRulesDefaults | src/services/rulesService.ts:25-30 | Absent rules read as the default rules. `enabled` is true unless the stored value is exactly `"false"`. |
| Rules.GetContentRules | src/services/rulesService.ts:25-30 | The rules read from the store; stated by Rules.ReadRulesDefaults and Rules.SaveThenGet. |
| Rules.SaveThenGet | src/services/rulesService.ts:25-41 | Saving rules and reading them back gives the saved rules. |
| Rules.SaveKeepsOtherKeys | src/services/rulesService.ts:35-41 | Saving touches only the two rules keys. |
| Rules.SaveContentRules | src/services/rulesService.ts:35-41 | The store gains the rules text and `enabled` as text, and reading it back gives the saved rules. |
| Rules.ApplyRulesSpec | src/services/rulesService.ts:46-59 | The prompt comes back unchanged exactly when the rules are disabled or blank after trimming. Otherwise it starts with the base prompt and holds the rules verbatim after the introduction. |
| Rules.ApplyRules | src/services/rulesService.ts:49-59 | The prompt with the rules block appended; stated by Rules.ApplyRulesSpec. |
| Rules.ApplyRulesToPrompt | src/services/rulesService.ts:46-59 | `applyRulesToPrompt`: ApplyRules on the stored rules; stated by Rules.DefaultRulesApplied. |
| Rules.DefaultRulesApplied | src/services/rulesService.ts:46-59 | With nothing stored, the default rules are appended between the fixed introduction and closing line. |
| Rules.LocalStorage.GetItem | src/services/rulesService.ts:26-27 | A key is found exactly when stored, with its stored value. |
| Rules.LocalStorage.SetItem | src/services/rulesService.ts:36-40 | Setting a key stores the value under it and changes no other key. |
| Rules.LocalStorage.constructor | src/services/rulesService.ts:26 | The store starts empty. |
| Backend.CreateGenerationTask | src-tauri/src/lib.rs:37-61 | The new task keeps the caller's inputs and gets the generated id and the clock in seconds. It starts `"pending"` at 0, with no completion time and no articles. |
| Backend.DefaultFilenameShape | src-tauri/src/lib.rs:141-147 | Without a file name the file is `export_{secs}.{format}`, and the seconds can be read back from it. |
| Backend.ExportPathInjective | src-tauri/src/lib.rs:149-154 | Different file names are written to different paths. |
| Backend.PlanExportSpec | src-tauri/src/lib.rs:154-177 | Only txt, html and markdown are written, to the path of the given or default file name. Txt and markdown write the content as it is; any other format is refused, naming it. |
| Backend.PlanExportHtml | src-tauri/src/lib.rs:160-166 | The html export is a fixed head, then the content unescaped, then a fixed tail. |
| Backend.PlanExport | src-tauri/src/lib.rs:141-177 | The file path and text `export_content` writes, or the refusal; stated by Backend.PlanExportSpec, Backend.PlanExportHtml and Backend.DefaultFilenameShape. |
| Backend.Utf8LengthBounds | src-tauri/src/lib.rs:180-182 | The reported size is between one and four bytes per character, and one per character for ASCII. |
| Backend.ExportOutcomeSpec | src-tauri/src/lib.rs:156-189 | A successful export names a file that now holds exactly the written text, and reports its size. An unsupported format gives `success=false`, the `Unsupported format: {f}` error, no path and no size, and writes nothing. A failed write is an error and writes nothing. |
| Backend.ExportOutcome | src-tauri/src/lib.rs:156-189 | The result `export_content` returns for a plan; stated by Backend.ExportOutcomeSpec. |
| Backend.ExportContent | src-tauri/src/lib.rs:136-190 | `export_content` returns the planned outcome and leaves the files as the plan says. |
| Backend.FileSystem.Write | src-tauri/src/lib.rs:156-169 | A write to a failing path is an error and changes nothing. Any other write stores the text under the path. |
| Backend.FileSystem.FileSize | src-tauri/src/lib.rs:180-182 | A missing file has size 0. |
| Backend.FileSystem.constructor | src-tauri/src/lib.rs:149-154 | The disk starts with the given files and failing paths. |
| Backend.ExportItem | src-tauri/src/lib.rs:197-218 | One batch item is exported with its string content (or `""`) and its titled or shared options; an error becomes an error result. |
| Backend.ExportBatch | src-tauri/src/lib.rs:192-222 | `export_batch` gives exactly one result per item, in item order, error results included, and the files end as the items' exports in order leave them. |
| Backend.BatchFilesStep | src-tauri/src/lib.rs:196-219 | The files after k+1 items are those after k items, with item k exported. |
| Backend.TitledFilenameIndex | src-tauri/src/lib.rs:206-208 | The index can be read back from a titled file name. |
| Backend.TrailingDigitsAfterUnderscore | src-tauri/src/lib.rs:207 | The digits after the last `_` of a titled name are exactly the index's. |
| Backend.TitledItemsDoNotCollide | src-tauri/src/lib.rs:196-210 | Two titled items at different positions of a batch are written to different paths. |
| Backend.PreviewMatchesExport | src-tauri/src/lib.rs:250-263 | The preview is the identity for txt and markdown and the html page titled "Preview" for html. Any other format gets `Preview for {f} format`. |
| Backend.PreviewExport | src-tauri/src/lib.rs:250-263 | `preview_export`; stated by Backend.PreviewMatchesExport. |
| Backend.AdvertisedFormats | src-tauri/src/lib.rs:224-233 | `get_supported_formats`: txt, html, markdown, pdf and docx; see Backend.AdvertisedFormatRejected. |
| Backend.AdvertisedFormatRejected | src-tauri/src/lib.rs:224-233 | `pdf` and `docx` are advertised, yet `export_content` refuses them. |
| Backend.ExportableFormatsWritten | src-tauri/src/lib.rs:156-169 | Every format of the corrected list is written by `export_content`. |
| Database.DatabaseModule.InitDatabase | src/lib/database.ts:5-62 | Once the handle exists it is returned with no reload and no statement. Otherwise the database is loaded once and the four tables are created, in order. |
| Database.DatabaseModule.GetDatabase | src/lib/database.ts:64-69 | The handle is returned, initialised first when absent. |
| Database.InitTwice | src/lib/database.ts:5-6 | Initialising twice loads once, runs the schema once and returns the same handle. |
| Database.DatabaseModule.CreateProject | src/lib/database.ts:80-87 | The insert binds the name and the description, or `""` when there is none. |
| Database.DatabaseModule.UpdateTaskProgress | src/lib/database.ts:143-165 | Exactly the built progress update is executed on the handle. |
| Database.DatabaseModule.constructor | src/lib/database.ts:3 | No handle at first. |
| Database.Connection.Execute | src/lib/database.ts:161-164 | Each executed statement is recorded in order. |
| Database.Connection.constructor | src/lib/database.ts:8 | A loaded connection has run nothing yet. |
| Database.BuildProgressUpdate | src/lib/database.ts:149-164 | The pushes build exactly the specified SET list, SQL text and parameters. |
| Database.SetFieldsSpec | src/lib/database.ts:149-158 | The SET list begins with `progress = ?`. `status = ?` appears exactly when a status is given, and the completion time exactly for `completed`. |
| Database.ProgressUpdateParams | src/lib/database.ts:149-164 | The parameters are the progress, then the status if given, then the task id. The SQL has exactly as many `?` as parameters. |
| Database.SetListPlaceholders | src/lib/database.ts:149-162 | The SET list has one `?` per bound value. |
| Database.UpdateSqlMarks | src/lib/database.ts:149-164 | The UPDATE statement has one `?` per bound SET value plus the one of `WHERE id = ?`. |
| Database.JoinThree | src/lib/database.ts:162 | `join(", ")` of two or three SET fields puts the separator between each pair. |
| Database.ProgressUpdate | src/lib/database.ts:143-165 | The statement `updateTaskProgress` executes; stated by Database.SetFieldsSpec, Database.ProgressUpdateParams and Database.BuildProgressUpdate. |
| CreateTaskSheet.ArticleCountSpec | src/components/tasks/CreateTaskSheet.tsx:46-49 | The count lies in 1..20. Text without a number, or 0, gives 5; a negative number gives 1; above 20 gives 20; in range passes through. |
| CreateTaskSheet.TargetWordCountSpec | src/components/tasks/CreateTaskSheet.tsx:50-53 | The target lies in 200..2000. Text without a number, or 0, gives 800; anything else is clamped, and in range passes through. |
| CreateTaskSheet.ArticleCountOfNumeral | src/components/tasks/CreateTaskSheet.tsx:46-49 | A count typed as an in-range numeral, possibly followed by non-digits, is submitted as typed. |
| CreateTaskSheet.TargetWordCountOfNumeral | src/components/tasks/CreateTaskSheet.tsx:50-53 | Likewise for the target word count. |
| CreateTaskSheet.ArticleCount | src/components/tasks/CreateTaskSheet.tsx:46-49 | The submitted count; stated by CreateTaskSheet.ArticleCountSpec and CreateTaskSheet.ArticleCountOfNumeral. |
| CreateTaskSheet.TargetWordCount | src/components/tasks/CreateTaskSheet.tsx:50-53 | The submitted target; stated by CreateTaskSheet.TargetWordCountSpec and CreateTaskSheet.TargetWordCountOfNumeral. |
| CreateTaskSheet.TaskForm.constructor | src/components/tasks/CreateTaskSheet.tsx:34-39 | The form starts empty, with the texts "5" and "800", and not submitting. Submitted as they stand, those texts give the count 5 and the target 800. |
| CreateTaskSheet.TaskForm.HandleSubmit | src/components/tasks/CreateTaskSheet.tsx:41-67 | `onSubmit` is called once with the texts and the clamped numbers. A rejection is logged, and either way `isSubmitting` ends false. |
| TaskManager.ToggledSpec | src/components/tasks/TaskManager.tsx:52-62 | Toggling adds the id exactly when it was absent, leaves every other id alone, and toggling twice restores the set. |
| TaskManager.Toggled | src/components/tasks/TaskManager.tsx:52-62 | The selection after a toggle; stated by TaskManager.ToggledSpec. |
| TaskManager.Selection.ToggleTaskSelection | src/components/tasks/TaskManager.tsx:52-62 | The selection becomes the toggled copy. |
| TaskManager.Selection.constructor | src/components/tasks/TaskManager.tsx:24 | Nothing is selected at first. |
| TaskManager.ExportedTasksSpec | src/components/tasks/TaskManager.tsx:65-70 | The exported tasks are exactly the selected, completed tasks that have an article array, kept in task order. |
| TaskManager.ExportedTasksMembers | src/components/tasks/TaskManager.tsx:65-70 | Membership in the filtered list is exactly exportability. |
| TaskManager.ExportedTasks | src/components/tasks/TaskManager.tsx:65-70 | The filtered tasks; stated by TaskManager.ExportedTasksSpec. |
| TaskManager.ExportSelectedSpec | src/components/tasks/TaskManager.tsx:64-77 | Nothing is exported exactly when no task is exportable. The text for two runs of tasks is the first's followed by the second's. |
| TaskManager.ExportSelected | src/components/tasks/TaskManager.tsx:64-77 | The downloaded text, or nothing; stated by TaskManager.ExportSelectedSpec and TaskManager.ExportOneTask. |
| TaskManager.ExportOneTask | src/components/tasks/TaskManager.tsx:74-77 | One task's export is each present article's content and `\n\n---\n\n`, in slot order. |
| TaskManager.AllArticlesAppend | src/components/tasks/TaskManager.tsx:74 | `flatMap` gives the articles task by task, in order. |
| TaskManager.PresentAppend | src/components/tasks/TaskManager.tsx:74 | The present articles of an array are those of its parts in turn. |
| TaskManager.PresentMembers | src/components/tasks/TaskManager.tsx:74 | Holes are skipped; the present articles are exactly the filled slots'. |
| TaskManager.MarkdownAppend | src/components/tasks/TaskManager.tsx:75-77 | The text is the articles' entries one after another. |
| TaskManager.MarkdownOne | src/components/tasks/TaskManager.tsx:76 | One article's entry is its content and the separator. |
| TaskManager.NeedsRefreshSpec | src/components/tasks/TaskManager.tsx:30-35 | The panel refreshes exactly when some task is pending or processing. |
| TaskManager.NeedsRefresh | src/components/tasks/TaskManager.tsx:30-35 | The auto-refresh test; stated by TaskManager.NeedsRefreshSpec. |
| TaskManager.WordTotalSpec | src/components/tasks/TaskManager.tsx:265-268 | The total is the sum of the present articles' word counts; holes count nothing. |
| TaskManager.WordTotal | src/components/tasks/TaskManager.tsx:265-268 | The word-count total; stated by TaskManager.WordTotalSpec and TaskManager.WordTotalOfRun. |
| TaskManager.WordSumAppend | src/components/tasks/TaskManager.tsx:265-268 | The sum over two runs of articles is the sum of their sums. |
| TaskManager.WordTotalOfRun | src/components/tasks/TaskManager.tsx:257-268 | For a completed run the total is the sum over the generated articles. |
| TaskManager.PresentOfFilled | src/components/tasks/TaskManager.tsx:257-268 | A completed task's array gives back exactly the generated articles. |
| Js.MessageOf | src/services/geminiService.ts:86-87 | An `Error` gives its message; any other thrown value gives `未知错误`. |
| Js.BlankIffAllWhitespace | src/services/geminiService.ts:58 | `trim()` is empty exactly when the text is all whitespace. |
| Js.TrimStart | src/services/geminiService.ts:58-64 | Trimming the start removes exactly the leading whitespace. |
| Js.TrimEnd | src/services/geminiService.ts:58-64 | Trimming the end removes exactly the trailing whitespace. |
| Js.Trim | src/services/geminiService.ts:58-64 | `trim()`; stated by Js.BlankIffAllWhitespace and the contracts of Js.TrimStart and Js.TrimEnd. |
| Js.IndexOfFrom | src/services/geminiService.ts:49-50 | The index found is the first occurrence at or after the start, and none is found only when there is none. |
| Js.ReplaceFirstSpec | src/services/geminiService.ts:49-50 | `replace` with a string pattern rewrites only the first occurrence, and nothing when there is none. |
| Js.ReplaceFirst | src/services/geminiService.ts:49-50 | `replace` with a string pattern; stated by Js.ReplaceFirstSpec. |
| Js.SubstitutionWithoutDollar | src/services/geminiService.ts:49-50 | A replacement without `$` is inserted verbatim. |
| Js.ParseIntOfNumeral | src/components/tasks/CreateTaskSheet.tsx:46-53 | `parseInt` reads back a decimal numeral followed by anything that does not start with a digit. |
| Js.ParseIntOfDigitLed | src/components/tasks/CreateTaskSheet.tsx:46-53 | Text that starts with a digit is read as the value of its leading run of digits. |
| Js.ParseIntNaN | src/components/tasks/CreateTaskSheet.tsx:46-53 | `parseInt` is NaN exactly when no digit follows the leading whitespace and optional sign. |
| Js.ParseInt | src/components/tasks/CreateTaskSheet.tsx:46-53 | `Number.parseInt(s, 10)`, with NaN as None; stated by Js.ParseIntOfNumeral, Js.ParseIntOfDigitLed and Js.ParseIntNaN. |
| Js.NatToString | src-tauri/src/lib.rs:146 | A number prints as a non-empty run of digits with no leading zero. |
| Js.NatToStringValue | src-tauri/src/lib.rs:146 | The printed digits denote the number. |
| Js.ConcatAppend | src/services/taskService.ts:232-234 | `join("")` of two runs of parts is the join of the first followed by that of the second. |
| Js.CountAppend | src/lib/database.ts:162 | Counting `?` over two texts adds up. |
| Js.Join | src/lib/database.ts:162 | `join(sep)`; the three-part case is stated by Database.JoinThree. |

## Left out

- Generation timing: the one-second `delay` between items, the `setInterval`/`setTimeout` timers, and async interleaving. Processing is one sequential run. The progress callbacks are replayed after generation, which gives the same final state and backend calls because the callbacks do not feed back into generation.
- Tasks.TaskService.ProcessTask: the progress sync at `taskService.ts:145-149` is fire-and-forget, and it is recorded in call order. What the backend does with it is not modelled.
- Tasks.TaskService.ProcessTask: the model assumes the callbacks and the backend syncs never throw. `updateTaskProgress` and `updateTaskArticles` catch their own errors, so a run fails only when the template fetch, the service or the count check fails.
- Tasks.TaskService.CreateTask: the same assumption covers the `notify()` at `taskService.ts:85`, which sits inside the `try`. A listener that throws there would turn an already stored task into the prefixed error; the model always returns the task once it is stored.
- The `.catch` attached to `processTask` in `createTask`, which marks a task failed when processing rejects. Under the assumption above it never fires.
- Tasks.TaskService.CreateTask: `processTask` is not started from inside it. A caller runs `ProcessTask` after it.
- Aliasing of task objects between the map and listeners' snapshots. Tasks are values, and each update stores a new value.
- Tasks.SortNewest: its ensures states a permutation that is sorted newest first. That `Array.prototype.sort` is stable, which decides the order of equal creation times, is not stated.
- Gemini.Progress: computed with exact rational rounding. In double precision `((i+1)/n)*100` can fall just below a half. For 0 <= i < n <= 100 this happens only at (i=22, n=40) and (i=45, n=80): the quotient is 57.49999999999999, so `Math.round` gives 57 where the model gives 58. The bounds and monotonicity proved for the model also hold for those two values.
- Strings are sequences of characters. UTF-16 code units, surrogate pairs and the exact Unicode set of `\s` beyond the listed whitespace characters are not distinguished.
- Gemini.ReplaceAfterBraceFree and Gemini.ProductPlaceholderInsideCompanyInfo: require `$`-free replacement texts. `Js.ReplaceFirst` itself models `$$`, `$&`, `` $` `` and `$'`.
- `testConnection` and src/lib/gemini.ts, thin wrappers over the hosted model's SDK.
- The native commands `greet`, `get_all_tasks`, `update_task_progress`, `update_task_articles`, `get_prompt_template` (a fixed text; its reply is a parameter), `validate_export_path` and `get_default_export_path`. They print, return constants or check the disk.
- Backend.ExportContent: `create_dir_all` failures, `fs::metadata` failures (size 0 after a successful write), the `metadata` and `styling` options, and platform path rules beyond a leading `/`.
- Database: the column lists of the `CREATE TABLE` statements, `lastInsertId`, and `getProjects`, `createDataSource`, `getDataSources`, `createGenerationTask`, `saveGeneratedArticle` and `getGeneratedArticles`. These are single SQL calls with no logic.
- Database.DatabaseModule.InitDatabase: a failing `Database.load` or `execute` is not modelled.
- `pdf` and `docx` export, which the code does not implement (see Findings).
- UI rendering, the Blob/DOM download in `exportSelectedTasks`, `handleRefresh` with `isRefreshing`, and the `onRefresh` callback's effect.
- CreateTaskSheet.TaskForm.HandleSubmit: the intermediate `isSubmitting = true` state while `onSubmit` is pending is not observable in the model.
- CreateTaskSheet.ArticleCountSpec: `parseInt` is exact. Precision loss above 2^53 is not modelled.
- Settings.tsx, ContentGenerator.tsx, TaskList.tsx, TaskDetail.tsx, page.tsx, scripts/build-icons.ts, next.config.ts and src/types/index.ts are not part of this model.

## Findings

| source | as written | input that shows it | evidently intended | confidence | as-written member | corrected member |
|---|---|---|---|---|---|---|
| src-tauri/src/lib.rs:224-233 | `get_supported_formats` lists `txt`, `html`, `markdown`, `pdf` and `docx`, but `export_content` refuses every format except the first three | `export_content(c, {format: "pdf"})` gives `success=false`, `Unsupported format: pdf` | every advertised format can be exported, so the list should be `txt`, `html`, `markdown` | not executed | Backend.AdvertisedFormatRejected | Backend.ExportableFormatsWritten |
