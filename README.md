# Code-audit service: task stores, sandbox and report utilities

This project models the core of an automated code-audit service in Dafny.

A user uploads one source file. The service stores an audit task for it, keyed by a generated task id. A background run then does the following:

- copies the file into a per-task sandbox directory;
- for Python, runs the `bandit` static analyser;
- asks a language model for further findings;
- merges the two lists of issues and computes statistics;
- writes the outcome back into the task record.

HTTP endpoints read a result, list tasks (newest first, filtered and truncated), delete a task and report health. The web front end has three helpers:

- one guesses a project's language from its file names;
- one maps vulnerability types to fix templates and severities to display styles;
- one renders an audit as a Markdown report.

There are three versions of the in-memory backend, and each is modelled on its own.

- `backend/main_fixed.py` is module `MainFixed`. It tags and concatenates issues and counts severities by exact match.
- `backend/main.py` is module `MainApp`. It drops LLM issues that duplicate an earlier one, sorts by severity and counts lower-cased severities. As written, the file has a second `run_audit` pasted into the middle of the first (line 203). The model follows the outer function: the file-existence check, then the copy/bandit/LLM/merge/sort/statistics code from lines 87-348. The inner fragment is not modelled.
- `backend/cyber_audit_final.py` is module `FinalApp`. It works on the real `SecureSandbox` and catches LLM failures. It counts issues per source tag.

Shared parts:

- `AuditModel` holds the task record, the status values, the upload rules, the list, delete and health views, and the environment.
- `Sandbox` models `backend/sandbox.py` over a modelled file system (`FileSystem`, a class of directory and file maps).
- `SeveritySort` is `main.py`'s stable sort by severity rank.
- `Strings` and `PyValues` hold string and JSON-value helpers.

The store is a class per backend. Its field `tasks` is the dictionary of task records, which the methods reassign. Its field `order` lists the dictionary's keys in insertion order: the task list sorts by upload time with Python's stable sort, so tasks uploaded at the same time come out in that order. A ghost `statusLog` records every status write, in order. In `MainFixed` and `MainApp`, everything the run gets from outside is an `AuditModel.Environment` value: whether the file exists, a copy failure, bandit's results, the LLM's outcome, the clock reading and the text of a raised exception. `FinalApp` reads whether the file exists and whether the copy succeeds from its `Sandbox.FileSystem`, and takes the rest from the `Environment`. Each backend's run is specified by a function `Finished`, which its `RunAudit` method is proved against. The lemmas state the properties of `Finished`.

The front-end utilities are `ProjectDetector`, `VulnTemplates` and `ReportGenerator`. `generateMarkdownReport` takes the formatted clock reading as a parameter.

## Model

| member | source | states |
|---|---|---|
| Strings.Lower | backend/main_fixed.py:308 | lower-casing keeps the length and leaves no upper-case ASCII letter |
| Strings.Upper | frontend/src/utils/reportGenerator.js:28 | upper-casing keeps the length and leaves no lower-case ASCII letter |
| Strings.LowerIdempotent | frontend/src/utils/projectDetector.js:5 | lower-casing a lower-cased name changes nothing |
| Strings.LowerAppend | backend/main_fixed.py:308 | lower-casing distributes over concatenation |
| Strings.ContainsAt | frontend/src/utils/projectDetector.js:8 | an occurrence at some offset makes `includes` true |
| Strings.ContainsWitness | frontend/src/utils/projectDetector.js:8 | `includes` true yields an offset where the substring occurs |
| Strings.Take | backend/main_fixed.py:406 | `s[:100]` is the prefix of length min(n, len), the whole string when shorter |
| Strings.SliceTo | backend/main_fixed.py:393 | `xs[:limit]` is a prefix; its length is limit clipped to the list, and a negative limit drops that many from the end |
| Strings.JoinWithLength | frontend/src/utils/reportGenerator.js:48 | the joined text has the sum of the parts' lengths plus one separator between each pair |
| Strings.NatToString | frontend/src/utils/reportGenerator.js:18 | a count prints as a non-empty string of digits with no leading zero |
| Strings.NatToStringRoundTrip | frontend/src/utils/reportGenerator.js:18 | reading the printed digits back gives the number |
| Strings.NatToStringInjective | frontend/src/utils/reportGenerator.js:18 | different counts print differently |
| Strings.LexLeTotal | backend/main_fixed.py:386 | any two upload times are comparable |
| Strings.LexLeTrans | backend/main_fixed.py:386 | string order is transitive |
| Strings.LexLeAntisym | backend/main_fixed.py:386 | string order is antisymmetric, so the newest-first order is well defined |
| Strings.LexLeRefl | backend/main_fixed.py:386 | every upload time is at least as new as itself |
| PyValues.Get | backend/main_fixed.py:192-197 | `dict.get(key, default)`: the stored value when the key is present, otherwise the default |
| PyValues.PyEqSymmetric | backend/main.py:282 | Python `==` on JSON values (with True == 1) is symmetric |
| PyValues.WithSource | backend/main_fixed.py:244-251 | setting `source` adds that key with the tag and keeps every other field |
| AuditModel.LastIndexOf | backend/main_fixed.py:308 | the index returned holds the character and none follows it; None means it does not occur |
| AuditModel.BaseName | backend/main_fixed.py:308 | `Path.name` is a suffix of the path with no `/` |
| AuditModel.SuffixShape | backend/main_fixed.py:308 | `Path.suffix` is empty or a dot followed by at least one character that is neither dot nor slash, ending the path |
| AuditModel.SuffixOfStemAndExtension | backend/main_fixed.py:308 | the suffix of a plain stem plus an extension is that extension |
| AuditModel.ExtensionAllowedMeansEnding | backend/main_fixed.py:307-314 | an accepted file name, lower-cased, ends with an allowed extension |
| AuditModel.StemWithAllowedExtensionAccepted | backend/main_fixed.py:307-314 | a plain stem with an allowed extension, in any letter case, is accepted |
| AuditModel.MapUntilFailure | backend/main_fixed.py:189-198 | the loop's output is the mapped prefix up to the first element that raises, and that element does raise |
| AuditModel.CollectUntilFailure | backend/main_fixed.py:189-198 | the loop computes exactly the mapped prefix up to the first raising element |
| AuditModel.Bump | backend/main.py:300-302 | a counter grows by one exactly when the severity is high, medium or low |
| AuditModel.CountLowered | backend/main.py:298-302 | the counts sum to at most the number of issues |
| AuditModel.CountLoweredRaises | backend/main.py:298-302 | counting raises exactly when some issue's severity is not a string, so `.lower()` fails |
| AuditModel.CountLoweredCounts | backend/cyber_audit_final.py:166-170 | each counter is the number of issues whose lower-cased severity is that level |
| AuditModel.CountSeverities | backend/main.py:298-302 | the counting loop computes those counts, or raises |
| AuditModel.InsertNewestElements | backend/main_fixed.py:386 | inserting an id keeps the other ids and adds that one |
| AuditModel.InsertNewestSorted | backend/main_fixed.py:386 | inserting into a newest-first list keeps it newest first |
| AuditModel.InsertNewestDistinct | backend/main_fixed.py:386 | inserting a new id keeps the ids distinct |
| AuditModel.InsertNewest | backend/main_fixed.py:386 | inserting one id into a list of stored ids gives one more id, each of them stored |
| AuditModel.Entered | backend/main_fixed.py:335 | storing a key adds it to the dict order, at the end when new, keeping the order distinct |
| AuditModel.Removed | backend/main_fixed.py:437 | deleting a key removes exactly it from the dict order, keeping the order distinct |
| AuditModel.EnteredArrangement | backend/main_fixed.py:335 | after storing a key the order still lists every key once |
| AuditModel.RemovedArrangement | backend/main_fixed.py:437 | after deleting a key the order still lists every remaining key once |
| AuditModel.ReplacedArrangement | backend/main_fixed.py:117-118 | overwriting a stored key keeps the order valid |
| AuditModel.SortNewestFirst | backend/main_fixed.py:383-386 | the sort returns as many ids as it is given, each stored |
| AuditModel.SortNewestFirstElements | backend/main_fixed.py:383-386 | the sort holds exactly the given ids, distinct when they were |
| AuditModel.SortNewestFirstSorted | backend/main_fixed.py:386 | the sorted ids are newest first |
| AuditModel.SortNewestFirstStable | backend/main_fixed.py:386 | the sort is stable: ids with equal upload time keep their dict order |
| AuditModel.InsertNewestUploadedAt | backend/main_fixed.py:386 | inserting an id puts it after every id uploaded at the same time |
| AuditModel.NoneAsNew | backend/main_fixed.py:386 | nothing in a newest-first list whose head is older than a task shares its upload time |
| AuditModel.UploadedAtAppend | backend/main_fixed.py:386 | selecting one upload time distributes over concatenation |
| AuditModel.UploadedAtNone | backend/main_fixed.py:386 | selecting an upload time no id has gives nothing |
| AuditModel.RecordsOf | backend/main_fixed.py:383 | the records of a list of ids, one per id, in order |
| AuditModel.KeepStatus | backend/main_fixed.py:389-390 | filtering keeps only tasks with that status, each taken from the list |
| AuditModel.KeepStatusNewestFirst | backend/main_fixed.py:386-390 | filtering a newest-first list leaves it newest first |
| AuditModel.ArrangeNewestFirst | backend/main_fixed.py:383-386 | the loop computes `SortNewestFirst` of the keys in dict order |
| AuditModel.ListTasks | backend/main_fixed.py:377-413 | the listing is the summaries of the `[:limit]` slice of the status-filtered records in `SortNewestFirst` order; total count, at most `limit` entries, the requested status only, summaries cut to 100 characters, each from a stored task, newest first |
| AuditModel.SummarizeAll | backend/main_fixed.py:396-407 | the loop builds one summary per shown task, in order |
| AuditModel.SummariesOf | backend/main_fixed.py:396-407 | one summary per task, in order |
| AuditModel.SummariesOfAppend | backend/main_fixed.py:396-407 | summarising one more task appends its summary |
| AuditModel.SummariesFacts | backend/main_fixed.py:396-413 | summaries of the shown tasks keep the status filter, the 100-character cut, their origin and the order |
| AuditModel.ShownFacts | backend/main_fixed.py:386-393 | the filtered and sliced list is newest first, at most `limit` long, has the requested status and comes from the store |
| AuditModel.Health | backend/main_fixed.py:445-461 | health reports the number of tasks and never more active than total |
| AuditModel.HealthCountsRunning | backend/main_fixed.py:451-452 | no active tasks exactly when none is running; all active when all are running |
| MainFixed.BanditIssue | backend/main_fixed.py:189-198 | a bandit result becomes an issue with tool bandit, lower-cased severity (default medium), test name as category and line number; raises exactly when the severity is not a string |
| MainFixed.StaticIssuesShape | backend/main_fixed.py:151-211 | no static issues unless the language is Python and bandit produced results; each is its result's mapping, tagged bandit, with a lower-case severity |
| MainFixed.Tagged | backend/main_fixed.py:244-252 | tagging keeps the count and adds `source` with the tag to every issue |
| MainFixed.MergeLayout | backend/main_fixed.py:241-252 | the merge succeeds exactly when every LLM item is a dict; the static issues come first, tagged, then the LLM issues, tagged |
| MainFixed.MergeIssues | backend/main_fixed.py:241-252 | the merging loop computes that merge |
| MainFixed.CountEqual | backend/main_fixed.py:267-269 | an exact-match severity count is at most the number of issues |
| MainFixed.CountOther | backend/main_fixed.py:266-270 | the issues none of the three exact counters takes are at most all issues |
| MainFixed.CountedOnce | backend/main_fixed.py:266-270 | every severity value falls in exactly one of high, medium, low or uncounted |
| MainFixed.ExactCountsBound | backend/main_fixed.py:262-271 | the three counters plus the uncounted issues add up to the number of issues |
| MainFixed.FinishedIsFinal | backend/main_fixed.py:103-292 | a run ends completed or failed and keeps the task's id, file name and upload time |
| MainFixed.EarlyFailure | backend/main_fixed.py:122-145 | a missing file or a failed copy fails the task with that cause and leaves issues, completion time and statistics untouched |
| MainFixed.CompletedRun | backend/main_fixed.py:240-271 | a completed run holds the tagged static issues, then the tagged LLM issues; total = static + LLM = number of issues; the severity counters are the exact-match counts of the stored issues and, with the uncounted ones, add up to the total |
| MainFixed.LlmFailureKeepsStatic | backend/main_fixed.py:224-238 | an LLM exception still completes the task, with only static issues and the failure as summary |
| MainFixed.ScalarLlmIssueCrashes | backend/main_fixed.py:248-292 | an LLM issue that is not a dict makes the run fail with the exception text and completion time, issues unchanged |
| MainFixed.Conclude | backend/main_fixed.py:122-271 | the run's steps compute `Finished` |
| MainFixed.AuditStore.constructor | backend/main_fixed.py:95 | the store starts empty, with an empty order |
| MainFixed.AuditStore.Upload | backend/main_fixed.py:296-359 | a bad extension is rejected with 400 and a failed save with 500, leaving the store and its order unchanged; otherwise a pending task is stored under the id, which joins the end of the order unless already present |
| MainFixed.AuditStore.RunAudit | backend/main_fixed.py:103-292 | an unknown id changes nothing; otherwise the task is set running, then replaced by `Finished`; the order is kept |
| MainFixed.AuditStore.GetResult | backend/main_fixed.py:362-374 | None (404) exactly for an unknown id, otherwise the stored record |
| MainFixed.AuditStore.List | backend/main_fixed.py:377-413 | the listing of `ListTasks` over the store and its insertion order |
| MainFixed.AuditStore.DeleteTask | backend/main_fixed.py:416-442 | an unknown id gives 404 and changes nothing; otherwise exactly that task is removed, from the records and from the order |
| MainFixed.AuditStore.HealthCheck | backend/main_fixed.py:445-461 | total is the number of tasks; active is the number of running tasks |
| MainFixed.UploadThenEarlyFailureHasNoIssues | backend/main_fixed.py:123-145 | a fresh upload that fails early has no issues and no completion time |
| SeveritySort.Rank | backend/main.py:294-295 | every issue gets one of four ranks |
| SeveritySort.SeverityRank | backend/main.py:294-295 | `severity_order.get(..., 3)` gives a rank below 4 |
| SeveritySort.Bucket | backend/main.py:295 | a rank's bucket holds only issues of that rank |
| SeveritySort.BucketAppend | backend/main.py:295 | bucketing distributes over concatenation |
| SeveritySort.SortIsPermutation | backend/main.py:295 | sorting by severity is a permutation |
| SeveritySort.SortIsOrdered | backend/main.py:294-295 | the sorted list has high, then medium, then low, then everything else |
| SeveritySort.SortIsStable | backend/main.py:295 | the issues of each rank keep their original order |
| SeveritySort.SortIsUnique | backend/main.py:295 | any rank-ordered list with the same order within each rank is the sort's result |
| SeveritySort.OrderedIsBuckets | backend/main.py:295 | sorting a rank-ordered list leaves it unchanged |
| MainApp.Tag | backend/main.py:288-289 | tagging adds `source` and `analysis_tool` and keeps every other field |
| MainApp.TagStatic | backend/main.py:201-203 | each static issue is tagged static_analysis / bandit, in order |
| MainApp.FindDuplicateMeans | backend/main.py:279-285 | not a duplicate exactly when no earlier issue matches by line and first 50 characters of description; a duplicate has a matching earlier issue |
| MainApp.SameFindingTagged | backend/main.py:282-290 | tagging an issue does not change what it matches |
| MainApp.AppendNewExtends | backend/main.py:277-291 | merging keeps the earlier issues as a prefix and adds at most one per LLM item |
| MainApp.AppendNewNoDuplicates | backend/main.py:277-291 | no appended issue matches any issue before it |
| MainApp.AppendNewCovers | backend/main.py:277-291 | every LLM item is appended, tagged, or matches an issue in the result |
| MainApp.AppendNewGrows | backend/main.py:277-291 | the merged list keeps at least the earlier issues and gains at most one per LLM item |
| MainApp.FindDuplicateLoop | backend/main.py:280-285 | the inner loop with `break` computes the duplicate test |
| MainApp.MergeFindings | backend/main.py:198-291 | the merge loops compute the duplicate-dropping merge; the length is static plus the LLM count |
| MainApp.Merge | backend/main.py:198-291 | the merged list holds every static issue and at most one more per LLM item |
| MainApp.NeverRunning | backend/main.py:65-348 | this run never leaves a task running: it ends completed or failed |
| MainApp.CompletedRun | backend/main.py:293-323 | a completed run stores the merged issues sorted by severity, as a permutation; total = static + LLM = number of issues; each severity counter is the number of stored issues with that lower-cased severity |
| MainApp.CompletionIsDone | backend/main.py:293-323 | once the merge and the count succeed, the task is completed with the sorted issues, their count as total, the static and LLM counts and the severity counters |
| MainApp.CompletionSucceeded | backend/main.py:297-323 | a completed task got through both the merge and the severity count |
| MainApp.StaticFirstWithinRank | backend/main.py:293-295 | within each severity the static issues come first, then the LLM ones, each in its original order |
| MainApp.Conclude | backend/main.py:73-348 | the run's steps compute `Finished` |
| MainApp.Complete | backend/main.py:297-323 | the completion step computes the completed record |
| MainApp.ViewOmitsFile | backend/main.py:432-443 | the response copies ten keys of the task: changing its `file_path` or `file_size` leaves the response as it was, and two tasks answer alike exactly when the ten keys agree (a missing error reading as None) |
| MainApp.ResultByState | backend/main.py:421-463 | 404 for an unknown id; 500 exactly for a failed task, with an error always present; in-progress for pending or running; every other answer carries the task's ten-key view, without `file_path` and `file_size` |
| MainApp.AuditStore.constructor | backend/main.py:50 | the store starts empty, with an empty order |
| MainApp.AuditStore.Upload | backend/main.py:360-418 | a bad extension or an unsupported language gets 400, a failed save 500, each leaving the store and its order unchanged; otherwise a pending task is stored, its id joining the end of the order unless already present |
| MainApp.AuditStore.RunAudit | backend/main.py:65-348 | an unknown id changes nothing; otherwise one status write replaces the task by `Finished`; the order is kept |
| MainApp.AuditStore.GetResult | backend/main.py:421-463 | the result response by task state, as in `ResultByState`; it carries the task's ten-key view, not the stored record |
| MainApp.AuditStore.List | backend/main.py:466-501 | the listing of `ListTasks` over the store and its insertion order |
| MainApp.AuditStore.DeleteTask | backend/main.py:504-529 | an unknown id gives 404 and changes nothing; otherwise exactly that task is removed, from the records and from the order |
| MainApp.AuditStore.HealthCheck | backend/main.py:532-544 | total is the number of tasks; active is the number of running tasks |
| FinalApp.StaticIssuesShape | backend/cyber_audit_final.py:105-142 | static issues only for Python with bandit results, each tagged static_analysis and bandit, with a lower-case severity defaulting to medium; a shorter list means a result whose severity raises |
| FinalApp.BanditIssueShape | backend/cyber_audit_final.py:129-137 | a converted bandit result is tagged bandit and static_analysis, with a lower-case string severity, medium when bandit gave none |
| FinalApp.StaticIssuesTagged | backend/cyber_audit_final.py:105-142 | every static issue carries the static_analysis source tag |
| FinalApp.LlmPartShape | backend/cyber_audit_final.py:145-163 | an LLM exception adds nothing and reports the failure; otherwise the LLM issues up to the first non-dict item are tagged and appended, and only that item makes the summary report a failure |
| FinalApp.CountSourceUniform | backend/cyber_audit_final.py:183-184 | in a list tagged with one source, counting that source gives the length and any other gives 0 |
| FinalApp.CountSource | backend/cyber_audit_final.py:183-184 | the number of issues with a given source tag is at most the number of issues |
| FinalApp.CountSourceAppend | backend/cyber_audit_final.py:183-184 | counting by source distributes over concatenation |
| FinalApp.SourceCountsAddUp | backend/cyber_audit_final.py:181-184 | the static and LLM counts are the two parts' lengths and add up to the total |
| FinalApp.SettledOverwritesStatus | backend/cyber_audit_final.py:173-186 | the final write does not depend on the intermediate running status |
| FinalApp.RunSteps | backend/cyber_audit_final.py:84-186 | the run's steps compute `Outcome`, which succeeds exactly when the copy, the read and the analysis do |
| FinalApp.FinishedIsFinal | backend/cyber_audit_final.py:59-207 | a run ends completed or failed, with a completion time; it completes exactly when every step succeeds; identity fields kept |
| FinalApp.MissingFileFails | backend/cyber_audit_final.py:65-76 | a missing file fails the task with its path and leaves issues and statistics untouched |
| FinalApp.CompletedRun | backend/cyber_audit_final.py:165-186 | completed issues are static then LLM issues; the per-source counts equal the parts and add up to the total; each severity counter is the number of issues with that lower-cased severity |
| FinalApp.LlmFailureKeepsStatic | backend/cyber_audit_final.py:158-163 | an LLM exception still completes, with only static issues, no LLM issues and the failure as summary |
| FinalApp.FinishedWith | backend/cyber_audit_final.py:165-186 | when the analysis yields a report, the finished task is completed with its issues, summary and statistics and a completion time |
| FinalApp.ScalarLlmItemTruncates | backend/cyber_audit_final.py:154-163 | a non-dict LLM item still completes, keeping the LLM issues before it and reporting the failure |
| FinalApp.RunLlmStep | backend/cyber_audit_final.py:145-163 | the tagging loop and its handler compute `LlmPart` |
| FinalApp.Analyze | backend/cyber_audit_final.py:104-170 | the analysis steps compute `Analysis` |
| FinalApp.AuditStore.constructor | backend/cyber_audit_final.py:56 | the store starts empty, with an empty order and the given sandbox |
| FinalApp.AuditStore.Upload | backend/cyber_audit_final.py:210-262 | a bad extension gets 400 and a failed save 500, leaving the store and its order unchanged; otherwise a pending task is stored, its id joining the end of the order unless already present |
| FinalApp.AuditStore.Settle | backend/cyber_audit_final.py:173-186 | writes one task's record and logs its status; nothing else changes, the order included |
| FinalApp.AuditStore.RunAudit | backend/cyber_audit_final.py:59-207 | running is written only when the file exists; the task becomes `Finished`; the order is kept; a missing file leaves the file system alone; a completed run leaves the task's sandbox empty; files of the modelled file system outside the task's sandbox keep their contents (bandit's temporary file is not in that model), directories are added only as its ancestors and removed only under it |
| FinalApp.AuditStore.GetResult | backend/cyber_audit_final.py:264-274 | None (404) exactly for an unknown id, otherwise the stored record |
| FinalApp.AuditStore.List | backend/cyber_audit_final.py:276-310 | the listing of `ListTasks` over the store and its insertion order |
| FinalApp.AuditStore.DeleteTask | backend/cyber_audit_final.py:312-342 | an unknown id gives 404 and touches nothing; otherwise the task is removed, from the records and from the order, and its sandbox subtree pruned |
| FinalApp.AuditStore.HealthCheck | backend/cyber_audit_final.py:344-358 | total is the number of tasks; active is the number of running tasks |
| Sandbox.MakeDirs | backend/sandbox.py:39 | `mkdir(parents=True, exist_ok=True)`: on success the directory exists and no directory is lost |
| Sandbox.MakeDirsIdempotent | backend/sandbox.py:39 | creating an existing directory again changes nothing |
| Sandbox.PruneIdempotent | backend/sandbox.py:85 | removing a tree twice is removing it once |
| Sandbox.PruneRemovesExactlySubtree | backend/sandbox.py:85 | `rmtree` removes exactly the paths under the directory and keeps other files' contents |
| Sandbox.SandboxesDisjoint | backend/sandbox.py:38 | two different plain task ids (no `/`, not empty, `.` or `..`) have disjoint sandbox trees |
| Sandbox.CleanupIsolated | backend/sandbox.py:75-88 | cleaning one plain task id's sandbox leaves every path in another plain task id's sandbox as it was |
| Sandbox.AncestorIsDir | backend/sandbox.py:39 | every ancestor of an existing directory is a directory |
| Sandbox.SlashAt | backend/sandbox.py:38 | the position of the first `/` in a text that has one |
| Sandbox.Components | backend/sandbox.py:38 | the path components of a text hold no `/` and are neither empty nor `.` |
| Sandbox.JoinPlain | backend/sandbox.py:38 | joining a plain name appends exactly that component |
| Sandbox.JoinRelative | backend/sandbox.py:38 | joining a relative text stays under the base |
| Sandbox.AbsoluteReplacesBase | backend/sandbox.py:72 | an absolute id such as `/etc` is not under the base: the joined path is `/etc` itself |
| Sandbox.TargetInside | backend/sandbox.py:55-58 | the copy's target for a relative file name lies under the sandbox |
| Sandbox.KeptOutsideTrans | backend/cyber_audit_final.py:84-200 | two steps that each change the file system only at the sandbox together change it only there |
| Sandbox.FileSystem.Empty | backend/sandbox.py:24-25 | a file system holding only the root |
| Sandbox.FileSystem.MkdirParents | backend/sandbox.py:39 | succeeds exactly when `MakeDirs` does and then has its directories; files unchanged |
| Sandbox.FileSystem.CopyFile | backend/sandbox.py:58 | `shutil.copy2`: succeeds exactly when the copy is possible and then writes the source's bytes at the target; directories unchanged |
| Sandbox.FileSystem.RemoveTree | backend/sandbox.py:85 | the subtree is pruned from directories and files |
| Sandbox.SecureSandbox.Create | backend/sandbox.py:17-26 | the base directory is the given one or `<tmp>/cyber_audit_sandbox`, created with its parents; files unchanged |
| Sandbox.SecureSandbox.GetSandboxPath | backend/sandbox.py:62-73 | `base_dir / task_id`: the base plus the id for a plain id; under the base for any relative id; an absolute id replaces the base |
| Sandbox.SecureSandbox.CreateSandbox | backend/sandbox.py:28-41 | creates the task's directory and returns its path; an existing one is left as is |
| Sandbox.SecureSandbox.CopyToSandbox | backend/sandbox.py:43-60 | succeeds exactly when the sandbox can be made and the copy is possible; the sandbox's missing ancestors are created; on success the file's bytes are written at `<sandbox>/<name>` and returned, on failure no file changes; directories are added only as the sandbox's ancestors; for a relative name, no file outside the sandbox changes |
| Sandbox.SecureSandbox.Cleanup | backend/sandbox.py:75-88 | removes the task's sandbox tree if it exists, otherwise changes nothing; nothing outside the sandbox is removed or changed |
| Sandbox.SecureSandbox.CleanupAll | backend/sandbox.py:90-99 | removes the whole base tree if it exists, otherwise changes nothing |
| ProjectDetector.LowerAll | frontend/src/utils/projectDetector.js:5 | each name lower-cased, in order |
| ProjectDetector.DetectIsFirstMarked | frontend/src/utils/projectDetector.js:2-49 | the if-chain returns the first type, in priority order, that some file name marks |
| ProjectDetector.SomeMarksSplit | frontend/src/utils/projectDetector.js:8-13 | a type's two checks (marker files, then extensions) together mean some file marks it |
| ProjectDetector.FirstMarkedStep | frontend/src/utils/projectDetector.js:8-47 | each `if` of the chain returns its type when one of its two checks holds, and otherwise the rest of the chain decides; a type without extensions is chosen only by marker files |
| ProjectDetector.SomeMarksLowered | frontend/src/utils/projectDetector.js:5-13 | a type is marked by the lower-cased list exactly when some original name, lower-cased, marks it |
| ProjectDetector.FirstMarkedAt | frontend/src/utils/projectDetector.js:7-49 | the k-th type is chosen exactly when some name marks it and none marks an earlier type |
| ProjectDetector.FirstMarkedNone | frontend/src/utils/projectDetector.js:49 | Unknown exactly when no name marks any type |
| ProjectDetector.FirstMarkedIn | frontend/src/utils/projectDetector.js:7-49 | the answer is Unknown or one of the listed types |
| ProjectDetector.PriorityOrder | frontend/src/utils/projectDetector.js:2-49 | Python, JavaScript, Java, PHP, Go, Rust are tried in that order; Unknown exactly for a missing or empty list or no match |
| ProjectDetector.PythonWins | frontend/src/utils/projectDetector.js:8-13 | one Python marker anywhere in the list makes the answer Python |
| ProjectDetector.CaseInsensitive | frontend/src/utils/projectDetector.js:5 | letter case in file names does not change the answer |
| ProjectDetector.ReorderInvariant | frontend/src/utils/projectDetector.js:5-49 | the order of the file names does not change the answer |
| ProjectDetector.SameMarks | frontend/src/utils/projectDetector.js:5-47 | two lists with the same names mark the same types |
| ProjectDetector.FirstMarkedAgrees | frontend/src/utils/projectDetector.js:7-49 | lists that mark the same types get the same answer |
| ProjectDetector.GoAndRustOnlyByManifest | frontend/src/utils/projectDetector.js:39-47 | Go needs a name containing `go.mod` and Rust one containing `cargo.toml`; no extension selects them |
| VulnTemplates.GetVulnTemplate | frontend/src/utils/vulnTemplates.js:103-110 | a known type gets its table entry, any other string the default template; severity low exactly for unknown types |
| VulnTemplates.GetSeverityType | frontend/src/utils/vulnTemplates.js:113-120 | the style is danger, warning or info: danger exactly for critical or high, warning exactly for medium |
| VulnTemplates.TableSeverities | frontend/src/utils/vulnTemplates.js:2-100 | every table entry is critical, high or medium |
| VulnTemplates.StyleIsInfoIffUnknown | frontend/src/utils/vulnTemplates.js:103-120 | a looked-up template displays as info exactly when its type is not in the table |
| VulnTemplates.UpperCaseSeverityIsInfo | frontend/src/utils/vulnTemplates.js:120 | upper-case severities are not recognised and display as info |
| VulnTemplates.Lookup | frontend/src/utils/vulnTemplates.js:104 | `obj[key]` finds an own property exactly for own keys and is undefined exactly off own keys and inherited names |
| VulnTemplates.OrElse | frontend/src/utils/vulnTemplates.js:104 | the `or` fallback gives the fallback value exactly when the property is undefined, and the property otherwise |
| VulnTemplates.AsWrittenAgreesOffPrototype | frontend/src/utils/vulnTemplates.js:103-120 | except on Object.prototype member names, both lookups as written agree with the own-key lookups |
| VulnTemplates.InheritedMembersLeak | frontend/src/utils/vulnTemplates.js:103-120 | on an Object.prototype member name both lookups as written return the inherited member, not the fallback |
| VulnTemplates.NotAnOwnKey | frontend/src/utils/vulnTemplates.js:2-120 | no Object.prototype member name is a key of the template table or of the style map |
| VulnTemplates.ToStringIsNotAStyle | frontend/src/utils/vulnTemplates.js:120 | `getSeverityType('toString')` as written yields a function, where info is intended |
| VulnTemplates.ConstructorIsNotATemplate | frontend/src/utils/vulnTemplates.js:104 | `getVulnTemplate('constructor')` as written yields the Object constructor, where the default template is intended |
| ReportGenerator.IntToString | frontend/src/utils/reportGenerator.js:30 | a line number prints non-empty, with a minus sign exactly when negative |
| ReportGenerator.Section | frontend/src/utils/reportGenerator.js:27-42 | a section is 8 lines, or 12 with a snippet; it opens with the numbered heading and closes with blank, `---`, blank; the snippet sits inside a fence, and there is no fence without one |
| ReportGenerator.GenerateMarkdownReport | frontend/src/utils/reportGenerator.js:2-49 | the report is the header, the sections in order (or the one no-findings line), then the footer, joined with newlines |
| ReportGenerator.PushSection | frontend/src/utils/reportGenerator.js:28-41 | the callback appends exactly one vulnerability's section |
| ReportGenerator.SectionsLength | frontend/src/utils/reportGenerator.js:27-42 | the sections take the sum of their lengths |
| ReportGenerator.LineCount | frontend/src/utils/reportGenerator.js:5-46 | 16 header lines, then 1 line or the sections' lines, then 2 footer lines |
| ReportGenerator.HeaderRows | frontend/src/utils/reportGenerator.js:5-22 | the header shows the time, the task id, file name, project type, status and the vulnerability count |
| ReportGenerator.NoVulnerabilities | frontend/src/utils/reportGenerator.js:24-25 | with no vulnerabilities the report is the header, the no-findings line and the footer, 19 lines |
| ReportGenerator.EndsWithFooter | frontend/src/utils/reportGenerator.js:45-46 | the report always ends with a blank line and the footer |
| ReportGenerator.SectionsPrefix | frontend/src/utils/reportGenerator.js:27-42 | the sections of the first vulnerabilities are a prefix of all sections |
| ReportGenerator.SectionAt | frontend/src/utils/reportGenerator.js:27-42 | the i-th vulnerability's section, headed with number i+1, starts after the header and the earlier sections |

## Left out

- HTTP, FastAPI routing, CORS, startup and shutdown hooks and logging are not modelled. Each endpoint is a method on the store.
- Concurrency is not modelled. A background run and the request handlers run one after another, each as a single step.
- File writes and deletions outside the sandbox are not modelled: the upload's save, `os.remove` in delete, and `cleanup_old_files` / `cleanup_uploaded_files` in `backend/main.py`. Whether the save worked is an input of `Upload`.
- Running bandit and parsing its JSON are not modelled. Bandit's result list is an input.
- FinalApp.AuditStore.RunAudit: does not model the temporary `.py` file that `backend/cyber_audit_final.py:111-113` writes outside the sandbox with `delete=False` for bandit. When `subprocess.run` raises (bandit missing, or the 30-second timeout), the `os.unlink` at line 123 is skipped and the handler at line 141 swallows the exception, so a completed run can leave that file behind. "Files outside the task's sandbox keep their contents" holds for the modelled file system only.
- The LLM engine (`backend/llm_engine.py`) is not part of this model. Its outcome is an input: an item list with a summary, or an exception.
- Error and summary texts are not reproduced character for character. An error is a structured cause, such as a missing file with its path, a failed copy, or the text of an exception. `backend/cyber_audit_final.py` writes its literals in mis-decoded form; the model records the intended cause.
- The stored `static_analysis_output`, `llm_result` and `unique_issues` fields are not modelled. Nothing in the core reads them back.
- JSON values are null, booleans, integers and strings. Lists, nested objects and floats inside an issue are not represented.
- Strings.Lower: maps ASCII letters only, because Python's `str.lower` and JavaScript's case mapping cover all of Unicode.
- Strings.Upper: maps ASCII letters only. JavaScript's `toUpperCase` covers all of Unicode and can lengthen a string (`'ß'` becomes `'SS'`), so "keeps the length" holds for the model, not for every input of the source.
- Strings.LexLeTotal: compares by character code, which matches Python's string order but not locale collation.
- AuditModel.BaseName: does not reproduce every `pathlib` rule, such as trailing slashes or names that are only dots.
- `backend/main_fixed.py` and `backend/main.py` use a sandbox copy and cleanup. There these are inputs (a copy failure), not the file-system model. `backend/cyber_audit_final.py` uses the real `Sandbox.SecureSandbox`.
- `backend/main.py` does not parse as written. The second `run_audit` pasted in at line 203 is not modelled, nor is the `file` key of its bandit issues.
- MainApp.NeverRunning: states what the code does. The first function never writes `running`.
- SeveritySort.SortBySeverity: `list.sort` works in place. The model sorts a value and proves it a stable permutation, so aliasing of the list is not captured.
- Sandbox.SecureSandbox.GetSandboxPath: a task id containing `..` is kept as a literal component, while on disk it names the parent directory, so an id like `../x` escapes the base there but not in the model. An absolute id is modelled: it replaces the base. The backends only pass `uuid4` ids, which are plain names.
- Sandbox.SecureSandbox.Cleanup: for an id containing `..` the model prunes a subtree under the base, where `rmtree` on disk would prune one outside it. Isolation between sandboxes is proved for plain ids only.
- Sandbox.SecureSandbox.Cleanup: a `rmtree` that fails partway, or fails and is logged, is not modelled. Removal either completes or the directory was absent.
- The module-level sandbox helpers (`backend/sandbox.py:103-116`) are not modelled. The backends construct their own `SecureSandbox`.
- The front end's `downloadReport`, the Vue components and the clock are not modelled. `now` is a parameter of `ReportGenerator.GenerateMarkdownReport`.

## Findings

| source | as written | input that shows it | evidently intended | confidence | as-written member | corrected member |
|---|---|---|---|---|---|---|
| frontend/src/utils/vulnTemplates.js:120 | the lookup `map[severity]` with an `or` fallback to info also finds members inherited from Object.prototype | `getSeverityType('toString')` returns the function `Object.prototype.toString` | any severity outside the four keys displays as info | not executed; follows from JavaScript property lookup | VulnTemplates.ToStringIsNotAStyle | VulnTemplates.GetSeverityType |
| frontend/src/utils/vulnTemplates.js:104 | the lookup `VULN_TEMPLATES[type]` with an `or` fallback to the default also finds members inherited from Object.prototype | `getVulnTemplate('constructor')` returns the `Object` constructor, not a template | any unknown type gets the default template | not executed; follows from JavaScript property lookup | VulnTemplates.ConstructorIsNotATemplate | VulnTemplates.GetVulnTemplate |
