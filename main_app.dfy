// backend/main.py: the upload allow-lists, the merge of static and LLM
// findings with its duplicate check, the stable sort by severity, the
// severity statistics, and the result, list, delete and health endpoints.
//
// main.py is not well-formed Python: a second `run_audit` is spliced into
// the first at line 203, and the first one's remaining steps resume at line
// 274. The run modelled here is the one those lines spell out: the
// missing-file check of 73-79, the copy and analysis of 91-195, the merge of
// 198-323 and the handler of 342-348.
module MainApp {
  import opened Wrappers
  import opened Strings
  import opened PyValues
  import opened AuditModel
  import MainFixed
  import opened SeveritySort

  const AllowedExtensions: seq<string> :=
    [".py", ".java", ".js", ".ts", ".c", ".cpp", ".go", ".php", ".rb", ".cs"]
  const SupportedLanguages: seq<string> :=
    ["python", "java", "javascript", "typescript", "c", "cpp", "go", "php", "ruby", "csharp"]

  const WaitingSummary: string := "等待分析"

  // ---------------------------------------------------------------------
  // Tagging

  /** `issue["source"] = source; issue["analysis_tool"] = tool`. */
  function Tag(d: Dict, source: string, tool: string): (r: Dict)
    ensures r.Keys == d.Keys + {"source", "analysis_tool"}
    ensures r["source"] == Str(source) && r["analysis_tool"] == Str(tool)
    ensures forall k :: k in d && k != "source" && k != "analysis_tool" ==> r[k] == d[k]
  {
    d["source" := Str(source)]["analysis_tool" := Str(tool)]
  }

  function TagLlm(d: Dict): Dict
  {
    Tag(d, LlmSource, "openai")
  }

  /** The static issues as the first loop of the merge leaves them. */
  function TagStatic(ds: seq<Dict>): (r: seq<Dict>)
    ensures |r| == |ds| && forall i :: 0 <= i < |r| ==> r[i] == Tag(ds[i], StaticSource, "bandit")
  {
    seq(|ds|, i requires 0 <= i < |ds| => Tag(ds[i], StaticSource, "bandit"))
  }

  // ---------------------------------------------------------------------
  // The duplicate check of main.py:279-285

  /** `d.get("description", "")[:50]`; slicing a non-string raises. */
  function Desc50(d: Dict): Option<string>
  {
    match Get(d, "description", Str(""))
    case Str(s) => Some(Take(s, 50))
    case _ => None
  }

  /** Whether `existing` duplicates `issue`: the same "line" (Python `==`)
      and the same first 50 characters of "description". The descriptions
      are sliced only when the lines agree, the existing one first. */
  function SameFinding(existing: Dict, issue: Dict): Option<bool>
  {
    if !PyEq(Get(existing, "line", Null), Get(issue, "line", Null)) then Some(false)
    else match Desc50(existing)
      case None => None
      case Some(a) =>
        match Desc50(issue)
        case None => None
        case Some(b) => Some(a == b)
  }

  /** The inner loop with its `is_duplicate` flag and `break`. */
  function FindDuplicate(existing: seq<Dict>, issue: Dict): Option<bool>
  {
    if existing == [] then Some(false)
    else match SameFinding(existing[0], issue)
      case None => None
      case Some(true) => Some(true)
      case Some(false) => FindDuplicate(existing[1..], issue)
  }

  /** No duplicate is found exactly when every merged issue is a different
      finding, and a duplicate found is one of them. */
  lemma {:induction false} FindDuplicateMeans(existing: seq<Dict>, issue: Dict)
    ensures FindDuplicate(existing, issue) == Some(false) <==>
            forall i :: 0 <= i < |existing| ==> SameFinding(existing[i], issue) == Some(false)
    ensures FindDuplicate(existing, issue) == Some(true) ==>
            exists i :: 0 <= i < |existing| && SameFinding(existing[i], issue) == Some(true)
  {
    if existing != [] {
      FindDuplicateMeans(existing[1..], issue);
      if SameFinding(existing[0], issue) == Some(false) {
        if FindDuplicate(existing, issue) == Some(true) {
          var i :| 0 <= i < |existing[1..]| && SameFinding(existing[1..][i], issue) == Some(true);
          assert existing[i + 1] == existing[1..][i];
        }
        if forall i :: 0 <= i < |existing| ==> SameFinding(existing[i], issue) == Some(false) {
          assert forall i :: 0 <= i < |existing[1..]| ==> existing[1..][i] == existing[i + 1];
        }
      }
    }
  }

  /** Tagging an issue changes neither its line nor its description. */
  lemma SameFindingTagged(existing: Dict, d: Dict)
    ensures SameFinding(existing, TagLlm(d)) == SameFinding(existing, d)
  {
    assert Get(TagLlm(d), "line", Null) == Get(d, "line", Null);
    assert Get(TagLlm(d), "description", Str("")) == Get(d, "description", Str(""));
  }

  /** The LLM loop of main.py:277-291 from a merged list `all`: each LLM
      issue is tagged and appended unless it duplicates an issue merged
      before it. An item that is not a dict raises (None), as does a
      description that cannot be sliced. */
  function AppendNew(all: seq<Dict>, items: seq<Item>): Option<seq<Dict>>
    decreases |items|
  {
    if items == [] then Some(all)
    else match items[0]
      case Scalar(_) => None
      case Record(d) =>
        match FindDuplicate(all, d)
        case None => None
        case Some(true) => AppendNew(all, items[1..])
        case Some(false) => AppendNew(all + [TagLlm(d)], items[1..])
  }

  /** The merged list is at least as long as `all` and gains at most one
      issue per LLM item. */
  lemma {:induction false} AppendNewGrows(all: seq<Dict>, items: seq<Item>)
    ensures AppendNew(all, items).Some? ==> |all| <= |AppendNew(all, items).value| <= |all| + |items|
    decreases |items|
  {
    if items != [] && items[0].Record? {
      var d := items[0].fields;
      if FindDuplicate(all, d) == Some(true) {
        AppendNewGrows(all, items[1..]);
      } else {
        AppendNewGrows(all + [TagLlm(d)], items[1..]);
      }
    }
  }

  /** The merged list keeps `all` as its prefix and appends at most one
      issue per LLM item. */
  lemma {:induction false} AppendNewExtends(all: seq<Dict>, items: seq<Item>)
    requires AppendNew(all, items).Some?
    ensures var r := AppendNew(all, items).value;
      |all| <= |r| <= |all| + |items| && r[..|all|] == all
    decreases |items|
  {
    if items != [] {
      var d := items[0].fields;
      if FindDuplicate(all, d) == Some(true) {
        AppendNewExtends(all, items[1..]);
      } else {
        AppendNewExtends(all + [TagLlm(d)], items[1..]);
        var r := AppendNew(all, items).value;
        assert r[..|all| + 1][..|all|] == r[..|all|];
      }
    }
  }

  /** No appended LLM issue duplicates any issue before it in the merged
      list, static or LLM. */
  lemma {:induction false} AppendNewNoDuplicates(all: seq<Dict>, items: seq<Item>)
    requires AppendNew(all, items).Some?
    ensures var r := AppendNew(all, items).value;
      forall j, i :: |all| <= j < |r| && 0 <= i < j ==> SameFinding(r[i], r[j]) == Some(false)
    decreases |items|
  {
    if items != [] {
      var d := items[0].fields;
      var r := AppendNew(all, items).value;
      if FindDuplicate(all, d) == Some(true) {
        AppendNewNoDuplicates(all, items[1..]);
      } else {
        var next := all + [TagLlm(d)];
        AppendNewNoDuplicates(next, items[1..]);
        AppendNewExtends(next, items[1..]);
        FindDuplicateMeans(all, d);
        assert r[..|next|] == next;
        forall i | 0 <= i < |all| ensures SameFinding(r[i], r[|all|]) == Some(false) {
          assert r[i] == next[i] == all[i];
          assert r[|all|] == TagLlm(d);
          SameFindingTagged(all[i], d);
        }
      }
    }
  }

    /** An LLM finding is covered by a merged list when its tagged copy is in
      the list or some issue there matches it. */
  predicate Covered(r: seq<Dict>, d: Dict)
  {
    TagLlm(d) in r || exists i :: 0 <= i < |r| && SameFinding(r[i], d) == Some(true)
  }

/** Every LLM item is a dict that either was appended or duplicates an
      issue of the merged list. */
  lemma {:induction false} AppendNewCovers(all: seq<Dict>, items: seq<Item>)
    requires AppendNew(all, items).Some?
    ensures forall k :: 0 <= k < |items| ==>
              items[k].Record? && Covered(AppendNew(all, items).value, items[k].fields)
    decreases |items|
  {
    if items != [] {
      var d := items[0].fields;
      var r := AppendNew(all, items).value;
      var next := if FindDuplicate(all, d) == Some(true) then all else all + [TagLlm(d)];
      assert AppendNew(all, items) == AppendNew(next, items[1..]);
      AppendNewCovers(next, items[1..]);
      AppendNewExtends(next, items[1..]);
      assert r[..|next|] == next;
      if FindDuplicate(all, d) == Some(true) {
        FindDuplicateMeans(all, d);
        var i :| 0 <= i < |all| && SameFinding(all[i], d) == Some(true);
        assert r[i] == all[i];
      } else {
        assert r[|all|] == TagLlm(d);
      }
      assert Covered(r, d);
      forall k | 1 <= k < |items|
        ensures items[k].Record? && Covered(r, items[k].fields)
      {
        assert items[k] == items[1..][k - 1];
      }
    }
  }


  /** The inner duplicate loop. */
  method FindDuplicateLoop(existing: seq<Dict>, issue: Dict) returns (r: Option<bool>)
    ensures r == FindDuplicate(existing, issue)
  {
    var i := 0;
    while i < |existing|
      invariant 0 <= i <= |existing|
      invariant FindDuplicate(existing, issue) == FindDuplicate(existing[i..], issue)
    {
      assert existing[i..][1..] == existing[i + 1..];
      var same := SameFinding(existing[i], issue);
      if same.None? {
        return None;
      }
      if same.value {
        return Some(true);
      }
      i := i + 1;
    }
    r := Some(false);
  }

  /** The two merge loops of main.py:198-291: every static issue, then the
      LLM issues that are not duplicates, counted in `llm_issues_count`. */
  method MergeFindings(staticIssues: seq<Dict>, items: seq<Item>)
    returns (all: Option<seq<Dict>>, llmCount: nat)
    ensures all == AppendNew(TagStatic(staticIssues), items)
    ensures all.Some? ==> |all.value| == |staticIssues| + llmCount
  {
    var merged: seq<Dict> := [];
    var i := 0;
    while i < |staticIssues|
      invariant 0 <= i <= |staticIssues|
      invariant merged == TagStatic(staticIssues[..i])
    {
      merged := merged + [Tag(staticIssues[i], StaticSource, "bandit")];
      i := i + 1;
    }
    assert staticIssues[..i] == staticIssues;
    llmCount := 0;
    var j := 0;
    while j < |items|
      invariant 0 <= j <= |items|
      invariant |merged| == |staticIssues| + llmCount
      invariant AppendNew(TagStatic(staticIssues), items) == AppendNew(merged, items[j..])
    {
      assert items[j..][1..] == items[j + 1..];
      if items[j].Scalar? {
        return None, llmCount;
      }
      var dup := FindDuplicateLoop(merged, items[j].fields);
      if dup.None? {
        return None, llmCount;
      }
      if !dup.value {
        merged := merged + [TagLlm(items[j].fields)];
        llmCount := llmCount + 1;
      }
      j := j + 1;
    }
    all := Some(merged);
  }

  // ---------------------------------------------------------------------
  // run_audit

  /** An uncaught exception: main.py:344-348. */
  function Crash(rec: TaskRecord, text: string, now: string): TaskRecord
  {
    rec.(status := Failed, error := Error(Crashed(text)), completionTime := Some(now))
  }

  function RunSummary(summary: Option<string>, total: nat): string
  {
    if summary.Some? then summary.value else "审计完成，发现 " + NatToString(total) + " 个安全问题"
  }

  /** The record a run leaves behind; its static issues are the bandit
      records main_fixed.py also builds. */
  function Finished(rec: TaskRecord, filePath: string, language: string, env: Environment): TaskRecord
  {
    if !env.fileExists then rec.(status := Failed, error := Error(FileMissing(filePath)))
    else if env.copyFailure.Some? then Crash(rec, env.copyFailure.value, env.now)
    else if env.llm.LlmRaised? then Crash(rec, env.llm.reason, env.now)
    else
      var s := MainFixed.StaticIssues(language, env.bandit);
      Completion(rec, |s|, Merge(s, env.llm.items), env.llm.summary, env.now, env.trace)
  }

  /** The run never marks the task running: it ends completed or failed. */
  lemma NeverRunning(rec: TaskRecord, filePath: string, language: string, env: Environment)
    ensures Finished(rec, filePath, language, env).status in {Completed, Failed}
  {
  }

  /** A completed run's issues are the merged issues sorted by severity, and
      its statistics add up: total = static + LLM issues actually appended,
      and the severity counters never exceed the total. */
  lemma CompletedRun(rec: TaskRecord, filePath: string, language: string, env: Environment)
    requires Finished(rec, filePath, language, env).status == Completed
    ensures var f := Finished(rec, filePath, language, env);
      var s := MainFixed.StaticIssues(language, env.bandit);
      var all := AppendNew(TagStatic(s), env.llm.items);
      env.llm.LlmOk? && all.Some? && f.statistics.Some? && |s| <= |all.value| &&
      f.issues == SortBySeverity(all.value) &&
      multiset(f.issues) == multiset(all.value) && RankOrdered(f.issues) &&
      all.value[..|s|] == TagStatic(s) &&
      f.statistics.value.totalIssues == f.statistics.value.staticIssues + f.statistics.value.llmIssues &&
      f.statistics.value.staticIssues == |s| &&
      f.statistics.value.totalIssues == |f.issues| &&
      f.statistics.value.severity.high == NumberWithSeverity(f.issues, "high") &&
      f.statistics.value.severity.medium == NumberWithSeverity(f.issues, "medium") &&
      f.statistics.value.severity.low == NumberWithSeverity(f.issues, "low") &&
      f.statistics.value.severity.Sum() <= f.statistics.value.totalIssues
  {
    var s := MainFixed.StaticIssues(language, env.bandit);
    var merged := Merge(s, env.llm.items);
    assert env.fileExists && env.copyFailure.None? && env.llm.LlmOk?;
    assert Finished(rec, filePath, language, env) ==
           Completion(rec, |s|, merged, env.llm.summary, env.now, env.trace);
    CompletionSucceeded(rec, |s|, merged, env.llm.summary, env.now, env.trace);
    var all := merged.value;
    assert merged == AppendNew(TagStatic(s), env.llm.items);
    AppendNewExtends(TagStatic(s), env.llm.items);
    var sorted := SortBySeverity(all);
    SortIsPermutation(all);
    SortIsOrdered(all);
    var counts := CountLowered(sorted).value;
    CompletionIsDone(rec, |s|, |all| - |s|, all, env.llm.summary, env.now, env.trace, counts);
    CountLoweredCounts(sorted);
  }

  /** Within each severity rank the static issues come first, in bandit's
      order, followed by the appended LLM issues in theirs. */
  lemma StaticFirstWithinRank(rec: TaskRecord, filePath: string, language: string, env: Environment, k: nat)
    requires Finished(rec, filePath, language, env).status == Completed
    ensures var f := Finished(rec, filePath, language, env);
      var s := TagStatic(MainFixed.StaticIssues(language, env.bandit));
      var merged := AppendNew(s, env.llm.items);
      merged.Some? && |s| <= |merged.value| &&
      Bucket(f.issues, k) == Bucket(s, k) + Bucket(merged.value[|s|..], k)
  {
    var st := MainFixed.StaticIssues(language, env.bandit);
    var s := TagStatic(st);
    CompletedRun(rec, filePath, language, env);
    var all := AppendNew(s, env.llm.items).value;
    AppendNewExtends(s, env.llm.items);
    var rest := all[|s|..];
    SplitAt(all, |s|);
    assert Finished(rec, filePath, language, env).issues == SortBySeverity(all);
    SortIsStable(all, k);
    BucketAppend(s, rest, k);
  }

  // ---------------------------------------------------------------------
  // GET /api/audit/result/{task_id}

  /** The ten keys the endpoint copies out of a task: `file_path` and
      `file_size` are not among them. A missing "error" key reads as None;
      "statistics" and "completion_time" keep their absence (`{}` and None). */
  datatype ResultView = ResultView(
    taskId: string,
    filename: string,
    language: string,
    status: Status,
    uploadTime: string,
    completionTime: Option<string>,
    summary: string,
    statistics: Option<Statistics>,
    issues: seq<Dict>,
    error: ErrorField)

  /** `task.get("error")`: a missing key reads as None. */
  function GotError(e: ErrorField): ErrorField
  {
    if e.NoErrorKey? then NullError else e
  }

  function View(t: TaskRecord): ResultView
  {
    ResultView(t.taskId, t.filename, t.language, t.status, t.uploadTime,
               t.completionTime, t.summary, t.statistics, t.issues, GotError(t.error))
  }

  /** The response is the task's ten copied keys and nothing else: two tasks
      give the same view exactly when those keys agree, so the stored path
      and size never reach the client. */
  lemma ViewOmitsFile(t: TaskRecord, u: TaskRecord, path: string, size: Option<nat>)
    ensures View(t.(filePath := path, fileSize := size)) == View(t)
    ensures View(t) == View(u) <==>
      t.taskId == u.taskId && t.filename == u.filename && t.language == u.language &&
      t.status == u.status && t.uploadTime == u.uploadTime &&
      t.completionTime == u.completionTime && t.summary == u.summary &&
      t.statistics == u.statistics && t.issues == u.issues &&
      GotError(t.error) == GotError(u.error)
    ensures View(t).error != NoErrorKey
  {
  }

  datatype ResultResponse =
    | ResultNotFound                                      // 404
    | ResultFailed(view: ResultView, error: ErrorField)   // 500, "error" replaced
    | ResultInProgress(view: ResultView)                  // adds progress "running"
    | ResultDone(view: ResultView)
  {
    function StatusCode(): int
    {
      match this
      case ResultNotFound => 404
      case ResultFailed(_, _) => 500
      case _ => 200
    }
  }

  /** `task.get("error", "未知错误")`: only a missing key takes the default. */
  function FailureError(e: ErrorField): ErrorField
  {
    if e.NoErrorKey? then Error(UnknownError) else e
  }

  function ResultFor(tasks: map<string, TaskRecord>, taskId: string): ResultResponse
  {
    if taskId !in tasks then ResultNotFound
    else
      var t := tasks[taskId];
      if t.status == Failed then ResultFailed(View(t), FailureError(t.error))
      else if t.status != Completed then ResultInProgress(View(t))
      else ResultDone(View(t))
  }

  /** The response is decided by the task's state alone: 404 for an unknown
      id, 500 with its error for a failed task, "running" progress for a
      pending or running one, and the plain view once completed; every
      answer but the 404 carries the task's ten-key view. */
  lemma ResultByState(tasks: map<string, TaskRecord>, taskId: string)
    ensures var r := ResultFor(tasks, taskId);
      (r.StatusCode() == 404 <==> taskId !in tasks) &&
      (r.StatusCode() == 500 <==> taskId in tasks && tasks[taskId].status == Failed) &&
      (r.ResultInProgress? <==> taskId in tasks && tasks[taskId].status in {Pending, Running}) &&
      (r.ResultDone? <==> taskId in tasks && tasks[taskId].status == Completed) &&
      (r.ResultFailed? ==> r.error != NoErrorKey &&
                           (tasks[taskId].error != NoErrorKey ==> r.error == tasks[taskId].error)) &&
      (r != ResultNotFound ==> r.view == View(tasks[taskId]))
  {
  }

  // ---------------------------------------------------------------------
  // The store

  class AuditStore {
    var tasks: map<string, TaskRecord>
    /** The keys of `audit_tasks` in the dict's insertion order. */
    var order: seq<string>
    ghost var statusLog: StatusLog
    const uploadDir: string

    ghost predicate Valid()
      reads this
    {
      (forall k :: k in tasks ==> tasks[k].taskId == k) && Arrangement(order, tasks)
    }

    constructor (uploadDir: string)
      ensures Valid() && tasks == map[] && order == [] && statusLog == [] && this.uploadDir == uploadDir
    {
      tasks := map[];
      order := [];
      statusLog := [];
      this.uploadDir := uploadDir;
    }

    /** POST /api/audit/upload: the extension is checked before the language. */
    method Upload(filename: string, language: string, taskId: string, now: string, saved: Option<nat>)
      returns (r: UploadResponse)
      requires Valid()
      modifies this
      ensures Valid() && statusLog == old(statusLog)
      ensures !ExtensionAllowed(filename, AllowedExtensions) ==>
                r == Rejected(400, UnsupportedExtension) && tasks == old(tasks) && order == old(order)
      ensures ExtensionAllowed(filename, AllowedExtensions) && Lower(language) !in SupportedLanguages ==>
                r == Rejected(400, UnsupportedLanguage) && tasks == old(tasks) && order == old(order)
      ensures ExtensionAllowed(filename, AllowedExtensions) && Lower(language) in SupportedLanguages && saved.None? ==>
                r == Rejected(500, SaveFailed) && tasks == old(tasks) && order == old(order)
      ensures ExtensionAllowed(filename, AllowedExtensions) && Lower(language) in SupportedLanguages &&
              saved.Some? ==>
                r == Accepted(taskId, ResultUrl(taskId)) &&
                tasks == old(tasks)[taskId := TaskRecord(taskId, filename, language, Pending, now, saved,
                                                         UploadPath(uploadDir, taskId, filename), [],
                                                         WaitingSummary, NullError, None, None)] &&
                order == Entered(old(order), taskId)
    {
      if !ExtensionAllowed(filename, AllowedExtensions) {
        return Rejected(400, UnsupportedExtension);
      }
      if Lower(language) !in SupportedLanguages {
        return Rejected(400, UnsupportedLanguage);
      }
      if saved.None? {
        return Rejected(500, SaveFailed);
      }
      var rec := TaskRecord(taskId, filename, language, Pending, now, saved,
                            UploadPath(uploadDir, taskId, filename), [],
                            WaitingSummary, NullError, None, None);
      EnteredArrangement(order, tasks, taskId, rec);
      tasks := tasks[taskId := rec];
      order := Entered(order, taskId);
      r := Accepted(taskId, ResultUrl(taskId));
    }

    /** The background run: a single status write, completed or failed. */
    method RunAudit(taskId: string, filePath: string, language: string, env: Environment)
      requires Valid()
      modifies this
      ensures Valid() && order == old(order)
      ensures taskId !in old(tasks) ==> tasks == old(tasks) && statusLog == old(statusLog)
      ensures taskId in old(tasks) ==>
                var f := Finished(old(tasks)[taskId], filePath, language, env);
                tasks == old(tasks)[taskId := f] && statusLog == old(statusLog) + [(taskId, f.status)]
    {
      if taskId !in tasks {
        return;
      }
      var f := Conclude(tasks[taskId], filePath, language, env);
      tasks := tasks[taskId := f];
      statusLog := statusLog + [(taskId, f.status)];
    }

    /** GET /api/audit/result/{task_id}. */
    function GetResult(taskId: string): (r: ResultResponse)
      reads this
      ensures r.StatusCode() == 404 <==> taskId !in tasks
      ensures r.StatusCode() == 500 <==> taskId in tasks && tasks[taskId].status == Failed
      ensures r.ResultInProgress? <==> taskId in tasks && tasks[taskId].status in {Pending, Running}
      ensures r != ResultNotFound ==> r.view == View(tasks[taskId])
    {
      ResultByState(tasks, taskId);
      ResultFor(tasks, taskId)
    }

    /** GET /api/audit/tasks. */
    method List(limit: int, status: Option<string>) returns (r: TaskList)
      requires Valid()
      ensures r.tasks == SummariesOf(SliceTo(FilterStatus(RecordsOf(SortNewestFirst(order, tasks), tasks), status), limit))
      ensures r.totalTasks == |tasks| && r.returnedTasks == |r.tasks|
      ensures limit >= 0 ==> |r.tasks| <= limit
      ensures status.Some? && status.value != "" ==>
                forall i :: 0 <= i < |r.tasks| ==> r.tasks[i].status == status.value
      ensures forall i :: 0 <= i < |r.tasks| ==>
                |r.tasks[i].summary| <= 100 && exists id :: id in tasks && r.tasks[i] == Summarize(tasks[id])
      ensures forall i, j :: 0 <= i < j < |r.tasks| ==> LexLe(r.tasks[j].uploadTime, r.tasks[i].uploadTime)
    {
      r := ListTasks(tasks, order, limit, status);
    }

    /** DELETE /api/audit/task/{task_id}. */
    method DeleteTask(taskId: string) returns (r: DeleteResponse)
      requires Valid()
      modifies this
      ensures Valid() && statusLog == old(statusLog)
      ensures taskId !in old(tasks) ==> r == NotFound404 && tasks == old(tasks) && order == old(order)
      ensures taskId in old(tasks) ==>
                r == Deleted(taskId) && tasks == old(tasks) - {taskId} && order == Removed(old(order), taskId)
    {
      if taskId !in tasks {
        return NotFound404;
      }
      RemovedArrangement(order, tasks, taskId);
      tasks := tasks - {taskId};
      order := Removed(order, taskId);
      r := Deleted(taskId);
    }

    /** GET /health. */
    function HealthCheck(): (h: HealthReport)
      reads this
      ensures h.totalTasks == |tasks| && h.activeTasks <= h.totalTasks
      ensures h.activeTasks == |set k | k in tasks && tasks[k].status == Running|
    {
      Health(tasks)
    }
  }

  /** The steps of the run after the record is found. */
  method Conclude(rec: TaskRecord, filePath: string, language: string, env: Environment)
    returns (f: TaskRecord)
    ensures f == Finished(rec, filePath, language, env)
  {
    if !env.fileExists {
      return rec.(status := Failed, error := Error(FileMissing(filePath)));
    }
    if env.copyFailure.Some? {
      return Crash(rec, env.copyFailure.value, env.now);
    }
    if env.llm.LlmRaised? {
      return Crash(rec, env.llm.reason, env.now);
    }
    var staticIssues: seq<Dict> := [];
    if Lower(language) == "python" && env.bandit.Some? {
      staticIssues := CollectUntilFailure(MainFixed.BanditIssue, env.bandit.value);
    }
    f := Complete(rec, staticIssues, env.llm.items, env.llm.summary, env.now, env.trace);
  }

  /** The merge of the static issues, tagged, with the LLM items that
      duplicate none of the issues before them; None when an item is not a
      dict. */
  function Merge(s: seq<Dict>, items: seq<Item>): (r: Option<seq<Dict>>)
    ensures r.Some? ==> |s| <= |r.value| <= |s| + |items|
  {
    AppendNewGrows(TagStatic(s), items);
    AppendNew(TagStatic(s), items)
  }

  /** Sort the merged list and count its severities: the completed record,
      or the crash when the merge or the counting raises. */
  function Completion(rec: TaskRecord, staticCount: nat, merged: Option<seq<Dict>>, summary: Option<string>,
                      now: string, trace: string): TaskRecord
    requires merged.Some? ==> staticCount <= |merged.value|
  {
    if merged.None? then Crash(rec, trace, now)
    else
      var sorted := SortBySeverity(merged.value);
      var counts := CountLowered(sorted);
      if counts.None? then Crash(rec, trace, now)
      else Done(rec, sorted, RunSummary(summary, |sorted|), now,
                Statistics(|sorted|, staticCount, |merged.value| - staticCount, counts.value))
  }

  function Done(rec: TaskRecord, issues: seq<Dict>, summary: string, now: string, stats: Statistics): TaskRecord
  {
    rec.(status := Completed, issues := issues, summary := summary, completionTime := Some(now),
         statistics := Some(stats))
  }

  lemma CompletionIsDone(rec: TaskRecord, staticCount: nat, llmCount: nat, all: seq<Dict>, summary: Option<string>,
                         now: string, trace: string, counts: SeverityCounts)
    requires |all| == staticCount + llmCount
    requires CountLowered(SortBySeverity(all)) == Some(counts)
    ensures Completion(rec, staticCount, Some(all), summary, now, trace) ==
            Done(rec, SortBySeverity(all), RunSummary(summary, |SortBySeverity(all)|), now,
                 Statistics(|SortBySeverity(all)|, staticCount, llmCount, counts))
  {
  }

  /** A completion that completes got through the merge and the counting. */
  lemma CompletionSucceeded(rec: TaskRecord, staticCount: nat, merged: Option<seq<Dict>>, summary: Option<string>,
                            now: string, trace: string)
    requires merged.Some? ==> staticCount <= |merged.value|
    requires Completion(rec, staticCount, merged, summary, now, trace).status == Completed
    ensures merged.Some? && CountLowered(SortBySeverity(merged.value)).Some?
  {
  }

  /** Merge, sort and count: main.py:198-323. */
  method Complete(rec: TaskRecord, staticIssues: seq<Dict>, items: seq<Item>, summary: Option<string>,
                  now: string, trace: string) returns (f: TaskRecord)
    ensures f == Completion(rec, |staticIssues|, Merge(staticIssues, items), summary, now, trace)
  {
    var merged, llmCount := MergeFindings(staticIssues, items);
    assert Merge(staticIssues, items) == merged;
    if merged.None? {
      return Crash(rec, trace, now);
    }
    var all := merged.value;
    var counts := CountSeverities(SortBySeverity(all));
    if counts.None? {
      return Crash(rec, trace, now);
    }
    CompletionIsDone(rec, |staticIssues|, llmCount, all, summary, now, trace, counts.value);
    assert Merge(staticIssues, items) == Some(all);
    f := Done(rec, SortBySeverity(all), RunSummary(summary, |SortBySeverity(all)|), now,
              Statistics(|SortBySeverity(all)|, |staticIssues|, llmCount, counts.value));
    assert f == Completion(rec, |staticIssues|, Some(all), summary, now, trace);
  }
}
