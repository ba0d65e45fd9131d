// backend/main_fixed.py: the in-memory `audit_tasks` store, the upload
// endpoint that creates a pending record, the background `run_audit` that
// drives a record through running to completed or failed, and the delete
// endpoint.
module MainFixed {
  import opened Wrappers
  import opened Strings
  import opened PyValues
  import opened AuditModel

  const AllowedExtensions: seq<string> := [".py", ".java", ".js", ".ts", ".c", ".cpp", ".go", ".php"]

  /** The message stored as the summary of a freshly uploaded record. */
  const WaitingSummary: string := "等待分析"

  // ---------------------------------------------------------------------
  // Static issues

  /** One bandit result mapped to an issue record; None when its severity is
      not a string, where `.lower()` raises. */
  function BanditIssue(res: Dict): (r: Option<Dict>)
    ensures r.Some? <==> Get(res, "issue_severity", Str("medium")).Str?
    ensures r.Some? ==>
      r.value.Keys == {"tool", "severity", "confidence", "category", "line", "description", "suggestion"} &&
      r.value["tool"] == Str("bandit") &&
      r.value["severity"] == Str(Lower(Get(res, "issue_severity", Str("medium")).s)) &&
      ("issue_severity" !in res ==> r.value["severity"] == Str("medium")) &&
      r.value["category"] == Get(res, "test_name", Str("Unknown")) &&
      r.value["line"] == Get(res, "line_number", Int(0))
  {
    var sev := Get(res, "issue_severity", Str("medium"));
    if !sev.Str? then None
    else
      Some(map["tool" := Str("bandit"),
               "severity" := Str(Lower(sev.s)),
               "confidence" := Get(res, "issue_confidence", Str("medium")),
               "category" := Get(res, "test_name", Str("Unknown")),
               "line" := Get(res, "line_number", Int(0)),
               "description" := Get(res, "issue_text", Str("")),
               "suggestion" := Get(res, "more_info", Str(""))])
  }

  /** The static issues a run collects: bandit runs only for Python, and the
      append loop stops at the first result whose mapping raises (the
      exception is caught around the whole loop). */
  function StaticIssues(language: string, bandit: Option<seq<Dict>>): seq<Dict>
  {
    if Lower(language) == "python" && bandit.Some? then MapUntilFailure(BanditIssue, bandit.value) else []
  }

  /** Every static issue is a bandit record with a lower-case severity, in
      the order bandit reported them; non-Python files get none. */
  lemma StaticIssuesShape(language: string, bandit: Option<seq<Dict>>)
    ensures var s := StaticIssues(language, bandit);
      (Lower(language) != "python" || bandit.None? ==> s == []) &&
      (bandit.Some? ==> |s| <= |bandit.value|) &&
      forall k :: 0 <= k < |s| ==>
        BanditIssue(bandit.value[k]) == Some(s[k]) &&
        s[k]["tool"] == Str("bandit") && s[k]["severity"].Str? &&
        forall j :: 0 <= j < |s[k]["severity"].s| ==> !('A' <= s[k]["severity"].s[j] <= 'Z')
  {
  }

  // ---------------------------------------------------------------------
  // Merging

  /** Each issue with `issue["source"] = source` applied. */
  function Tagged(ds: seq<Dict>, source: string): (r: seq<Dict>)
    ensures |r| == |ds|
    ensures forall i :: 0 <= i < |r| ==> r[i].Keys == ds[i].Keys + {"source"} && r[i]["source"] == Str(source)
  {
    seq(|ds|, i requires 0 <= i < |ds| => WithSource(ds[i], source))
  }

  function RecordFields(items: seq<Item>): (r: seq<Dict>)
    requires AllRecords(items)
    ensures |r| == |items| && forall i :: 0 <= i < |r| ==> items[i] == Record(r[i])
  {
    seq(|items|, i requires 0 <= i < |items| => items[i].fields)
  }

  /** `all_issues`: the static issues tagged "static_analysis", then the LLM
      issues tagged "llm_analysis". Tagging an LLM item that is not a dict
      raises, which None stands for. */
  function Merge(staticIssues: seq<Dict>, items: seq<Item>): Option<seq<Dict>>
  {
    if AllRecords(items) then Some(Tagged(staticIssues, StaticSource) + Tagged(RecordFields(items), LlmSource))
    else None
  }

  /** Static issues first, in order, then the LLM issues in order; each keeps
      every field but "source", which names where it came from. */
  lemma MergeLayout(staticIssues: seq<Dict>, items: seq<Item>)
    ensures Merge(staticIssues, items).Some? <==> AllRecords(items)
    ensures Merge(staticIssues, items).Some? ==>
      var all := Merge(staticIssues, items).value;
      |all| == |staticIssues| + |items| &&
      (forall i :: 0 <= i < |staticIssues| ==> all[i] == WithSource(staticIssues[i], StaticSource)) &&
      (forall j :: 0 <= j < |items| ==> all[|staticIssues| + j] == WithSource(items[j].fields, LlmSource))
  {
  }

  /** The two append loops of main_fixed.py:241-252. */
  method MergeIssues(staticIssues: seq<Dict>, items: seq<Item>) returns (r: Option<seq<Dict>>)
    ensures r == Merge(staticIssues, items)
  {
    var all: seq<Dict> := [];
    var i := 0;
    while i < |staticIssues|
      invariant 0 <= i <= |staticIssues|
      invariant all == Tagged(staticIssues[..i], StaticSource)
    {
      all := all + [WithSource(staticIssues[i], StaticSource)];
      i := i + 1;
    }
    assert staticIssues[..i] == staticIssues;
    var j := 0;
    while j < |items|
      invariant 0 <= j <= |items|
      invariant AllRecords(items[..j])
      invariant all == Tagged(staticIssues, StaticSource) + Tagged(RecordFields(items[..j]), LlmSource)
    {
      if items[j].Scalar? {
        return None;
      }
      assert items[..j + 1] == items[..j] + [items[j]];
      all := all + [WithSource(items[j].fields, LlmSource)];
      j := j + 1;
    }
    assert items[..j] == items;
    r := Some(all);
  }

  // ---------------------------------------------------------------------
  // Statistics: `severity_distribution` counts exact matches

  /** `i.get("severity")`. */
  function SeverityValue(d: Dict): Value
  {
    Get(d, "severity", Null)
  }

  /** How many issues have exactly that severity. */
  function CountEqual(issues: seq<Dict>, sev: string): (n: nat)
    ensures n <= |issues|
  {
    if issues == [] then 0
    else CountEqual(issues[..|issues| - 1], sev) +
         (if SeverityValue(issues[|issues| - 1]) == Str(sev) then 1 else 0)
  }

  predicate IsCounted(v: Value)
  {
    v == Str("high") || v == Str("medium") || v == Str("low")
  }

  /** Issues whose severity is none of the three counted names. */
  function CountOther(issues: seq<Dict>): (n: nat)
    ensures n <= |issues|
  {
    if issues == [] then 0
    else CountOther(issues[..|issues| - 1]) +
         (if IsCounted(SeverityValue(issues[|issues| - 1])) then 0 else 1)
  }

  /** `severity_distribution` of main_fixed.py:266-270. */
  function ExactCounts(issues: seq<Dict>): SeverityCounts
  {
    SeverityCounts(CountEqual(issues, "high"), CountEqual(issues, "medium"), CountEqual(issues, "low"))
  }

  /** A single severity value adds one to exactly one of the four tallies. */
  lemma CountedOnce(v: Value)
    ensures (if v == Str("high") then 1 else 0) + (if v == Str("medium") then 1 else 0) +
            (if v == Str("low") then 1 else 0) + (if IsCounted(v) then 0 else 1) == 1
  {
    assert "high" != "medium" && "high" != "low" && "medium" != "low" by {
      assert "high"[0] != "medium"[0] && "high"[0] != "low"[0] && "medium"[0] != "low"[0];
    }
  }

  /** Every issue is counted under at most one name, and one whose severity
      is not exactly "high", "medium" or "low" under none: the three
      counters and the uncounted issues add up to the number of issues. */
  lemma {:induction false} ExactCountsBound(issues: seq<Dict>)
    ensures ExactCounts(issues).Sum() + CountOther(issues) == |issues|
  {
    if issues != [] {
      ExactCountsBound(issues[..|issues| - 1]);
      CountedOnce(SeverityValue(issues[|issues| - 1]));
    }
  }

  // ---------------------------------------------------------------------
  // run_audit

  /** `llm_result.get("issues", [])`: an LLM failure is replaced by a result
      with no issues. */
  function LlmItems(llm: LlmOutcome): seq<Item>
  {
    if llm.LlmOk? then llm.items else []
  }

  /** `llm_result.get("summary", ...)` with the failure summary written in
      place of a raised LLM call. */
  function RunSummary(llm: LlmOutcome, issueCount: nat): string
  {
    match llm
    case LlmRaised(reason) => "LLM 分析失败: " + reason
    case LlmOk(_, Some(s)) => s
    case LlmOk(_, None) => "审计完成，发现 " + NatToString(issueCount) + " 个问题"
  }

  /** The record a run leaves behind, starting from the stored record. */
  function Finished(rec: TaskRecord, filePath: string, language: string, env: Environment): TaskRecord
  {
    if !env.fileExists then
      rec.(status := Failed, error := Error(FileMissing(filePath)))
    else if env.copyFailure.Some? then
      rec.(status := Failed, error := Error(SandboxFailed(env.copyFailure.value)))
    else
      var s := StaticIssues(language, env.bandit);
      var items := LlmItems(env.llm);
      match Merge(s, items)
      case None =>
        rec.(status := Failed, error := Error(Crashed(env.trace)), completionTime := Some(env.now))
      case Some(all) =>
        rec.(status := Completed, issues := all, summary := RunSummary(env.llm, |all|),
             completionTime := Some(env.now),
             statistics := Some(Statistics(|all|, |s|, |items|, ExactCounts(all))))
  }

  /** A run ends completed or failed, and keeps the record's identity. */
  lemma FinishedIsFinal(rec: TaskRecord, filePath: string, language: string, env: Environment)
    ensures var f := Finished(rec, filePath, language, env);
      (f.status == Completed || f.status == Failed) &&
      f.taskId == rec.taskId && f.filename == rec.filename && f.uploadTime == rec.uploadTime
  {
  }

  /** A missing file or a failed sandbox copy fails the task with that
      error, records no issues and sets no completion time. */
  lemma EarlyFailure(rec: TaskRecord, filePath: string, language: string, env: Environment)
    requires !env.fileExists || env.copyFailure.Some?
    ensures var f := Finished(rec, filePath, language, env);
      f.status == Failed &&
      f.error == (if !env.fileExists then Error(FileMissing(filePath))
                  else Error(SandboxFailed(env.copyFailure.value))) &&
      f.issues == rec.issues && f.completionTime == rec.completionTime &&
      f.statistics == rec.statistics
  {
  }

  /** A completed run holds the static issues then the LLM issues, and its
      totals add up. */
  lemma CompletedRun(rec: TaskRecord, filePath: string, language: string, env: Environment)
    requires env.fileExists && env.copyFailure.None? && AllRecords(LlmItems(env.llm))
    ensures var f := Finished(rec, filePath, language, env);
      var s := StaticIssues(language, env.bandit);
      var items := LlmItems(env.llm);
      f.status == Completed && f.completionTime == Some(env.now) && f.error == rec.error &&
      |f.issues| == |s| + |items| &&
      (forall i :: 0 <= i < |s| ==> f.issues[i] == WithSource(s[i], StaticSource)) &&
      (forall j :: 0 <= j < |items| ==> f.issues[|s| + j] == WithSource(items[j].fields, LlmSource)) &&
      f.statistics.Some? &&
      f.statistics.value.totalIssues == f.statistics.value.staticIssues + f.statistics.value.llmIssues &&
      f.statistics.value.totalIssues == |f.issues| &&
      f.statistics.value.severity == ExactCounts(f.issues) &&
      f.statistics.value.severity.Sum() + CountOther(f.issues) == f.statistics.value.totalIssues
  {
    var s := StaticIssues(language, env.bandit);
    MergeLayout(s, LlmItems(env.llm));
    ExactCountsBound(Merge(s, LlmItems(env.llm)).value);
  }

  /** When the LLM call raises, the task still completes, with only the
      static issues and the failure as its summary. */
  lemma LlmFailureKeepsStatic(rec: TaskRecord, filePath: string, language: string, env: Environment)
    requires env.fileExists && env.copyFailure.None? && env.llm.LlmRaised?
    ensures var f := Finished(rec, filePath, language, env);
      f.status == Completed &&
      f.issues == Tagged(StaticIssues(language, env.bandit), StaticSource) &&
      f.statistics.Some? && f.statistics.value.llmIssues == 0 &&
      f.statistics.value.totalIssues == f.statistics.value.staticIssues &&
      f.summary == "LLM 分析失败: " + env.llm.reason
  {
    assert RecordFields([]) == [];
  }

  /** An LLM issue that is not a dict makes the tagging loop raise: the
      task fails with the exception's text and a completion time. */
  lemma ScalarLlmIssueCrashes(rec: TaskRecord, filePath: string, language: string, env: Environment)
    requires env.fileExists && env.copyFailure.None?
    requires exists k :: 0 <= k < |LlmItems(env.llm)| && LlmItems(env.llm)[k].Scalar?
    ensures var f := Finished(rec, filePath, language, env);
      f.status == Failed && f.error == Error(Crashed(env.trace)) &&
      f.completionTime == Some(env.now) && f.issues == rec.issues
  {
  }

  /** The steps of `run_audit` after the record is set running: check the
      file, copy it, collect the bandit issues, merge, and fill in the
      record. */
  method Conclude(rec: TaskRecord, filePath: string, language: string, env: Environment)
    returns (f: TaskRecord)
    ensures f == Finished(rec, filePath, language, env)
  {
    if !env.fileExists {
      return rec.(status := Failed, error := Error(FileMissing(filePath)));
    }
    if env.copyFailure.Some? {
      return rec.(status := Failed, error := Error(SandboxFailed(env.copyFailure.value)));
    }
    var staticIssues: seq<Dict> := [];
    if Lower(language) == "python" && env.bandit.Some? {
      staticIssues := CollectUntilFailure(BanditIssue, env.bandit.value);
    }
    var items := LlmItems(env.llm);
    var merged := MergeIssues(staticIssues, items);
    if merged.None? {
      return rec.(status := Failed, error := Error(Crashed(env.trace)), completionTime := Some(env.now));
    }
    var all := merged.value;
    f := rec.(status := Completed, issues := all, summary := RunSummary(env.llm, |all|),
              completionTime := Some(env.now),
              statistics := Some(Statistics(|all|, |staticIssues|, |items|, ExactCounts(all))));
  }

  // ---------------------------------------------------------------------
  // The store

  class AuditStore {
    var tasks: map<string, TaskRecord>
    /** The keys of `audit_tasks` in the dict's insertion order. */
    var order: seq<string>
    /** Every `task["status"] = ...` write, in order. */
    ghost var statusLog: StatusLog
    const uploadDir: string

    /** Each record sits under its own task id. */
    ghost predicate Valid()
      reads this
    {
      (forall k :: k in tasks ==> tasks[k].taskId == k) && Arrangement(order, tasks)
    }

    constructor (uploadDir: string)
      ensures Valid() && tasks == map[] && order == [] && statusLog == [] && this.uploadDir == uploadDir
    {
      tasks := map[];
      order := [];
      statusLog := [];
      this.uploadDir := uploadDir;
    }

    /** POST /api/audit/upload. The task id (a uuid prefix), the clock and
        the outcome of saving the file (its size, or None when writing
        raises) are inputs. */
    method Upload(filename: string, language: string, taskId: string, now: string, saved: Option<nat>)
      returns (r: UploadResponse)
      requires Valid()
      modifies this
      ensures Valid() && statusLog == old(statusLog)
      ensures !ExtensionAllowed(filename, AllowedExtensions) ==>
                r == Rejected(400, UnsupportedExtension) && tasks == old(tasks) && order == old(order)
      ensures ExtensionAllowed(filename, AllowedExtensions) && saved.None? ==>
                r == Rejected(500, SaveFailed) && tasks == old(tasks) && order == old(order)
      ensures ExtensionAllowed(filename, AllowedExtensions) && saved.Some? ==>
                r == Accepted(taskId, ResultUrl(taskId)) &&
                tasks == old(tasks)[taskId := TaskRecord(taskId, filename, language, Pending, now, saved,
                                                         UploadPath(uploadDir, taskId, filename), [],
                                                         WaitingSummary, NullError, None, None)] &&
                order == Entered(old(order), taskId)
    {
      if !ExtensionAllowed(filename, AllowedExtensions) {
        return Rejected(400, UnsupportedExtension);
      }
      if saved.None? {
        return Rejected(500, SaveFailed);
      }
      var rec := TaskRecord(taskId, filename, language, Pending, now, saved,
                            UploadPath(uploadDir, taskId, filename), [],
                            WaitingSummary, NullError, None, None);
      EnteredArrangement(order, tasks, taskId, rec);
      tasks := tasks[taskId := rec];
      order := Entered(order, taskId);
      r := Accepted(taskId, ResultUrl(taskId));
    }

    /** The background `run_audit`: an unknown id changes nothing; otherwise
        the record is set running first, then to its final state, and no
        other record changes. */
    method RunAudit(taskId: string, filePath: string, language: string, env: Environment)
      requires Valid()
      modifies this
      ensures Valid() && order == old(order)
      ensures taskId !in old(tasks) ==> tasks == old(tasks) && statusLog == old(statusLog)
      ensures taskId in old(tasks) ==>
                var f := Finished(old(tasks)[taskId], filePath, language, env);
                tasks == old(tasks)[taskId := f] &&
                statusLog == old(statusLog) + [(taskId, Running), (taskId, f.status)]
    {
      if taskId !in tasks {
        return;
      }
      ghost var stored := tasks[taskId];
      var rec := tasks[taskId].(status := Running);
      tasks := tasks[taskId := rec];
      statusLog := statusLog + [(taskId, Running)];
      rec := Conclude(rec, filePath, language, env);
      assert rec == Finished(stored, filePath, language, env);
      assert tasks[taskId := rec] == old(tasks)[taskId := rec];
      tasks := tasks[taskId := rec];
      statusLog := statusLog + [(taskId, rec.status)];
    }

    /** GET /api/audit/result/{task_id}: the stored record itself, or None
        for the 404 of an unknown id. */
    function GetResult(taskId: string): (r: Option<TaskRecord>)
      reads this
      ensures r.None? <==> taskId !in tasks
      ensures r.Some? ==> r.value == tasks[taskId]
    {
      if taskId in tasks then Some(tasks[taskId]) else None
    }

    /** GET /api/audit/tasks. */
    method List(limit: int, status: Option<string>) returns (r: TaskList)
      requires Valid()
      ensures r.tasks == SummariesOf(SliceTo(FilterStatus(RecordsOf(SortNewestFirst(order, tasks), tasks), status), limit))
      ensures r.totalTasks == |tasks| && r.returnedTasks == |r.tasks|
      ensures limit >= 0 ==> |r.tasks| <= limit
      ensures status.Some? && status.value != "" ==>
                forall i :: 0 <= i < |r.tasks| ==> r.tasks[i].status == status.value
      ensures forall i :: 0 <= i < |r.tasks| ==>
                |r.tasks[i].summary| <= 100 && exists id :: id in tasks && r.tasks[i] == Summarize(tasks[id])
      ensures forall i, j :: 0 <= i < j < |r.tasks| ==> LexLe(r.tasks[j].uploadTime, r.tasks[i].uploadTime)
    {
      r := ListTasks(tasks, order, limit, status);
    }

    /** DELETE /api/audit/task/{id}: exactly that key leaves the store. */
    method DeleteTask(taskId: string) returns (r: DeleteResponse)
      requires Valid()
      modifies this
      ensures Valid() && statusLog == old(statusLog)
      ensures taskId !in old(tasks) ==> r == NotFound404 && tasks == old(tasks) && order == old(order)
      ensures taskId in old(tasks) ==>
                r == Deleted(taskId) && tasks == old(tasks) - {taskId} && order == Removed(old(order), taskId)
    {
      if taskId !in tasks {
        return NotFound404;
      }
      RemovedArrangement(order, tasks, taskId);
      tasks := tasks - {taskId};
      order := Removed(order, taskId);
      r := Deleted(taskId);
    }

    /** GET /health. */
    function HealthCheck(): (h: HealthReport)
      reads this
      ensures h.totalTasks == |tasks| && h.activeTasks <= h.totalTasks
      ensures h.activeTasks == |set k | k in tasks && tasks[k].status == Running|
    {
      Health(tasks)
    }
  }

  /** Uploading and then running a task leaves a record that started empty:
      a run that fails early still shows no issues. */
  lemma UploadThenEarlyFailureHasNoIssues(rec: TaskRecord, filePath: string, language: string, env: Environment)
    requires rec.issues == [] && rec.completionTime.None?
    requires !env.fileExists || env.copyFailure.Some?
    ensures Finished(rec, filePath, language, env).issues == []
    ensures Finished(rec, filePath, language, env).completionTime.None?
  {
    EarlyFailure(rec, filePath, language, env);
  }
}
