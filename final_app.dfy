// backend/cyber_audit_final.py: the last backend variant. Its `run_audit`
// copies the upload into the task's sandbox and cleans the sandbox up
// afterwards, guards every store update with `task_id in audit_tasks`,
// tags each issue with its source and counts the issues by that tag. The
// upload, list, delete and health endpoints complete it.
module FinalApp {
  import opened Wrappers
  import opened Strings
  import opened PyValues
  import opened AuditModel
  import Sandbox

  const AllowedExtensions: seq<string> := [".py", ".java", ".js", ".ts", ".c", ".cpp", ".go", ".php"]

  /** The summary of a freshly uploaded record. */
  const WaitingSummary: string := "等待分析"

  // ---------------------------------------------------------------------
  // Static issues

  /** One bandit result as an issue, already tagged "static_analysis"; None
      when its severity is not a string, where `.lower()` raises. */
  function BanditIssue(res: Dict): Option<Dict>
  {
    var sev := Get(res, "issue_severity", Str("medium"));
    if !sev.Str? then None
    else
      Some(map["tool" := Str("bandit"),
               "severity" := Str(Lower(sev.s)),
               "category" := Get(res, "test_name", Str("Unknown")),
               "line" := Get(res, "line_number", Int(0)),
               "description" := Get(res, "issue_text", Str("")),
               "source" := Str(StaticSource)])
  }

  /** Bandit runs for Python only; the append loop sits inside the `try`
      that swallows any exception, so it keeps what it appended before the
      first result that raises. */
  function StaticIssues(language: string, bandit: Option<seq<Dict>>): seq<Dict>
  {
    if Lower(language) == "python" && bandit.Some? then MapUntilFailure(BanditIssue, bandit.value) else []
  }

  /** Every static issue is a bandit record tagged "static_analysis" with a
      lower-case string severity, "medium" when bandit gave none; they are
      the first results in bandit's order, and the first result left out
      has a severity that is not a string. */
  lemma StaticIssuesShape(language: string, bandit: Option<seq<Dict>>)
    ensures var s := StaticIssues(language, bandit);
      (Lower(language) != "python" || bandit.None? ==> s == []) &&
      (bandit.Some? ==> |s| <= |bandit.value|) &&
      (Lower(language) == "python" && bandit.Some? && |s| < |bandit.value| ==>
         !Get(bandit.value[|s|], "issue_severity", Str("medium")).Str?) &&
      forall k :: 0 <= k < |s| ==>
        "source" in s[k] && "tool" in s[k] && "severity" in s[k] &&
        s[k]["source"] == Str(StaticSource) && s[k]["tool"] == Str("bandit") &&
        s[k]["severity"].Str? &&
        ("issue_severity" !in bandit.value[k] ==> s[k]["severity"] == Str("medium")) &&
        forall j :: 0 <= j < |s[k]["severity"].s| ==> !('A' <= s[k]["severity"].s[j] <= 'Z')
  {
    if Lower(language) == "python" && bandit.Some? {
      var s := MapUntilFailure(BanditIssue, bandit.value);
      forall k | 0 <= k < |s|
        ensures "source" in s[k] && "tool" in s[k] && "severity" in s[k]
        ensures s[k]["source"] == Str(StaticSource) && s[k]["tool"] == Str("bandit") && s[k]["severity"].Str?
        ensures "issue_severity" !in bandit.value[k] ==> s[k]["severity"] == Str("medium")
        ensures forall j :: 0 <= j < |s[k]["severity"].s| ==> !('A' <= s[k]["severity"].s[j] <= 'Z')
      {
        BanditIssueShape(bandit.value[k], s[k]);
      }
    }
  }

  lemma BanditIssueShape(res: Dict, x: Dict)
    requires BanditIssue(res) == Some(x)
    ensures "source" in x && "tool" in x && "severity" in x
    ensures x["source"] == Str(StaticSource) && x["tool"] == Str("bandit") && x["severity"].Str?
    ensures "issue_severity" !in res ==> x["severity"] == Str("medium")
    ensures forall j :: 0 <= j < |x["severity"].s| ==> !('A' <= x["severity"].s[j] <= 'Z')
  {
  }

  /** Every static issue carries the static_analysis tag. */
  lemma StaticIssuesTagged(language: string, bandit: Option<seq<Dict>>)
    ensures AllTagged(StaticIssues(language, bandit), StaticSource)
  {
    var s := StaticIssues(language, bandit);
    StaticIssuesShape(language, bandit);
    forall i | 0 <= i < |s| ensures Get(s[i], "source", Null) == Str(StaticSource) {
      assert "source" in s[i];
    }
  }

  // ---------------------------------------------------------------------
  // LLM issues

  /** `issue["source"] = "llm_analysis"`: assigning an item of anything but
      a dict raises. */
  function LlmTag(it: Item): Option<Dict>
  {
    if it.Record? then Some(WithSource(it.fields, LlmSource)) else None
  }

  function FailureSummary(reason: string): string
  {
    "LLM 分析失败: " + reason
  }

  /** What the LLM step contributes: the tagged issues it appended and the
      "summary" of the result it leaves (None when that key is missing). */
  datatype LlmStep = LlmStep(appended: seq<Dict>, summary: Option<string>)

  /** A raised `analyze_code` gives no issues and the failure summary. The
      tagging loop shares that `try`: an item that is not a dict stops it,
      the issues already appended stay, and the summary becomes the failure
      text of that exception, `trace`. */
  function LlmPart(llm: LlmOutcome, trace: string): LlmStep
  {
    match llm
    case LlmRaised(reason) => LlmStep([], Some(FailureSummary(reason)))
    case LlmOk(items, summary) =>
      var tagged := MapUntilFailure(LlmTag, items);
      if |tagged| < |items| then LlmStep(tagged, Some(FailureSummary(trace)))
      else LlmStep(tagged, summary)
  }

  /** The appended issues are the LLM's dict items, in order, each tagged
      "llm_analysis", up to the first item that is not a dict; the failure
      summary is shown exactly when the call raised or such an item exists. */
  lemma LlmPartShape(llm: LlmOutcome, trace: string)
    ensures var p := LlmPart(llm, trace);
      (llm.LlmRaised? ==> p.appended == [] && p.summary == Some(FailureSummary(llm.reason))) &&
      (llm.LlmOk? ==>
         |p.appended| <= |llm.items| &&
         (forall k :: 0 <= k < |p.appended| ==>
            llm.items[k].Record? && p.appended[k] == WithSource(llm.items[k].fields, LlmSource)) &&
         (|p.appended| < |llm.items| <==> !AllRecords(llm.items)) &&
         (AllRecords(llm.items) ==> p.summary == llm.summary) &&
         (!AllRecords(llm.items) ==> llm.items[|p.appended|].Scalar? && p.summary == Some(FailureSummary(trace))))
  {
    if llm.LlmOk? && AllRecords(llm.items) {
      assert forall k :: 0 <= k < |llm.items| ==> LlmTag(llm.items[k]).Some?;
    }
  }

  // ---------------------------------------------------------------------
  // Statistics by source tag

  /** `len([i for i in issues if i.get("source") == source])`. */
  function CountSource(issues: seq<Dict>, source: string): (n: nat)
    ensures n <= |issues|
  {
    if issues == [] then 0
    else CountSource(issues[..|issues| - 1], source) +
         (if Get(issues[|issues| - 1], "source", Null) == Str(source) then 1 else 0)
  }

  /** Every issue carries that tag. */
  predicate AllTagged(issues: seq<Dict>, source: string)
  {
    forall i :: 0 <= i < |issues| ==> Get(issues[i], "source", Null) == Str(source)
  }

  /** Counting over issues that all carry one tag: all of them are counted
      under that tag and none under a different one. */
  lemma {:induction false} CountSourceUniform(issues: seq<Dict>, tag: string, source: string)
    requires AllTagged(issues, tag)
    ensures CountSource(issues, source) == if source == tag then |issues| else 0
  {
    if issues != [] {
      CountSourceUniform(issues[..|issues| - 1], tag, source);
    }
  }

  lemma {:induction false} CountSourceAppend(a: seq<Dict>, b: seq<Dict>, source: string)
    ensures CountSource(a + b, source) == CountSource(a, source) + CountSource(b, source)
  {
    if b == [] {
      assert a + b == a;
    } else {
      assert (a + b)[..|a + b| - 1] == a + b[..|b| - 1];
      CountSourceAppend(a, b[..|b| - 1], source);
    }
  }

  /** Static issues followed by LLM issues: the two tag counts are their
      lengths and add up to the total. */
  lemma SourceCountsAddUp(s: seq<Dict>, t: seq<Dict>)
    requires AllTagged(s, StaticSource) && AllTagged(t, LlmSource)
    ensures CountSource(s + t, StaticSource) == |s|
    ensures CountSource(s + t, LlmSource) == |t|
    ensures CountSource(s + t, StaticSource) + CountSource(s + t, LlmSource) == |s + t|
  {
    assert StaticSource != LlmSource by {
      assert StaticSource[0] != LlmSource[0];
    }
    CountSourceAppend(s, t, StaticSource);
    CountSourceAppend(s, t, LlmSource);
    CountSourceUniform(s, StaticSource, StaticSource);
    CountSourceUniform(s, StaticSource, LlmSource);
    CountSourceUniform(t, LlmSource, StaticSource);
    CountSourceUniform(t, LlmSource, LlmSource);
  }

  // ---------------------------------------------------------------------
  // run_audit

  /** What a run that gets past the file read puts in the record. */
  datatype Report = Report(issues: seq<Dict>, summary: string, statistics: Statistics)

  function CompletedSummary(summary: Option<string>, total: nat): string
  {
    if summary.Some? then summary.value else "分析完成，发现 " + NatToString(total) + " 个问题"
  }

  /** Static then LLM issues, the summary, and the statistics; None when a
      severity that is not a string makes the counting loop raise. */
  function Analysis(language: string, env: Environment): Option<Report>
  {
    var llm := LlmPart(env.llm, env.trace);
    var all := StaticIssues(language, env.bandit) + llm.appended;
    match CountLowered(all)
    case None => None
    case Some(counts) =>
      Some(Report(all, CompletedSummary(llm.summary, |all|),
                  Statistics(|all|, CountSource(all, StaticSource), CountSource(all, LlmSource), counts)))
  }

  /** How a run ends: the error it stores, or the report of a completed run. */
  datatype Ending = Failure(cause: Cause) | Success(report: Report)

  /** The end of a run, given whether the upload exists and whether the
      sandbox copy succeeds. A failed copy and an uncaught exception store
      the exception's text, `env.trace`. */
  function Outcome(filePath: string, language: string, found: bool, copied: bool, env: Environment): Ending
  {
    if !found then Failure(FileMissing(filePath))
    else if !copied then Failure(SandboxFailed(env.trace))
    else if !env.readOk then Failure(Crashed(env.trace))
    else match Analysis(language, env)
      case None => Failure(Crashed(env.trace))
      case Some(rep) => Success(rep)
  }

  /** The guarded `audit_tasks[task_id].update(...)` a run ends with: every
      failure of this variant records the error and a completion time. */
  function Settled(rec: TaskRecord, e: Ending, now: string): TaskRecord
  {
    match e
    case Failure(cause) => rec.(status := Failed, error := Error(cause), completionTime := Some(now))
    case Success(rep) =>
      rec.(status := Completed, issues := rep.issues, summary := rep.summary,
           completionTime := Some(now), statistics := Some(rep.statistics))
  }

  /** The final update replaces the status, so the "running" mark it
      follows leaves no trace. */
  lemma SettledOverwritesStatus(rec: TaskRecord, s: Status, e: Ending, now: string)
    ensures Settled(rec.(status := s), e, now) == Settled(rec, e, now)
  {
  }

  /** The record a run leaves behind. */
  function Finished(rec: TaskRecord, filePath: string, language: string, found: bool, copied: bool,
                    env: Environment): TaskRecord
  {
    Settled(rec, Outcome(filePath, language, found, copied, env), env.now)
  }

  /** Whether the run reaches the final update and the sandbox cleanup. */
  predicate Completes(found: bool, copied: bool, language: string, env: Environment)
  {
    found && copied && env.readOk && Analysis(language, env).Some?
  }

  /** The steps after the copy: read the file, analyse it, count. */
  method RunSteps(filePath: string, language: string, copied: bool, env: Environment) returns (e: Ending)
    ensures e == Outcome(filePath, language, true, copied, env)
    ensures e.Success? <==> Completes(true, copied, language, env)
  {
    if !copied {
      return Failure(SandboxFailed(env.trace));
    }
    if !env.readOk {
      return Failure(Crashed(env.trace));
    }
    var rep := Analyze(language, env);
    if rep.None? {
      return Failure(Crashed(env.trace));
    }
    e := Success(rep.value);
  }

  /** A second write to a key hides the first. */
  lemma UpdatedTwice(m: map<string, TaskRecord>, k: string, a: TaskRecord, b: TaskRecord)
    ensures m[k := a][k := b] == m[k := b]
  {
  }

  /** A run ends completed or failed with a completion time, keeps the
      record's identity, and completes exactly when it gets through every
      step. */
  lemma FinishedIsFinal(rec: TaskRecord, filePath: string, language: string, found: bool, copied: bool,
                        env: Environment)
    ensures var f := Finished(rec, filePath, language, found, copied, env);
      (f.status == Completed <==> Completes(found, copied, language, env)) &&
      (f.status == Completed || f.status == Failed) &&
      f.completionTime == Some(env.now) &&
      f.taskId == rec.taskId && f.filename == rec.filename && f.uploadTime == rec.uploadTime
  {
  }

  /** A missing upload fails the task with the path in its error and leaves
      its issues as they were. */
  lemma MissingFileFails(rec: TaskRecord, filePath: string, language: string, copied: bool, env: Environment)
    ensures var f := Finished(rec, filePath, language, false, copied, env);
      f.status == Failed && f.error == Error(FileMissing(filePath)) &&
      f.issues == rec.issues && f.statistics == rec.statistics
  {
  }

  /** A completed run holds the static issues, then the appended LLM issues;
      counting by tag gives their two numbers, which add up to the total,
      and each severity counter is the number of issues with that
      lower-cased severity. */
  lemma CompletedRun(rec: TaskRecord, filePath: string, language: string, found: bool, copied: bool,
                     env: Environment)
    requires Completes(found, copied, language, env)
    ensures var f := Finished(rec, filePath, language, found, copied, env);
      var s := StaticIssues(language, env.bandit);
      var t := LlmPart(env.llm, env.trace).appended;
      f.status == Completed && f.issues == s + t && f.statistics.Some? &&
      f.statistics.value.staticIssues == |s| && f.statistics.value.llmIssues == |t| &&
      f.statistics.value.staticIssues + f.statistics.value.llmIssues == f.statistics.value.totalIssues &&
      f.statistics.value.totalIssues == |f.issues| &&
      f.statistics.value.severity.high == NumberWithSeverity(f.issues, "high") &&
      f.statistics.value.severity.medium == NumberWithSeverity(f.issues, "medium") &&
      f.statistics.value.severity.low == NumberWithSeverity(f.issues, "low")
  {
    var s := StaticIssues(language, env.bandit);
    var t := LlmPart(env.llm, env.trace).appended;
    StaticIssuesShape(language, env.bandit);
    LlmPartShape(env.llm, env.trace);
    StaticIssuesTagged(language, env.bandit);
    forall i | 0 <= i < |t| ensures Get(t[i], "source", Null) == Str(LlmSource) {
      assert t[i] == WithSource(env.llm.items[i].fields, LlmSource);
    }
    SourceCountsAddUp(s, t);
    CountLoweredCounts(s + t);
  }

  /** When the LLM call raises the task still completes, with the static
      issues only and the failure as its summary. */
  lemma LlmFailureKeepsStatic(rec: TaskRecord, filePath: string, language: string, found: bool, copied: bool,
                              env: Environment)
    requires found && copied && env.readOk && env.llm.LlmRaised?
    requires CountLowered(StaticIssues(language, env.bandit)).Some?
    ensures var f := Finished(rec, filePath, language, found, copied, env);
      f.status == Completed && f.issues == StaticIssues(language, env.bandit) &&
      f.summary == FailureSummary(env.llm.reason) &&
      f.statistics.Some? && f.statistics.value.llmIssues == 0
  {
    var s := StaticIssues(language, env.bandit);
    var p := LlmPart(env.llm, env.trace);
    assert p == LlmStep([], Some(FailureSummary(env.llm.reason)));
    AppendEmpty(s);
    var counts := CountLowered(s).value;
    AnalysisIs(language, env, s, counts);
    StaticIssuesTagged(language, env.bandit);
    SourceCountsAddUp(s, []);
    var rep := Report(s, CompletedSummary(p.summary, |s|),
                      Statistics(|s|, CountSource(s, StaticSource), CountSource(s, LlmSource), counts));
    assert rep.summary == FailureSummary(env.llm.reason);
    assert rep.statistics.llmIssues == 0;
    FinishedWith(rec, filePath, language, found, copied, env, rep);
  }

  /** A run that gets through the copy and the file read ends with the
      analysis's report. */
  lemma FinishedWith(rec: TaskRecord, filePath: string, language: string, found: bool, copied: bool,
                     env: Environment, rep: Report)
    requires found && copied && env.readOk && Analysis(language, env) == Some(rep)
    ensures var f := Finished(rec, filePath, language, found, copied, env);
      f.status == Completed && f.issues == rep.issues && f.summary == rep.summary &&
      f.statistics == Some(rep.statistics) && f.completionTime == Some(env.now)
  {
  }

  /** An LLM item that is not a dict does not fail the task: the LLM issues
      before it are kept and the summary reports the failure. */
  lemma ScalarLlmItemTruncates(rec: TaskRecord, filePath: string, language: string, found: bool, copied: bool,
                               env: Environment)
    requires Completes(found, copied, language, env)
    requires env.llm.LlmOk? && !AllRecords(env.llm.items)
    ensures var f := Finished(rec, filePath, language, found, copied, env);
      var t := LlmPart(env.llm, env.trace).appended;
      f.status == Completed && f.summary == FailureSummary(env.trace) &&
      |t| < |env.llm.items| && env.llm.items[|t|].Scalar? &&
      f.issues == StaticIssues(language, env.bandit) + t
  {
    LlmPartShape(env.llm, env.trace);
  }

  /** The LLM step: the tagging loop and its exception handler. */
  method RunLlmStep(llm: LlmOutcome, trace: string) returns (r: LlmStep)
    ensures r == LlmPart(llm, trace)
  {
    if llm.LlmRaised? {
      return LlmStep([], Some(FailureSummary(llm.reason)));
    }
    var tagged := CollectUntilFailure(LlmTag, llm.items);
    if |tagged| < |llm.items| {
      return LlmStep(tagged, Some(FailureSummary(trace)));
    }
    r := LlmStep(tagged, llm.summary);
  }

  lemma AnalysisIs(language: string, env: Environment, all: seq<Dict>, counts: SeverityCounts)
    requires all == StaticIssues(language, env.bandit) + LlmPart(env.llm, env.trace).appended
    requires CountLowered(all) == Some(counts)
    ensures Analysis(language, env) ==
            Some(Report(all, CompletedSummary(LlmPart(env.llm, env.trace).summary, |all|),
                        Statistics(|all|, CountSource(all, StaticSource), CountSource(all, LlmSource), counts)))
  {
  }

  /** Steps 5 to 7 of `run_audit`: the bandit loop, the LLM loop and the
      severity counters. */
  method Analyze(language: string, env: Environment) returns (r: Option<Report>)
    ensures r == Analysis(language, env)
  {
    var issues: seq<Dict> := [];
    if Lower(language) == "python" && env.bandit.Some? {
      issues := CollectUntilFailure(BanditIssue, env.bandit.value);
    }
    var llm := RunLlmStep(env.llm, env.trace);
    issues := issues + llm.appended;
    var counts := CountSeverities(issues);
    if counts.None? {
      return None;
    }
    AnalysisIs(language, env, issues, counts.value);
    r := Some(Report(issues, CompletedSummary(llm.summary, |issues|),
                     Statistics(|issues|, CountSource(issues, StaticSource), CountSource(issues, LlmSource),
                                counts.value)));
  }

  // ---------------------------------------------------------------------
  // The store

  class AuditStore {
    var tasks: map<string, TaskRecord>
    /** The keys of `audit_tasks` in the dict's insertion order. */
    var order: seq<string>
    /** Every `task["status"] = ...` write, in order. */
    ghost var statusLog: StatusLog
    const uploadDir: string
    /** The module-level `sandbox = SecureSandbox()`. */
    const sandbox: Sandbox.SecureSandbox

    /** Each record sits under its own task id, and the file system is well formed. */
    ghost predicate Valid()
      reads this, sandbox.fs
    {
      (forall k :: k in tasks ==> tasks[k].taskId == k) && Arrangement(order, tasks) && sandbox.fs.Valid()
    }

    constructor (uploadDir: string, sandbox: Sandbox.SecureSandbox)
      requires sandbox.fs.Valid()
      ensures Valid() && tasks == map[] && order == [] && statusLog == []
      ensures this.uploadDir == uploadDir && this.sandbox == sandbox
    {
      tasks := map[];
      order := [];
      statusLog := [];
      this.uploadDir := uploadDir;
      this.sandbox := sandbox;
    }

    /** POST /api/audit/upload. The task id, the clock and whether writing
        the file succeeds are inputs; a failed write is an unhandled
        exception, answered with 500. The record has no "error" key. */
    method Upload(filename: string, language: string, taskId: string, now: string, saved: bool)
      returns (r: UploadResponse)
      requires Valid()
      modifies this
      ensures Valid() && statusLog == old(statusLog)
      ensures !ExtensionAllowed(filename, AllowedExtensions) ==>
                r == Rejected(400, UnsupportedExtension) && tasks == old(tasks) && order == old(order)
      ensures ExtensionAllowed(filename, AllowedExtensions) && !saved ==>
                r == Rejected(500, SaveFailed) && tasks == old(tasks) && order == old(order)
      ensures ExtensionAllowed(filename, AllowedExtensions) && saved ==>
                r == Accepted(taskId, ResultUrl(taskId)) &&
                tasks == old(tasks)[taskId := TaskRecord(taskId, filename, language, Pending, now, None,
                                                         UploadPath(uploadDir, taskId, filename), [],
                                                         WaitingSummary, NoErrorKey, None, None)] &&
                order == Entered(old(order), taskId)
    {
      if !ExtensionAllowed(filename, AllowedExtensions) {
        return Rejected(400, UnsupportedExtension);
      }
      if !saved {
        return Rejected(500, SaveFailed);
      }
      var rec := TaskRecord(taskId, filename, language, Pending, now, None,
                            UploadPath(uploadDir, taskId, filename), [],
                            WaitingSummary, NoErrorKey, None, None);
      EnteredArrangement(order, tasks, taskId, rec);
      tasks := tasks[taskId := rec];
      order := Entered(order, taskId);
      r := Accepted(taskId, ResultUrl(taskId));
    }

    /** `if task_id in audit_tasks: audit_tasks[task_id].update(...)`. */
    method Settle(taskId: string, f: TaskRecord)
      requires Valid() && f.taskId == taskId
      modifies this
      ensures Valid() && order == old(order)
      ensures taskId in old(tasks) ==>
                tasks == old(tasks)[taskId := f] && statusLog == old(statusLog) + [(taskId, f.status)]
      ensures taskId !in old(tasks) ==> tasks == old(tasks) && statusLog == old(statusLog)
    {
      if taskId in tasks {
        ReplacedArrangement(order, tasks, taskId, f);
        tasks := tasks[taskId := f];
        statusLog := statusLog + [(taskId, f.status)];
      }
    }

    /** The background `run_audit` on the upload at `src` (the path whose
        text is `filePath`). Whether the upload exists and whether the
        sandbox copy succeeds are read off the file system. The record is
        set running once the file is found; a task removed meanwhile is not
        brought back, but the copy and the cleanup still happen. */
    method RunAudit(taskId: string, filePath: string, src: Sandbox.Path, language: string, env: Environment)
      requires Valid()
      modifies this, sandbox.fs
      ensures Valid() && order == old(order)
      ensures var found := old(sandbox.fs.Exists(src));
        var copied := Sandbox.CopyIntoSucceeds(old(sandbox.fs.dirs), old(sandbox.fs.files),
                                               sandbox.GetSandboxPath(taskId), src);
        taskId in old(tasks) ==>
          var f := Finished(old(tasks)[taskId], filePath, language, found, copied, env);
          tasks == old(tasks)[taskId := f] &&
          statusLog == old(statusLog) + (if found then [(taskId, Running)] else []) + [(taskId, f.status)]
      ensures taskId !in old(tasks) ==> tasks == old(tasks) && statusLog == old(statusLog)
      ensures !old(sandbox.fs.Exists(src)) ==>
                sandbox.fs.dirs == old(sandbox.fs.dirs) && sandbox.fs.files == old(sandbox.fs.files)
      ensures Completes(old(sandbox.fs.Exists(src)),
                        Sandbox.CopyIntoSucceeds(old(sandbox.fs.dirs), old(sandbox.fs.files),
                                                 sandbox.GetSandboxPath(taskId), src),
                        language, env) ==>
                forall q :: Sandbox.Under(q, sandbox.GetSandboxPath(taskId)) && q != [] ==> !sandbox.fs.Exists(q)
      ensures !Sandbox.Absolute(Sandbox.Name(src)) ==>
                Sandbox.FilesKeptOutside(old(sandbox.fs.files), sandbox.fs.files, sandbox.GetSandboxPath(taskId))
      ensures Sandbox.DirsChangedOnlyAt(old(sandbox.fs.dirs), sandbox.fs.dirs, sandbox.GetSandboxPath(taskId))
    {
      var found := sandbox.fs.Exists(src);
      if !found {
        if taskId in tasks {
          Settle(taskId, Settled(tasks[taskId], Failure(FileMissing(filePath)), env.now));
        }
        return;
      }
      if taskId in tasks {
        Settle(taskId, tasks[taskId].(status := Running));
      }
      var dest := sandbox.CopyToSandbox(taskId, src);
      ghost var copiedDirs, copiedFiles := sandbox.fs.dirs, sandbox.fs.files;
      ghost var sp := sandbox.GetSandboxPath(taskId);
      var e := RunSteps(filePath, language, dest.Some?, env);
      if taskId in tasks {
        var f := Settled(tasks[taskId], e, env.now);
        SettledOverwritesStatus(old(tasks)[taskId], Running, e, env.now);
        UpdatedTwice(old(tasks), taskId, tasks[taskId], f);
        Settle(taskId, f);
      }
      if e.Success? {
        sandbox.Cleanup(taskId);
      }
      assert Sandbox.DirsChangedOnlyAt(copiedDirs, sandbox.fs.dirs, sp) && sandbox.fs.dirs <= copiedDirs;
      assert Sandbox.FilesKeptOutside(copiedFiles, sandbox.fs.files, sp);
      Sandbox.KeptOutsideTrans(old(sandbox.fs.dirs), copiedDirs, sandbox.fs.dirs,
                               old(sandbox.fs.files), copiedFiles, sandbox.fs.files, sp);
    }

    /** GET /api/audit/result/{task_id}: the stored record itself, or None
        for the 404 of an unknown id. */
    function GetResult(taskId: string): (r: Option<TaskRecord>)
      reads this
      ensures r.None? <==> taskId !in tasks
      ensures r.Some? ==> r.value == tasks[taskId]
    {
      if taskId in tasks then Some(tasks[taskId]) else None
    }

    /** GET /api/audit/tasks. */
    method List(limit: int, status: Option<string>) returns (r: TaskList)
      requires Valid()
      ensures r.tasks == SummariesOf(SliceTo(FilterStatus(RecordsOf(SortNewestFirst(order, tasks), tasks), status), limit))
      ensures r.totalTasks == |tasks| && r.returnedTasks == |r.tasks|
      ensures limit >= 0 ==> |r.tasks| <= limit
      ensures status.Some? && status.value != "" ==>
                forall i :: 0 <= i < |r.tasks| ==> r.tasks[i].status == status.value
      ensures forall i :: 0 <= i < |r.tasks| ==>
                |r.tasks[i].summary| <= 100 && exists id :: id in tasks && r.tasks[i] == Summarize(tasks[id])
      ensures forall i, j :: 0 <= i < j < |r.tasks| ==> LexLe(r.tasks[j].uploadTime, r.tasks[i].uploadTime)
    {
      r := ListTasks(tasks, order, limit, status);
    }

    /** DELETE /api/audit/task/{task_id}: 404 for an unknown id; otherwise
        the task's sandbox is removed (a failure is swallowed) and exactly
        that key leaves the store. */
    method DeleteTask(taskId: string) returns (r: DeleteResponse)
      requires Valid()
      modifies this, sandbox.fs
      ensures Valid() && statusLog == old(statusLog)
      ensures taskId !in old(tasks) ==>
                r == NotFound404 && tasks == old(tasks) && order == old(order) &&
                sandbox.fs.dirs == old(sandbox.fs.dirs) && sandbox.fs.files == old(sandbox.fs.files)
      ensures taskId in old(tasks) ==>
                r == Deleted(taskId) && tasks == old(tasks) - {taskId} && order == Removed(old(order), taskId)
      ensures taskId in old(tasks) ==>
                var p := sandbox.GetSandboxPath(taskId);
                if old(p in sandbox.fs.dirs) then
                  sandbox.fs.dirs == Sandbox.PruneDirs(old(sandbox.fs.dirs), p) &&
                  sandbox.fs.files == Sandbox.PruneFiles(old(sandbox.fs.files), p)
                else sandbox.fs.dirs == old(sandbox.fs.dirs) && sandbox.fs.files == old(sandbox.fs.files)
    {
      if taskId !in tasks {
        return NotFound404;
      }
      sandbox.Cleanup(taskId);
      RemovedArrangement(order, tasks, taskId);
      tasks := tasks - {taskId};
      order := Removed(order, taskId);
      r := Deleted(taskId);
    }

    /** GET /health. */
    function HealthCheck(): (h: HealthReport)
      reads this
      ensures h.totalTasks == |tasks| && h.activeTasks <= h.totalTasks
      ensures h.activeTasks == |set k | k in tasks && tasks[k].status == Running|
    {
      Health(tasks)
    }
  }
}
