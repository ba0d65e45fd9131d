// What the three backend variants (main_fixed.py, main.py and
// cyber_audit_final.py) share: the task record kept in the in-memory
// `audit_tasks` dictionary, the upload file-name checks, the task-list and
// health views, and the counting and collecting loops they all run.
module AuditModel {
  import opened Wrappers
  import opened Strings
  import opened PyValues

  // ---------------------------------------------------------------------
  // Task records

  datatype Status = Pending | Running | Completed | Failed
  {
    /** The text stored under the record's "status" key. */
    function Name(): string
    {
      match this
      case Pending => "pending"
      case Running => "running"
      case Completed => "completed"
      case Failed => "failed"
    }
  }

  /** Why a task failed; each case stands for the message text the source
      stores under "error". */
  datatype Cause =
    | FileMissing(path: string)        // "文件不存在: {file_path}"
    | SandboxFailed(reason: string)    // "沙箱操作失败: {e}"
    | Crashed(trace: string)           // str(e) and the traceback of an uncaught exception
    | UnknownError                     // the "未知错误" default of main.py's result view

  /** The "error" key of a record: absent, None, or a message. */
  datatype ErrorField = NoErrorKey | NullError | Error(cause: Cause)

  datatype SeverityCounts = SeverityCounts(high: nat, medium: nat, low: nat)
  {
    function Sum(): nat { high + medium + low }
  }

  /** The "statistics" entry of a completed record. */
  datatype Statistics = Statistics(totalIssues: nat, staticIssues: nat, llmIssues: nat,
                                   severity: SeverityCounts)

  datatype TaskRecord = TaskRecord(
    taskId: string,
    filename: string,
    language: string,
    status: Status,
    uploadTime: string,
    fileSize: Option<nat>,
    filePath: string,
    issues: seq<Dict>,
    summary: string,
    error: ErrorField,
    completionTime: Option<string>,
    statistics: Option<Statistics>)

  /** What the LLM engine's `analyze_code` produced: its "issues" list (an
      absent key reads as []) and "summary" key, or the text of the
      exception it raised. */
  datatype LlmOutcome = LlmOk(items: seq<Item>, summary: Option<string>) | LlmRaised(reason: string)

  /** What the steps of `run_audit` that leave the process report: whether
      the uploaded file exists, the text of a failed sandbox copy, the
      parsed bandit "results" list (None when bandit is unavailable, times
      out, prints nothing or prints something that is not JSON with a
      "results" key), whether reading the source succeeds, the LLM outcome,
      the clock, and the text of an uncaught exception. */
  datatype Environment = Environment(
    fileExists: bool,
    copyFailure: Option<string>,
    bandit: Option<seq<Dict>>,
    readOk: bool,
    llm: LlmOutcome,
    now: string,
    trace: string)

  const StaticSource: string := "static_analysis"
  const LlmSource: string := "llm_analysis"

  /** Status of every record mutated by a run, in order: the model's record
      of the `task["status"] = ...` assignments. */
  type StatusLog = seq<(string, Status)>

  // ---------------------------------------------------------------------
  // Upload checks and the record an upload creates

  datatype Rejection = UnsupportedExtension | UnsupportedLanguage | SaveFailed

  datatype UploadResponse =
    | Accepted(taskId: string, resultUrl: string)
    | Rejected(statusCode: int, reason: Rejection)

  function ResultUrl(taskId: string): string
  {
    "/api/audit/result/" + taskId
  }

  /** `UPLOAD_DIR / f"{task_id}_{file.filename}"` as a string. */
  function UploadPath(uploadDir: string, taskId: string, filename: string): string
  {
    uploadDir + "/" + taskId + "_" + filename
  }

  /** Index of the last occurrence of c in s. */
  function LastIndexOf(s: string, c: char): (r: Option<nat>)
    ensures r.Some? ==> r.value < |s| && s[r.value] == c &&
                        forall j :: r.value < j < |s| ==> s[j] != c
    ensures r.None? ==> forall j :: 0 <= j < |s| ==> s[j] != c
  {
    if s == [] then None
    else if s[|s| - 1] == c then Some(|s| - 1)
    else LastIndexOf(s[..|s| - 1], c)
  }

  /** `Path(p).name`: the text after the last '/'. */
  function BaseName(p: string): (r: string)
    ensures EndsWith(p, r) && '/' !in r
  {
    match LastIndexOf(p, '/')
    case None => p
    case Some(i) => p[i + 1..]
  }

  /** `Path(p).suffix`: from the last '.' of the name, provided that dot is
      neither the name's first nor its last character. */
  function Suffix(p: string): string
  {
    var name := BaseName(p);
    match LastIndexOf(name, '.')
    case None => ""
    case Some(i) => if 0 < i < |name| - 1 then name[i..] else ""
  }

  /** A non-empty suffix is a dot followed by at least one character that is
      neither a dot nor a separator, and the file name ends with it. */
  lemma SuffixShape(p: string)
    ensures var x := Suffix(p);
      x == [] || (|x| >= 2 && x[0] == '.' && EndsWith(p, x) &&
                  forall j :: 1 <= j < |x| ==> x[j] != '.' && x[j] != '/')
  {
    var name := BaseName(p);
    match LastIndexOf(name, '.')
    case None =>
    case Some(i) =>
      if 0 < i < |name| - 1 {
        var x := name[i..];
        assert EndsWith(name, x);
        EndsWithTrans(p, name, x);
        forall j | 1 <= j < |x| ensures x[j] != '.' && x[j] != '/' {
          assert x[j] == name[i + j];
        }
      }
  }

  /** A stem with no dot, followed by one extension, has that extension as
      its suffix. */
  lemma SuffixOfStemAndExtension(stem: string, ext: string)
    requires stem != [] && '.' !in stem && '/' !in stem
    requires |ext| >= 2 && ext[0] == '.' && '.' !in ext[1..] && '/' !in ext[1..]
    ensures Suffix(stem + ext) == ext
  {
    var p := stem + ext;
    assert '/' !in p by {
      assert forall j :: 0 <= j < |p| ==> p[j] == (if j < |stem| then stem[j] else ext[j - |stem|]);
      forall j | 0 <= j < |p| ensures p[j] != '/' {
        if j > |stem| { assert p[j] == ext[1..][j - |stem| - 1]; }
      }
    }
    assert LastIndexOf(p, '/') == None;
    var i := LastIndexOf(p, '.');
    assert p[|stem|] == '.';
    forall j | |stem| < j < |p| ensures p[j] != '.' {
      assert p[j] == ext[1..][j - |stem| - 1];
    }
    assert i == Some(|stem|);
  }

  /** `Path(filename).suffix.lower() in allowed`. */
  predicate ExtensionAllowed(filename: string, allowed: seq<string>)
  {
    Lower(Suffix(filename)) in allowed
  }

  /** An accepted file name really ends, ignoring case, in an allowed
      extension; and any dotless stem with an allowed extension, in any
      case, is accepted. */
  lemma ExtensionAllowedMeansEnding(filename: string, allowed: seq<string>)
    requires ExtensionAllowed(filename, allowed)
    requires "" !in allowed
    ensures exists e :: e in allowed && EndsWith(Lower(filename), e)
  {
    var x := Suffix(filename);
    SuffixShape(filename);
    var pre := filename[..|filename| - |x|];
    assert filename == pre + x;
    LowerAppend(pre, x);
    assert Lower(filename)[|Lower(filename)| - |x|..] == Lower(x);
  }

  lemma StemWithAllowedExtensionAccepted(stem: string, ext: string, allowed: seq<string>)
    requires stem != [] && '.' !in stem && '/' !in stem
    requires |ext| >= 2 && ext[0] == '.' && '.' !in ext[1..] && '/' !in ext[1..]
    requires Lower(ext) in allowed
    ensures ExtensionAllowed(stem + ext, allowed)
  {
    SuffixOfStemAndExtension(stem, ext);
  }

  // ---------------------------------------------------------------------
  // Collecting mapped results until the first one that raises

  /** The list an append loop inside `try` holds when the loop stops at the
      first element whose mapping raises. */
  function MapUntilFailure<A, B>(f: A -> Option<B>, xs: seq<A>): (r: seq<B>)
    ensures |r| <= |xs|
    ensures forall k :: 0 <= k < |r| ==> f(xs[k]) == Some(r[k])
    ensures |r| < |xs| ==> f(xs[|r|]).None?
  {
    if xs == [] then []
    else match f(xs[0])
      case None => []
      case Some(y) => [y] + MapUntilFailure(f, xs[1..])
  }

  method CollectUntilFailure<A, B>(f: A -> Option<B>, xs: seq<A>) returns (r: seq<B>)
    ensures r == MapUntilFailure(f, xs)
  {
    r := [];
    var i := 0;
    while i < |xs|
      invariant 0 <= i <= |xs| && |r| == i
      invariant MapUntilFailure(f, xs) == r + MapUntilFailure(f, xs[i..])
    {
      assert xs[i..][0] == xs[i] && xs[i..][1..] == xs[i + 1..];
      match f(xs[i])
      case None =>
        assert MapUntilFailure(f, xs[i..]) == [];
        assert r + [] == r;
        return;
      case Some(y) =>
        var rest := MapUntilFailure(f, xs[i + 1..]);
        assert MapUntilFailure(f, xs[i..]) == [y] + rest;
        assert r + ([y] + rest) == (r + [y]) + rest;
        r := r + [y];
        i := i + 1;
    }
    assert MapUntilFailure(f, xs[i..]) == [];
    assert r + [] == r;
  }

  // ---------------------------------------------------------------------
  // The severity counters of main.py (298-302) and cyber_audit_final.py
  // (166-170): `issue.get("severity", "low").lower()` counted when it is
  // high, medium or low; `.lower()` on a non-string raises.

  function SeverityOf(d: Dict): Option<string>
  {
    var v := Get(d, "severity", Str("low"));
    if v.Str? then Some(Lower(v.s)) else None
  }

  function Bump(c: SeverityCounts, sev: string): (r: SeverityCounts)
    ensures r.Sum() == c.Sum() + (if sev in {"high", "medium", "low"} then 1 else 0)
  {
    if sev == "high" then c.(high := c.high + 1)
    else if sev == "medium" then c.(medium := c.medium + 1)
    else if sev == "low" then c.(low := c.low + 1)
    else c
  }

  function CountLowered(issues: seq<Dict>): (r: Option<SeverityCounts>)
    ensures r.Some? ==> r.value.Sum() <= |issues|
  {
    if issues == [] then Some(SeverityCounts(0, 0, 0))
    else
      var last := issues[|issues| - 1];
      match CountLowered(issues[..|issues| - 1])
      case None => None
      case Some(c) =>
        match SeverityOf(last)
        case None => None
        case Some(s) => Some(Bump(c, s))
  }

  /** Counting raises exactly when some issue's severity is not a string. */
  lemma {:induction false} CountLoweredRaises(issues: seq<Dict>)
    ensures CountLowered(issues).None? <==> exists k :: 0 <= k < |issues| && SeverityOf(issues[k]).None?
  {
    if issues != [] {
      var init := issues[..|issues| - 1];
      CountLoweredRaises(init);
      if CountLowered(init).None? {
        var k :| 0 <= k < |init| && SeverityOf(init[k]).None?;
        assert issues[k] == init[k];
      } else if SeverityOf(issues[|issues| - 1]).Some? {
        forall k | 0 <= k < |issues| ensures SeverityOf(issues[k]).Some? {
          if k < |init| {
            assert issues[k] == init[k];
          }
        }
      }
    }
  }

  /** Each counter is the number of issues whose lower-cased severity (a
      missing one read as "low") is that name. */
  lemma {:induction false} CountLoweredCounts(issues: seq<Dict>)
    requires CountLowered(issues).Some?
    ensures CountLowered(issues).value.high == NumberWithSeverity(issues, "high")
    ensures CountLowered(issues).value.medium == NumberWithSeverity(issues, "medium")
    ensures CountLowered(issues).value.low == NumberWithSeverity(issues, "low")
  {
    if issues != [] {
      CountLoweredCounts(issues[..|issues| - 1]);
    }
  }

  function NumberWithSeverity(issues: seq<Dict>, sev: string): nat
  {
    if issues == [] then 0
    else NumberWithSeverity(issues[..|issues| - 1], sev) +
         (if SeverityOf(issues[|issues| - 1]) == Some(sev) then 1 else 0)
  }

  method CountSeverities(issues: seq<Dict>) returns (r: Option<SeverityCounts>)
    ensures r == CountLowered(issues)
  {
    var stats := SeverityCounts(0, 0, 0);
    var i := 0;
    while i < |issues|
      invariant 0 <= i <= |issues|
      invariant CountLowered(issues[..i]) == Some(stats)
    {
      match SeverityOf(issues[i])
      case None =>
        assert 0 <= i < |issues| && SeverityOf(issues[i]).None?;
        CountLoweredRaises(issues);
        return None;
      case Some(sev) =>
        ghost var prefix := issues[..i + 1];
        assert prefix[..i] == issues[..i] && prefix[i] == issues[i];
        assert CountLowered(prefix) == Some(Bump(stats, sev));
        stats := Bump(stats, sev);
        i := i + 1;
    }
    assert issues[..i] == issues;
    r := Some(stats);
  }

  // ---------------------------------------------------------------------
  // GET /api/audit/tasks (identical in the three variants)

  datatype TaskSummary = TaskSummary(
    taskId: string,
    filename: string,
    language: string,
    status: string,
    uploadTime: string,
    completionTime: Option<string>,
    issueCount: nat,
    summary: string)

  datatype TaskList = TaskList(totalTasks: nat, returnedTasks: nat, tasks: seq<TaskSummary>)

  function Summarize(t: TaskRecord): TaskSummary
  {
    TaskSummary(t.taskId, t.filename, t.language, t.status.Name(), t.uploadTime,
                t.completionTime, |t.issues|, Take(t.summary, 100))
  }

  /** `ids` lists every key of the store exactly once. */
  predicate Arrangement(ids: seq<string>, tasks: map<string, TaskRecord>)
  {
    (forall i :: 0 <= i < |ids| ==> ids[i] in tasks) &&
    (forall k :: k in tasks ==> k in ids) &&
    Distinct(ids)
  }

  function RecordsOf(ids: seq<string>, tasks: map<string, TaskRecord>): (r: seq<TaskRecord>)
    requires forall i :: 0 <= i < |ids| ==> ids[i] in tasks
    ensures |r| == |ids| && forall i :: 0 <= i < |ids| ==> r[i] == tasks[ids[i]]
  {
    if ids == [] then [] else [tasks[ids[0]]] + RecordsOf(ids[1..], tasks)
  }

  /** Sorted by upload time, newest first. */
  predicate NewestFirst(rs: seq<TaskRecord>)
  {
    forall i, j :: 0 <= i < j < |rs| ==> LexLe(rs[j].uploadTime, rs[i].uploadTime)
  }

  predicate NewestFirstIds(ids: seq<string>, tasks: map<string, TaskRecord>)
    requires forall i :: 0 <= i < |ids| ==> ids[i] in tasks
  {
    forall i, j :: 0 <= i < j < |ids| ==> LexLe(tasks[ids[j]].uploadTime, tasks[ids[i]].uploadTime)
  }

  /** Place k before the first id whose upload is strictly older. */
  function InsertNewest(ids: seq<string>, k: string, tasks: map<string, TaskRecord>): (r: seq<string>)
    requires k in tasks && forall i :: 0 <= i < |ids| ==> ids[i] in tasks
    ensures |r| == |ids| + 1
    ensures forall i :: 0 <= i < |r| ==> r[i] in tasks
  {
    if ids == [] then [k]
    else if LexLe(tasks[k].uploadTime, tasks[ids[0]].uploadTime) then
      [ids[0]] + InsertNewest(ids[1..], k, tasks)
    else [k] + ids
  }

  lemma {:induction false} InsertNewestElements(ids: seq<string>, k: string, tasks: map<string, TaskRecord>)
    requires k in tasks && forall i :: 0 <= i < |ids| ==> ids[i] in tasks
    ensures forall x :: x in InsertNewest(ids, k, tasks) <==> x in ids || x == k
  {
    if ids != [] && LexLe(tasks[k].uploadTime, tasks[ids[0]].uploadTime) {
      InsertNewestElements(ids[1..], k, tasks);
      assert ids == [ids[0]] + ids[1..];
    }
  }

  lemma {:induction false} InsertNewestSorted(ids: seq<string>, k: string, tasks: map<string, TaskRecord>)
    requires k in tasks && forall i :: 0 <= i < |ids| ==> ids[i] in tasks
    requires NewestFirstIds(ids, tasks)
    ensures NewestFirstIds(InsertNewest(ids, k, tasks), tasks)
  {
    var r := InsertNewest(ids, k, tasks);
    if ids == [] {
    } else if LexLe(tasks[k].uploadTime, tasks[ids[0]].uploadTime) {
      var rest := InsertNewest(ids[1..], k, tasks);
      InsertNewestSorted(ids[1..], k, tasks);
      InsertNewestElements(ids[1..], k, tasks);
      var top := tasks[ids[0]].uploadTime;
      forall j | 0 <= j < |rest| ensures LexLe(tasks[rest[j]].uploadTime, top) {
        assert rest[j] in rest;
        if rest[j] != k {
          var m :| 0 <= m < |ids[1..]| && ids[1..][m] == rest[j];
          assert ids[m + 1] == rest[j];
        }
      }
      assert r == [ids[0]] + rest;
    } else {
      var t := tasks[k].uploadTime;
      LexLeTotal(t, tasks[ids[0]].uploadTime);
      forall j | 0 <= j < |ids| ensures LexLe(tasks[ids[j]].uploadTime, t) {
        if j > 0 {
          LexLeTrans(tasks[ids[j]].uploadTime, tasks[ids[0]].uploadTime, t);
        }
      }
      assert r == [k] + ids;
    }
  }

  function KeepStatus(rs: seq<TaskRecord>, status: string): (r: seq<TaskRecord>)
    ensures |r| <= |rs|
    ensures forall i :: 0 <= i < |r| ==> r[i].status.Name() == status && r[i] in rs
  {
    if rs == [] then []
    else (if rs[0].status.Name() == status then [rs[0]] else []) + KeepStatus(rs[1..], status)
  }

  /** `if status: tasks = [t for t in tasks if t.get("status") == status]`. */
  function FilterStatus(rs: seq<TaskRecord>, status: Option<string>): seq<TaskRecord>
  {
    if status.None? || status.value == "" then rs else KeepStatus(rs, status.value)
  }

  lemma {:induction false} KeepStatusNewestFirst(rs: seq<TaskRecord>, status: string)
    requires NewestFirst(rs)
    ensures NewestFirst(KeepStatus(rs, status))
  {
    if rs != [] {
      KeepStatusNewestFirst(rs[1..], status);
      var tail := KeepStatus(rs[1..], status);
      forall j | 0 <= j < |tail| ensures LexLe(tail[j].uploadTime, rs[0].uploadTime) {
        var m :| 0 <= m < |rs[1..]| && rs[1..][m] == tail[j];
        assert rs[m + 1] == tail[j];
      }
    }
  }

  predicate Distinct(ids: seq<string>)
  {
    forall i, j :: 0 <= i < j < |ids| ==> ids[i] != ids[j]
  }

  lemma {:induction false} InsertNewestDistinct(ids: seq<string>, k: string, tasks: map<string, TaskRecord>)
    requires k in tasks && forall i :: 0 <= i < |ids| ==> ids[i] in tasks
    requires Distinct(ids) && k !in ids
    ensures Distinct(InsertNewest(ids, k, tasks))
  {
    if ids != [] && LexLe(tasks[k].uploadTime, tasks[ids[0]].uploadTime) {
      InsertNewestDistinct(ids[1..], k, tasks);
      InsertNewestElements(ids[1..], k, tasks);
      var r := InsertNewest(ids, k, tasks);
      assert r == [ids[0]] + InsertNewest(ids[1..], k, tasks);
      assert ids[0] !in ids[1..];
    }
  }

  // ---------------------------------------------------------------------
  // Insertion order of the task dict

  /** `audit_tasks[task_id] = {...}`: a new key goes to the end of the
      dict's order, an existing key keeps its place. */
  function Entered(order: seq<string>, k: string): (r: seq<string>)
    ensures forall x :: x in r <==> x in order || x == k
    ensures Distinct(order) ==> Distinct(r)
  {
    if k in order then order else order + [k]
  }

  /** `del audit_tasks[task_id]`: the key leaves the order, the others keep
      theirs. */
  function Removed(order: seq<string>, k: string): (r: seq<string>)
    ensures forall x :: x in r <==> x in order && x != k
    ensures Distinct(order) ==> Distinct(r)
  {
    if order == [] then []
    else
      var rest := Removed(order[1..], k);
      assert Distinct(order) ==> order[0] !in order[1..] && Distinct(order[1..]);
      (if order[0] == k then [] else [order[0]]) + rest
  }

  lemma EnteredArrangement(order: seq<string>, tasks: map<string, TaskRecord>, k: string, t: TaskRecord)
    requires Arrangement(order, tasks)
    ensures Arrangement(Entered(order, k), tasks[k := t])
  {
    var r := Entered(order, k);
    forall i | 0 <= i < |r| ensures r[i] in tasks[k := t] {
      assert r[i] in r;
    }
  }

  lemma RemovedArrangement(order: seq<string>, tasks: map<string, TaskRecord>, k: string)
    requires Arrangement(order, tasks)
    ensures Arrangement(Removed(order, k), tasks - {k})
  {
    var r := Removed(order, k);
    forall i | 0 <= i < |r| ensures r[i] in tasks - {k} {
      assert r[i] in r;
      var m :| 0 <= m < |order| && order[m] == r[i];
    }
  }

  /** Overwriting a stored key keeps the dict's order. */
  lemma ReplacedArrangement(order: seq<string>, tasks: map<string, TaskRecord>, k: string, t: TaskRecord)
    requires Arrangement(order, tasks) && k in tasks
    ensures Arrangement(order, tasks[k := t])
  {
  }

  // ---------------------------------------------------------------------
  // Sorting by upload time

  /** `list(audit_tasks.values())` sorted with Python's stable
      `sort(key=upload_time, reverse=True)`, written as insertion of each
      key, in dict order, after every key at least as new. */
  function SortNewestFirst(order: seq<string>, tasks: map<string, TaskRecord>): (r: seq<string>)
    requires forall i :: 0 <= i < |order| ==> order[i] in tasks
    ensures |r| == |order| && forall i :: 0 <= i < |r| ==> r[i] in tasks
    decreases |order|
  {
    if order == [] then []
    else InsertNewest(SortNewestFirst(order[..|order| - 1], tasks), order[|order| - 1], tasks)
  }

  /** The keys of the store uploaded at time `u`, in the order of `ids`. */
  function UploadedAt(ids: seq<string>, u: string, tasks: map<string, TaskRecord>): seq<string>
    requires forall i :: 0 <= i < |ids| ==> ids[i] in tasks
    decreases |ids|
  {
    if ids == [] then []
    else UploadedAt(ids[..|ids| - 1], u, tasks) +
         (if tasks[ids[|ids| - 1]].uploadTime == u then [ids[|ids| - 1]] else [])
  }

  lemma {:induction false} UploadedAtAppend(a: seq<string>, b: seq<string>, u: string, tasks: map<string, TaskRecord>)
    requires forall i :: 0 <= i < |a| ==> a[i] in tasks
    requires forall i :: 0 <= i < |b| ==> b[i] in tasks
    ensures UploadedAt(a + b, u, tasks) == UploadedAt(a, u, tasks) + UploadedAt(b, u, tasks)
    decreases |b|
  {
    if b == [] {
      assert a + b == a;
    } else {
      var b' := b[..|b| - 1];
      assert (a + b)[..|a + b| - 1] == a + b';
      UploadedAtAppend(a, b', u, tasks);
    }
  }

  /** Inserting a key into a newest-first list puts it after every key
      uploaded at the same time. */
  lemma {:induction false} InsertNewestUploadedAt(ids: seq<string>, k: string, u: string,
                                                  tasks: map<string, TaskRecord>)
    requires k in tasks && forall i :: 0 <= i < |ids| ==> ids[i] in tasks
    requires NewestFirstIds(ids, tasks)
    ensures UploadedAt(InsertNewest(ids, k, tasks), u, tasks) == UploadedAt(ids, u, tasks) + UploadedAt([k], u, tasks)
  {
    UploadedAtOne(k, u, tasks);
    if ids == [] {
      assert InsertNewest(ids, k, tasks) == [k];
    } else if LexLe(tasks[k].uploadTime, tasks[ids[0]].uploadTime) {
      var rest := InsertNewest(ids[1..], k, tasks);
      assert InsertNewest(ids, k, tasks) == [ids[0]] + rest;
      InsertNewestUploadedAt(ids[1..], k, u, tasks);
      UploadedAtCons(ids[0], ids[1..], rest, UploadedAt([k], u, tasks), u, tasks);
      assert [ids[0]] + ids[1..] == ids;
    } else {
      assert InsertNewest(ids, k, tasks) == [k] + ids;
      UploadedAtAppend([k], ids, u, tasks);
      if tasks[k].uploadTime == u {
        NoneAsNew(ids, k, tasks);
      }
    }
  }

  lemma UploadedAtCons(x: string, xs: seq<string>, ys: seq<string>, extra: seq<string>, u: string,
                       tasks: map<string, TaskRecord>)
    requires x in tasks && forall i :: 0 <= i < |xs| ==> xs[i] in tasks
    requires forall i :: 0 <= i < |ys| ==> ys[i] in tasks
    requires UploadedAt(ys, u, tasks) == UploadedAt(xs, u, tasks) + extra
    ensures UploadedAt([x] + ys, u, tasks) == UploadedAt([x] + xs, u, tasks) + extra
  {
    UploadedAtAppend([x], ys, u, tasks);
    UploadedAtAppend([x], xs, u, tasks);
    AppendAssoc(UploadedAt([x], u, tasks), UploadedAt(xs, u, tasks), extra);
  }

  /** No key of a newest-first list whose head is older than k was uploaded
      at k's time. */
  lemma NoneAsNew(ids: seq<string>, k: string, tasks: map<string, TaskRecord>)
    requires k in tasks && forall i :: 0 <= i < |ids| ==> ids[i] in tasks
    requires NewestFirstIds(ids, tasks)
    requires ids != [] && !LexLe(tasks[k].uploadTime, tasks[ids[0]].uploadTime)
    ensures UploadedAt(ids, tasks[k].uploadTime, tasks) == []
  {
    var newest := tasks[ids[0]].uploadTime;
    LexLeRefl(newest);
    forall j | 0 <= j < |ids| ensures tasks[ids[j]].uploadTime != tasks[k].uploadTime {
      if j > 0 {
        assert LexLe(tasks[ids[j]].uploadTime, newest);
      }
    }
    UploadedAtNone(ids, tasks[k].uploadTime, tasks);
  }

  lemma {:induction false} UploadedAtNone(ids: seq<string>, u: string, tasks: map<string, TaskRecord>)
    requires forall i :: 0 <= i < |ids| ==> ids[i] in tasks && tasks[ids[i]].uploadTime != u
    ensures UploadedAt(ids, u, tasks) == []
    decreases |ids|
  {
    if ids != [] {
      UploadedAtNone(ids[..|ids| - 1], u, tasks);
    }
  }

  lemma UploadedAtOne(k: string, u: string, tasks: map<string, TaskRecord>)
    requires k in tasks
    ensures UploadedAt([k], u, tasks) == if tasks[k].uploadTime == u then [k] else []
  {
    assert [k][..0] == [];
  }

  lemma {:induction false} SortNewestFirstElements(order: seq<string>, tasks: map<string, TaskRecord>)
    requires forall i :: 0 <= i < |order| ==> order[i] in tasks
    ensures forall x :: x in SortNewestFirst(order, tasks) <==> x in order
    ensures Distinct(order) ==> Distinct(SortNewestFirst(order, tasks))
    decreases |order|
  {
    if order != [] {
      var front, k := order[..|order| - 1], order[|order| - 1];
      SortNewestFirstElements(front, tasks);
      InsertNewestElements(SortNewestFirst(front, tasks), k, tasks);
      assert order == front + [k];
      if Distinct(order) {
        assert Distinct(front);
        InsertNewestDistinct(SortNewestFirst(front, tasks), k, tasks);
      }
    }
  }

  lemma {:induction false} SortNewestFirstSorted(order: seq<string>, tasks: map<string, TaskRecord>)
    requires forall i :: 0 <= i < |order| ==> order[i] in tasks
    ensures NewestFirstIds(SortNewestFirst(order, tasks), tasks)
    decreases |order|
  {
    if order != [] {
      SortNewestFirstSorted(order[..|order| - 1], tasks);
      InsertNewestSorted(SortNewestFirst(order[..|order| - 1], tasks), order[|order| - 1], tasks);
    }
  }

  /** Stability: the keys uploaded at the same time keep their dict order. */
  lemma {:induction false} SortNewestFirstStable(order: seq<string>, u: string, tasks: map<string, TaskRecord>)
    requires forall i :: 0 <= i < |order| ==> order[i] in tasks
    ensures UploadedAt(SortNewestFirst(order, tasks), u, tasks) == UploadedAt(order, u, tasks)
    decreases |order|
  {
    if order != [] {
      var front, k := order[..|order| - 1], order[|order| - 1];
      SortNewestFirstStable(front, u, tasks);
      SortNewestFirstSorted(front, tasks);
      InsertNewestUploadedAt(SortNewestFirst(front, tasks), k, u, tasks);
      assert [k][..0] == [];
    }
  }

  /** The sort of the listing endpoint: every key once, newest first, with
      ties in dict order. */
  method ArrangeNewestFirst(order: seq<string>, tasks: map<string, TaskRecord>) returns (ids: seq<string>)
    requires forall i :: 0 <= i < |order| ==> order[i] in tasks
    ensures ids == SortNewestFirst(order, tasks)
  {
    ids := [];
    var i := 0;
    while i < |order|
      invariant 0 <= i <= |order|
      invariant ids == SortNewestFirst(order[..i], tasks)
    {
      assert order[..i + 1][..i] == order[..i];
      ids := InsertNewest(ids, order[i], tasks);
      i := i + 1;
    }
    assert order[..i] == order;
  }

  /** GET /api/audit/tasks: the newest-first records, the status filter, the
      `[:limit]` slice and the per-task summaries built by an append loop. */
  method ListTasks(tasks: map<string, TaskRecord>, order: seq<string>, limit: int, status: Option<string>)
    returns (r: TaskList)
    requires Arrangement(order, tasks)
    ensures r.tasks == SummariesOf(SliceTo(FilterStatus(RecordsOf(SortNewestFirst(order, tasks), tasks), status), limit))
    ensures r.totalTasks == |tasks| && r.returnedTasks == |r.tasks|
    ensures limit >= 0 ==> |r.tasks| <= limit
    ensures status.Some? && status.value != "" ==>
              forall i :: 0 <= i < |r.tasks| ==> r.tasks[i].status == status.value
    ensures forall i :: 0 <= i < |r.tasks| ==> |r.tasks[i].summary| <= 100
    ensures forall i :: 0 <= i < |r.tasks| ==>
              exists id :: id in tasks && r.tasks[i] == Summarize(tasks[id])
    ensures forall i, j :: 0 <= i < j < |r.tasks| ==> LexLe(r.tasks[j].uploadTime, r.tasks[i].uploadTime)
  {
    var ids := ArrangeNewestFirst(order, tasks);
    SortNewestFirstSorted(order, tasks);
    var shown := SliceTo(FilterStatus(RecordsOf(ids, tasks), status), limit);
    ShownFacts(ids, tasks, status, limit);
    var simplified := SummarizeAll(shown);
    SummariesFacts(shown, tasks, status);
    r := TaskList(|tasks|, |simplified|, simplified);
  }

  /** The loop of `simplified_tasks.append({...})`. */
  method SummarizeAll(shown: seq<TaskRecord>) returns (simplified: seq<TaskSummary>)
    ensures simplified == SummariesOf(shown)
  {
    simplified := [];
    var i := 0;
    while i < |shown|
      invariant 0 <= i <= |shown|
      invariant simplified == SummariesOf(shown[..i])
    {
      assert shown[..i + 1] == shown[..i] + [shown[i]];
      SummariesOfAppend(shown[..i], shown[i]);
      simplified := simplified + [Summarize(shown[i])];
      i := i + 1;
    }
    assert shown[..i] == shown;
  }

  lemma SummariesFacts(shown: seq<TaskRecord>, tasks: map<string, TaskRecord>, status: Option<string>)
    requires NewestFirst(shown)
    requires status.Some? && status.value != "" ==>
               forall j :: 0 <= j < |shown| ==> shown[j].status.Name() == status.value
    requires forall j :: 0 <= j < |shown| ==> exists id :: id in tasks && shown[j] == tasks[id]
    ensures var out := SummariesOf(shown);
      (status.Some? && status.value != "" ==>
         forall i :: 0 <= i < |out| ==> out[i].status == status.value) &&
      (forall i :: 0 <= i < |out| ==> |out[i].summary| <= 100) &&
      (forall i :: 0 <= i < |out| ==> exists id :: id in tasks && out[i] == Summarize(tasks[id])) &&
      (forall i, j :: 0 <= i < j < |out| ==> LexLe(out[j].uploadTime, out[i].uploadTime))
  {
    var out := SummariesOf(shown);
    forall j | 0 <= j < |out| ensures exists id :: id in tasks && out[j] == Summarize(tasks[id]) {
      var id :| id in tasks && shown[j] == tasks[id];
      assert out[j] == Summarize(tasks[id]);
    }
  }

  /** What the filtered, sliced list holds before it is summarised. */
  lemma ShownFacts(ids: seq<string>, tasks: map<string, TaskRecord>, status: Option<string>, limit: int)
    requires forall i :: 0 <= i < |ids| ==> ids[i] in tasks
    requires NewestFirstIds(ids, tasks)
    ensures var shown := SliceTo(FilterStatus(RecordsOf(ids, tasks), status), limit);
      NewestFirst(RecordsOf(ids, tasks)) &&
      NewestFirst(shown) &&
      (limit >= 0 ==> |shown| <= limit) &&
      (status.Some? && status.value != "" ==>
         forall j :: 0 <= j < |shown| ==> shown[j].status.Name() == status.value) &&
      forall j :: 0 <= j < |shown| ==> exists id :: id in tasks && shown[j] == tasks[id]
  {
    var rs := RecordsOf(ids, tasks);
    var kept := FilterStatus(rs, status);
    if status.Some? && status.value != "" {
      KeepStatusNewestFirst(rs, status.value);
    }
    var shown := SliceTo(kept, limit);
    assert NewestFirst(shown) by {
      assert shown == kept[..|shown|];
    }
    forall j | 0 <= j < |shown| ensures exists id :: id in tasks && shown[j] == tasks[id] {
      assert shown[j] == kept[j];
      assert kept[j] in rs;
      var m :| 0 <= m < |rs| && rs[m] == kept[j];
      assert rs[m] == tasks[ids[m]];
    }
  }

  function SummariesOf(rs: seq<TaskRecord>): (r: seq<TaskSummary>)
    ensures |r| == |rs| && forall i :: 0 <= i < |rs| ==> r[i] == Summarize(rs[i])
  {
    if rs == [] then [] else [Summarize(rs[0])] + SummariesOf(rs[1..])
  }

  lemma SummariesOfAppend(rs: seq<TaskRecord>, t: TaskRecord)
    ensures SummariesOf(rs + [t]) == SummariesOf(rs) + [Summarize(t)]
  {
  }

  // ---------------------------------------------------------------------
  // DELETE /api/audit/task/{id} and GET /health

  datatype DeleteResponse = Deleted(taskId: string) | NotFound404

  datatype HealthReport = HealthReport(activeTasks: nat, totalTasks: nat)

  function RunningIds(tasks: map<string, TaskRecord>): set<string>
  {
    set k | k in tasks && tasks[k].status == Running
  }

  /** `active_tasks` counts the records whose status is "running". */
  function Health(tasks: map<string, TaskRecord>): (h: HealthReport)
    ensures h.totalTasks == |tasks|
    ensures h.activeTasks <= h.totalTasks
  {
    var running := RunningIds(tasks);
    SubsetCard(running, tasks.Keys);
    HealthReport(|running|, |tasks|)
  }

  /** No task is reported active exactly when no record is running, and a
      store whose every record is running reports them all. */
  lemma HealthCountsRunning(tasks: map<string, TaskRecord>)
    ensures Health(tasks).activeTasks == 0 <==> forall k :: k in tasks ==> tasks[k].status != Running
    ensures (forall k :: k in tasks ==> tasks[k].status == Running) ==>
              Health(tasks).activeTasks == Health(tasks).totalTasks
  {
    var running := RunningIds(tasks);
    if exists k :: k in tasks && tasks[k].status == Running {
      var k :| k in tasks && tasks[k].status == Running;
      assert k in running;
    }
    if forall k :: k in tasks ==> tasks[k].status == Running {
      assert running == tasks.Keys;
    }
  }

  lemma SubsetCard<T>(a: set<T>, b: set<T>)
    requires a <= b
    ensures |a| <= |b|
  {
    assert b == a + (b - a);
  }
}
