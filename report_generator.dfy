// frontend/src/utils/reportGenerator.js: `generateMarkdownReport` builds a
// Markdown audit report as a list of lines (a fixed header with the task's
// details, one section per vulnerability or a single "nothing found" line,
// and a footer) and joins it with newlines. The clock reading is a
// parameter.
module ReportGenerator {
  import opened Wrappers
  import opened Strings

  datatype ReportTask = ReportTask(taskId: string, filename: string, projectType: string, status: string)

  /** A vulnerability as the report reads it; `codeSnippet` is None when the
      field is absent or null. */
  datatype Vuln = Vuln(vulnType: string, severity: string, file: string, line: int,
                       description: string, suggestion: string, codeSnippet: Option<string>)

  /** `if (vuln.codeSnippet)`: a present, non-empty string is truthy. */
  predicate HasSnippet(v: Vuln)
  {
    v.codeSnippet.Some? && v.codeSnippet.value != ""
  }

  /** `${n}` for an integer. */
  function IntToString(n: int): (r: string)
    ensures r != []
    ensures n < 0 <==> r[0] == '-'
  {
    if n < 0 then "-" + NatToString(-n) else NatToString(n)
  }

  const Title := "# 代码审计报告"
  const NoVulnsLine := "✅ 未发现安全漏洞，代码质量良好！"
  const FooterLine := "*本报告由自动化代码审计系统生成*"
  const Fence := "```"

  /** The sixteen lines the report starts with. */
  function Header(task: ReportTask, count: nat, now: string): seq<string>
  {
    [ Title,
      "",
      "> 生成时间：" + now,
      "",
      "## 任务信息",
      "",
      "| 项目 | 内容 |",
      "|------|------|",
      "| 任务ID | " + task.taskId + " |",
      "| 文件名 | " + task.filename + " |",
      "| 项目类型 | " + task.projectType + " |",
      "| 审计状态 | " + task.status + " |",
      "| 发现漏洞 | " + NatToString(count) + " 个 |",
      "",
      "## 漏洞详情",
      "" ]
  }

  /** The heading of the section for the vulnerability at 0-based `index`. */
  function Heading(index: nat, v: Vuln): string
  {
    "### " + NatToString(index + 1) + ". " + v.vulnType + " [" + Upper(v.severity) + "]"
  }

  function LocationLine(v: Vuln): string
  {
    "- **位置**：`" + v.file + ":" + IntToString(v.line) + "`"
  }

  /** The number of lines a vulnerability's section takes. */
  function SectionLength(v: Vuln): nat
  {
    if HasSnippet(v) then 12 else 8
  }

  /** The lines pushed for one vulnerability. */
  function Section(index: nat, v: Vuln): (r: seq<string>)
    ensures |r| == SectionLength(v)
    ensures r[0] == Heading(index, v)
    ensures r[|r| - 3..] == ["", "---", ""]
    ensures HasSnippet(v) ==> r[5..9] == ["", Fence, v.codeSnippet.value, Fence]
    ensures !HasSnippet(v) ==> Fence !in r
  {
    [Heading(index, v), "", LocationLine(v), "- **描述**：" + v.description, "- **修复建议**：" + v.suggestion]
    + (if HasSnippet(v) then ["", Fence, v.codeSnippet.value, Fence] else [])
    + ["", "---", ""]
  }

  /** The sections of all the vulnerabilities, in input order. */
  function Sections(vulns: seq<Vuln>): seq<string>
  {
    if vulns == [] then []
    else Sections(vulns[..|vulns| - 1]) + Section(|vulns| - 1, vulns[|vulns| - 1])
  }

  function SectionsTotal(vulns: seq<Vuln>): nat
  {
    if vulns == [] then 0
    else SectionsTotal(vulns[..|vulns| - 1]) + SectionLength(vulns[|vulns| - 1])
  }

  /** The full list of lines the report is made of. */
  function ReportLines(task: ReportTask, vulns: seq<Vuln>, now: string): seq<string>
  {
    Header(task, |vulns|, now)
    + (if vulns == [] then [NoVulnsLine] else Sections(vulns))
    + [""] + [FooterLine]
  }

  /** `generateMarkdownReport(task, vulns)`, with the formatted clock
      reading as `now`. */
  method GenerateMarkdownReport(task: ReportTask, vulns: seq<Vuln>, now: string) returns (report: string)
    ensures report == JoinWith("\n", ReportLines(task, vulns, now))
  {
    var header := Header(task, |vulns|, now);
    var lines := header;
    if |vulns| == 0 {
      lines := lines + [NoVulnsLine];
    } else {
      var i := 0;
      while i < |vulns|
        invariant 0 <= i <= |vulns|
        invariant lines == header + Sections(vulns[..i])
      {
        lines := PushSection(lines, i, vulns[i]);
        SectionsSnoc(vulns, i);
        AppendAssoc(header, Sections(vulns[..i]), Section(i, vulns[i]));
        i := i + 1;
      }
      assert vulns[..i] == vulns;
    }
    lines := lines + [""];
    lines := lines + [FooterLine];
    report := JoinWith("\n", lines);
  }

  lemma SectionsSnoc(vulns: seq<Vuln>, i: nat)
    requires i < |vulns|
    ensures Sections(vulns[..i + 1]) == Sections(vulns[..i]) + Section(i, vulns[i])
  {
    assert vulns[..i + 1][..i] == vulns[..i];
  }

  /** The body of the `forEach` callback: push the lines for the
      vulnerability at `index`. */
  method PushSection(lines: seq<string>, index: nat, v: Vuln) returns (out: seq<string>)
    ensures out == lines + Section(index, v)
  {
    out := lines + [Heading(index, v)];
    out := out + [""];
    out := out + [LocationLine(v)];
    out := out + ["- **描述**：" + v.description];
    out := out + ["- **修复建议**：" + v.suggestion];
    if HasSnippet(v) {
      out := out + [""];
      out := out + [Fence];
      out := out + [v.codeSnippet.value];
      out := out + [Fence];
    }
    out := out + [""];
    out := out + ["---"];
    out := out + [""];
  }

  // ---------------------------------------------------------------------
  // What the report contains

  lemma {:induction false} SectionsLength(vulns: seq<Vuln>)
    ensures |Sections(vulns)| == SectionsTotal(vulns)
  {
    if vulns != [] {
      SectionsLength(vulns[..|vulns| - 1]);
    }
  }

  /** The report has the sixteen header lines, then one line when there is
      no vulnerability or 8 lines per vulnerability (12 with a code snippet),
      then two footer lines. */
  lemma LineCount(task: ReportTask, vulns: seq<Vuln>, now: string)
    ensures |ReportLines(task, vulns, now)| == 16 + (if vulns == [] then 1 else SectionsTotal(vulns)) + 2
  {
    SectionsLength(vulns);
  }

  /** The header shows the task's id, file name, project type and status and
      the number of vulnerabilities. */
  lemma HeaderRows(task: ReportTask, vulns: seq<Vuln>, now: string)
    ensures var lines := ReportLines(task, vulns, now);
      |lines| > 16 &&
      lines[0] == Title && lines[2] == "> 生成时间：" + now &&
      lines[8] == "| 任务ID | " + task.taskId + " |" &&
      lines[9] == "| 文件名 | " + task.filename + " |" &&
      lines[10] == "| 项目类型 | " + task.projectType + " |" &&
      lines[11] == "| 审计状态 | " + task.status + " |" &&
      lines[12] == "| 发现漏洞 | " + NatToString(|vulns|) + " 个 |" &&
      lines[14] == "## 漏洞详情"
  {
    LineCount(task, vulns, now);
  }

  /** Without vulnerabilities the details are exactly the one line saying
      that nothing was found. */
  lemma NoVulnerabilities(task: ReportTask, now: string)
    ensures ReportLines(task, [], now) == Header(task, 0, now) + [NoVulnsLine, "", FooterLine]
    ensures |ReportLines(task, [], now)| == 19
  {
  }

  /** The report always ends with an empty line and then the footer. */
  lemma EndsWithFooter(task: ReportTask, vulns: seq<Vuln>, now: string)
    ensures var lines := ReportLines(task, vulns, now);
      |lines| >= 2 && lines[|lines| - 2..] == ["", FooterLine]
  {
  }

  /** The sections of a prefix of the list are a prefix of the sections. */
  lemma {:induction false} SectionsPrefix(vulns: seq<Vuln>, j: nat)
    requires j <= |vulns|
    ensures Sections(vulns[..j]) <= Sections(vulns)
    decreases |vulns| - j
  {
    if j < |vulns| {
      SectionsPrefix(vulns, j + 1);
      assert vulns[..j + 1][..j] == vulns[..j];
    } else {
      assert vulns[..j] == vulns;
    }
  }

  /** The i-th vulnerability's section, headed `### {i+1}. {type}
      [{SEVERITY}]`, starts right after the header and the sections of the
      vulnerabilities before it: one section per vulnerability, in input
      order. */
  lemma SectionAt(task: ReportTask, vulns: seq<Vuln>, now: string, i: nat)
    requires i < |vulns|
    ensures var lines := ReportLines(task, vulns, now);
      var start := 16 + SectionsTotal(vulns[..i]);
      start + SectionLength(vulns[i]) <= |lines| &&
      lines[start..start + SectionLength(vulns[i])] == Section(i, vulns[i]) &&
      lines[start] == Heading(i, vulns[i])
  {
    assert vulns[..i + 1][..i] == vulns[..i];
    var before := Sections(vulns[..i]);
    var sec := Section(i, vulns[i]);
    assert Sections(vulns[..i + 1]) == before + sec;
    SectionsPrefix(vulns, i + 1);
    SectionsLength(vulns[..i]);
    var header := Header(task, |vulns|, now);
    var lines := ReportLines(task, vulns, now);
    assert lines == header + Sections(vulns) + [""] + [FooterLine];
    SliceInside(lines, header, Sections(vulns), before, sec, [""], [FooterLine]);
    assert lines[|header| + |before|] == sec[0];
  }

  /** A block `c` that follows `b` at the start of the middle part `m` of
      `h + m + e1 + e2` is found right after `h` and `b`. */
  lemma SliceInside<T>(lines: seq<T>, h: seq<T>, m: seq<T>, b: seq<T>, c: seq<T>, e1: seq<T>, e2: seq<T>)
    requires lines == h + m + e1 + e2
    requires b + c <= m
    ensures |h| + |b| + |c| <= |lines|
    ensures lines[|h| + |b|..|h| + |b| + |c|] == c
  {
    var k := |h| + |b|;
    forall j | 0 <= j < |c|
      ensures lines[k + j] == c[j]
    {
      assert lines[k + j] == m[|b| + j];
      assert m[|b| + j] == (b + c)[|b| + j];
    }
  }
}
