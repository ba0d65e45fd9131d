// frontend/src/utils/projectDetector.js: `detectProjectType` classifies a
// list of file names by a fixed priority of language families, each
// recognised by marker files (matched anywhere in a name) or by source-file
// suffixes (matched at the end of a name), after lower-casing every name.
module ProjectDetector {
  import opened Wrappers
  import opened Strings

  datatype ProjectType = Python | JavaScript | Java | PHP | Go | Rust | Unknown
  {
    /** The string `detectProjectType` returns. */
    function Name(): string
    {
      match this
      case Python => "Python"
      case JavaScript => "JavaScript"
      case Java => "Java"
      case PHP => "PHP"
      case Go => "Go"
      case Rust => "Rust"
      case Unknown => "Unknown"
    }
  }

  /** `files.map(f => f.toLowerCase())`. */
  function LowerAll(files: seq<string>): (r: seq<string>)
    ensures |r| == |files| && forall i :: 0 <= i < |r| ==> r[i] == Lower(files[i])
  {
    seq(|files|, i requires 0 <= i < |files| => Lower(files[i]))
  }

  /** `f.includes(m1) || f.includes(m2) || ...`. */
  predicate IncludesAny(name: string, markers: seq<string>)
  {
    markers != [] && (Contains(name, markers[0]) || IncludesAny(name, markers[1..]))
  }

  /** `f.endsWith(x1) || f.endsWith(x2) || ...`. */
  predicate EndsWithAny(name: string, suffixes: seq<string>)
  {
    suffixes != [] && (EndsWith(name, suffixes[0]) || EndsWithAny(name, suffixes[1..]))
  }

  /** `names.some(f => f.includes(m1) || ...)`. */
  predicate SomeIncludes(names: seq<string>, markers: seq<string>)
  {
    names != [] && (IncludesAny(names[0], markers) || SomeIncludes(names[1..], markers))
  }

  /** `names.some(f => f.endsWith(x1) || ...)`. */
  predicate SomeEndsWith(names: seq<string>, suffixes: seq<string>)
  {
    names != [] && (EndsWithAny(names[0], suffixes) || SomeEndsWith(names[1..], suffixes))
  }

  /** `detectProjectType(files)`; None stands for a null or undefined list. */
  function DetectProjectType(files: Option<seq<string>>): ProjectType
  {
    if files.None? || |files.value| == 0 then Unknown
    else
      var names := LowerAll(files.value);
      if SomeIncludes(names, ["requirements.txt", "pipfile"]) then Python
      else if SomeEndsWith(names, [".py"]) then Python
      else if SomeIncludes(names, ["package.json", "node_modules"]) then JavaScript
      else if SomeEndsWith(names, [".js", ".ts"]) then JavaScript
      else if SomeIncludes(names, ["pom.xml", "build.gradle"]) then Java
      else if SomeEndsWith(names, [".java"]) then Java
      else if SomeIncludes(names, ["composer.json"]) then PHP
      else if SomeEndsWith(names, [".php"]) then PHP
      else if SomeIncludes(names, ["go.mod"]) then Go
      else if SomeIncludes(names, ["cargo.toml"]) then Rust
      else Unknown
  }

  // ---------------------------------------------------------------------
  // A reference definition: the first family, in priority order, that some
  // name marks

  const Priority: seq<ProjectType> := [Python, JavaScript, Java, PHP, Go, Rust]

  function Markers(t: ProjectType): seq<string>
  {
    match t
    case Python => ["requirements.txt", "pipfile"]
    case JavaScript => ["package.json", "node_modules"]
    case Java => ["pom.xml", "build.gradle"]
    case PHP => ["composer.json"]
    case Go => ["go.mod"]
    case Rust => ["cargo.toml"]
    case Unknown => []
  }

  function Suffixes(t: ProjectType): seq<string>
  {
    match t
    case Python => [".py"]
    case JavaScript => [".js", ".ts"]
    case Java => [".java"]
    case PHP => [".php"]
    case _ => []
  }

  /** The lower-cased name marks family t. */
  predicate Marks(t: ProjectType, name: string)
  {
    IncludesAny(name, Markers(t)) || EndsWithAny(name, Suffixes(t))
  }

  predicate SomeMarks(t: ProjectType, names: seq<string>)
  {
    exists i :: 0 <= i < |names| && Marks(t, names[i])
  }

  function FirstMarked(order: seq<ProjectType>, names: seq<string>): ProjectType
  {
    if order == [] then Unknown
    else if SomeMarks(order[0], names) then order[0]
    else FirstMarked(order[1..], names)
  }

  /** The chain of checks picks the first family in priority order that
      some lower-cased name marks. */
  lemma DetectIsFirstMarked(files: seq<string>)
    requires files != []
    ensures DetectProjectType(Some(files)) == FirstMarked(Priority, LowerAll(files))
  {
    var names := LowerAll(files);
    FirstMarkedStep(Rust, [], names);
    FirstMarkedStep(Go, [Rust], names);
    FirstMarkedStep(PHP, [Go, Rust], names);
    FirstMarkedStep(Java, [PHP, Go, Rust], names);
    FirstMarkedStep(JavaScript, [Java, PHP, Go, Rust], names);
    FirstMarkedStep(Python, [JavaScript, Java, PHP, Go, Rust], names);
  }

  /** One step of the priority order, written as the two checks the source
      makes for that family. */
  lemma FirstMarkedStep(t: ProjectType, rest: seq<ProjectType>, names: seq<string>)
    ensures FirstMarked([t] + rest, names) ==
            if SomeIncludes(names, Markers(t)) || SomeEndsWith(names, Suffixes(t)) then t
            else FirstMarked(rest, names)
    ensures Suffixes(t) == [] ==> !SomeEndsWith(names, Suffixes(t))
  {
    assert ([t] + rest)[0] == t && ([t] + rest)[1..] == rest;
    SomeMarksSplit(t, names);
    if Suffixes(t) == [] {
      NoSuffixes(names);
    }
  }

  /** Some name marks family t exactly when one of the source's two
      `some` checks for t succeeds. */
  lemma {:induction false} SomeMarksSplit(t: ProjectType, names: seq<string>)
    ensures SomeMarks(t, names) <==> SomeIncludes(names, Markers(t)) || SomeEndsWith(names, Suffixes(t))
  {
    if names != [] {
      SomeMarksSplit(t, names[1..]);
      assert forall i :: 1 <= i < |names| ==> names[i] == names[1..][i - 1];
      if SomeMarks(t, names[1..]) {
        var i :| 0 <= i < |names[1..]| && Marks(t, names[1..][i]);
        assert Marks(t, names[i + 1]);
      }
    }
  }

  lemma {:induction false} NoSuffixes(names: seq<string>)
    ensures !SomeEndsWith(names, [])
  {
    if names != [] {
      NoSuffixes(names[1..]);
    }
  }

  lemma {:induction false} FirstMarkedIn(order: seq<ProjectType>, names: seq<string>)
    ensures FirstMarked(order, names) == Unknown || FirstMarked(order, names) in order
  {
    if order != [] && !SomeMarks(order[0], names) {
      FirstMarkedIn(order[1..], names);
    }
  }

  /** The k-th family of a repetition-free order is picked exactly when
      some name marks it and no name marks an earlier family. */
  lemma {:induction false} FirstMarkedAt(order: seq<ProjectType>, names: seq<string>, k: nat)
    requires k < |order| && Unknown !in order
    requires forall i, j :: 0 <= i < j < |order| ==> order[i] != order[j]
    ensures FirstMarked(order, names) == order[k] <==>
            SomeMarks(order[k], names) && forall j :: 0 <= j < k ==> !SomeMarks(order[j], names)
  {
    if k == 0 {
      if !SomeMarks(order[0], names) {
        FirstMarkedIn(order[1..], names);
        assert order[0] !in order[1..];
      }
    } else if SomeMarks(order[0], names) {
      assert order[0] != order[k];
    } else {
      FirstMarkedAt(order[1..], names, k - 1);
      assert forall j :: 0 <= j < k - 1 ==> order[1..][j] == order[j + 1];
    }
  }

  lemma {:induction false} FirstMarkedNone(order: seq<ProjectType>, names: seq<string>)
    requires Unknown !in order
    ensures FirstMarked(order, names) == Unknown <==> forall j :: 0 <= j < |order| ==> !SomeMarks(order[j], names)
  {
    if order != [] {
      FirstMarkedNone(order[1..], names);
      if !SomeMarks(order[0], names) {
        assert forall j :: 1 <= j < |order| ==> order[j] == order[1..][j - 1];
      }
    }
  }

  /** Both directions of the priority order: the k-th family is returned
      exactly when one of the files marks it and none marks an earlier
      family; 'Unknown' exactly when the list is null or empty or no file
      marks any family. */
  lemma PriorityOrder(files: Option<seq<string>>, k: nat)
    requires k < |Priority|
    ensures files.Some? && files.value != [] ==>
      (DetectProjectType(files) == Priority[k] <==>
        (exists i :: 0 <= i < |files.value| && Marks(Priority[k], Lower(files.value[i]))) &&
        forall j, i :: 0 <= j < k && 0 <= i < |files.value| ==> !Marks(Priority[j], Lower(files.value[i])))
    ensures DetectProjectType(files) == Unknown <==>
      files.None? || files.value == [] ||
      forall j, i :: 0 <= j < |Priority| && 0 <= i < |files.value| ==> !Marks(Priority[j], Lower(files.value[i]))
  {
    if files.Some? && files.value != [] {
      var names := LowerAll(files.value);
      DetectIsFirstMarked(files.value);
      PriorityIsRepetitionFree();
      FirstMarkedAt(Priority, names, k);
      FirstMarkedNone(Priority, names);
      forall j | 0 <= j < |Priority|
        ensures SomeMarks(Priority[j], names) <==>
                exists i :: 0 <= i < |files.value| && Marks(Priority[j], Lower(files.value[i]))
      {
        SomeMarksLowered(Priority[j], files.value);
      }
    }
  }

  /** The priority order names each family once and never Unknown. */
  lemma PriorityIsRepetitionFree()
    ensures Unknown !in Priority
    ensures forall i, j :: 0 <= i < j < |Priority| ==> Priority[i] != Priority[j]
  {
  }

  /** Some lower-cased name marks t exactly when the lower-cased form of
      one of the files does. */
  lemma SomeMarksLowered(t: ProjectType, files: seq<string>)
    ensures SomeMarks(t, LowerAll(files)) <==> exists i :: 0 <= i < |files| && Marks(t, Lower(files[i]))
  {
    var names := LowerAll(files);
    if SomeMarks(t, names) {
      var i :| 0 <= i < |names| && Marks(t, names[i]);
      assert Marks(t, Lower(files[i]));
    }
  }

  /** A Python marker or source file decides the result, whatever else the
      list holds. */
  lemma PythonWins(before: seq<string>, f: string, after: seq<string>)
    requires Marks(Python, Lower(f))
    ensures DetectProjectType(Some(before + [f] + after)) == Python
  {
    var files := before + [f] + after;
    assert files[|before|] == f;
    PriorityOrder(Some(files), 0);
  }

  /** Matching ignores case: lists whose names agree once lower-cased are
      classified alike, and lower-casing a list first changes nothing. */
  lemma CaseInsensitive(fs: seq<string>, gs: seq<string>)
    requires |fs| == |gs| && forall i :: 0 <= i < |fs| ==> Lower(fs[i]) == Lower(gs[i])
    ensures DetectProjectType(Some(fs)) == DetectProjectType(Some(gs))
    ensures DetectProjectType(Some(LowerAll(fs))) == DetectProjectType(Some(fs))
  {
    assert LowerAll(fs) == LowerAll(gs);
    forall i | 0 <= i < |fs| ensures Lower(LowerAll(fs)[i]) == Lower(fs[i]) {
      LowerIdempotent(fs[i]);
    }
    assert LowerAll(LowerAll(fs)) == LowerAll(fs);
  }

  /** The order of the files does not matter. */
  lemma ReorderInvariant(fs: seq<string>, gs: seq<string>)
    requires multiset(fs) == multiset(gs)
    ensures DetectProjectType(Some(fs)) == DetectProjectType(Some(gs))
  {
    assert |fs| == |multiset(fs)| == |multiset(gs)| == |gs|;
    if fs != [] {
      forall t ensures SomeMarks(t, LowerAll(fs)) <==> SomeMarks(t, LowerAll(gs)) {
        SameMarks(fs, gs, t);
        SameMarks(gs, fs, t);
      }
      FirstMarkedAgrees(Priority, LowerAll(fs), LowerAll(gs));
      DetectIsFirstMarked(fs);
      DetectIsFirstMarked(gs);
    }
  }

  lemma SameMarks(fs: seq<string>, gs: seq<string>, t: ProjectType)
    requires multiset(fs) == multiset(gs)
    ensures SomeMarks(t, LowerAll(fs)) ==> SomeMarks(t, LowerAll(gs))
  {
    if SomeMarks(t, LowerAll(fs)) {
      var i :| 0 <= i < |fs| && Marks(t, LowerAll(fs)[i]);
      assert fs[i] in multiset(gs);
      var j :| 0 <= j < |gs| && gs[j] == fs[i];
      assert Marks(t, LowerAll(gs)[j]);
    }
  }

  /** The choice depends only on which families the names mark. */
  lemma {:induction false} FirstMarkedAgrees(order: seq<ProjectType>, a: seq<string>, b: seq<string>)
    requires forall t :: SomeMarks(t, a) <==> SomeMarks(t, b)
    ensures FirstMarked(order, a) == FirstMarked(order, b)
  {
    if order != [] {
      FirstMarkedAgrees(order[1..], a, b);
    }
  }

  /** Go and Rust have no source-file rule: they are returned only when a
      name contains go.mod or cargo.toml. */
  lemma GoAndRustOnlyByManifest(files: seq<string>)
    ensures DetectProjectType(Some(files)) == Go ==>
              exists i :: 0 <= i < |files| && Contains(Lower(files[i]), "go.mod")
    ensures DetectProjectType(Some(files)) == Rust ==>
              exists i :: 0 <= i < |files| && Contains(Lower(files[i]), "cargo.toml")
  {
    PriorityOrder(Some(files), 4);
    PriorityOrder(Some(files), 5);
    forall n | Marks(Go, n) ensures Contains(n, "go.mod") {
      OneMarker(n, "go.mod");
    }
    forall n | Marks(Rust, n) ensures Contains(n, "cargo.toml") {
      OneMarker(n, "cargo.toml");
    }
  }

  lemma OneMarker(n: string, m: string)
    ensures IncludesAny(n, [m]) <==> Contains(n, m)
  {
    assert [m][1..] == [];
  }
}
