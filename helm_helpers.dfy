/** Helm chart helpers: the requirements list, file lookup, README generation, --set values and repository credentials. */
module HelmHelpers {
  import opened Wrappers
  import opened Strings

  const ChartFileName := "Chart.yaml"
  const RequirementsFileName := "requirements.yaml"
  const ValuesFileName := "values.yaml"
  const TemplatesDirName := "templates"
  const DefaultEnvironmentChartDir := "env"
  const RepoVaultPath := "helm/repos"

  /** A requirements.yaml dependency (its import-values are not modelled). */
  datatype Dependency = Dependency(
    name: string, version: string, repository: string, condition: string,
    tags: seq<string>, enabled: bool, alias: string)

  // ---------------------------------------------------------------- ordering by name (DepSorter, Strings.Less on names)

  /** Sorted by name, ascending (equal names in any order). */
  predicate SortedByName(s: seq<Dependency>)
  {
    forall i, j :: 0 <= i < j < |s| ==> !Less(s[j].name, s[i].name)
  }


  lemma InsertFrontOk(s: seq<Dependency>, x: Dependency)
    requires SortedByName(s) && s != [] && !Less(s[0].name, x.name)
    ensures forall j :: 0 <= j < |s| ==> !Less(s[j].name, x.name)
  {
    forall j | 0 <= j < |s| ensures !Less(s[j].name, x.name) {
      if j > 0 && Less(s[j].name, x.name) {
        LessTotal(s[0].name, s[j].name);
        if Less(s[0].name, s[j].name) {
          LessTransitive(s[0].name, s[j].name, x.name);
        }
      }
    }
  }

  lemma ConsSorted(h: Dependency, rest: seq<Dependency>)
    requires SortedByName(rest)
    requires forall j :: 0 <= j < |rest| ==> !Less(rest[j].name, h.name)
    ensures SortedByName([h] + rest)
  {
  }

  /** Everything inserted after the head of a sorted list stays at or above the head. */
  lemma InsertBelowHead(s: seq<Dependency>, x: Dependency, rest: seq<Dependency>)
    requires SortedByName(s) && s != [] && !Less(x.name, s[0].name)
    requires multiset(rest) == multiset(s[1..]) + multiset{x}
    ensures forall j :: 0 <= j < |rest| ==> !Less(rest[j].name, s[0].name)
  {
    forall j | 0 <= j < |rest| ensures !Less(rest[j].name, s[0].name) {
      assert rest[j] in multiset(rest);
      if rest[j] != x {
        assert rest[j] in multiset(s[1..]);
        var k :| 0 <= k < |s[1..]| && s[1..][k] == rest[j];
        assert s[k + 1] == rest[j];
      }
    }
  }

  /** One insertion step of a sort by name: `x` goes after every dependency whose name is not greater. */
  function Insert(s: seq<Dependency>, x: Dependency): (r: seq<Dependency>)
    requires SortedByName(s)
    ensures SortedByName(r)
    ensures multiset(r) == multiset(s) + multiset{x}
  {
    if s == [] then [x]
    else if Less(x.name, s[0].name) then
      LessAsymmetric(x.name, s[0].name);
      InsertFrontOk(s, x);
      ConsSorted(x, s);
      [x] + s
    else
      var rest := Insert(s[1..], x);
      InsertBelowHead(s, x, rest);
      ConsSorted(s[0], rest);
      assert s == [s[0]] + s[1..];
      [s[0]] + rest
  }

  /**
   * sort.Sort(DepSorter(deps)) as the insertion sort Go's sort.Sort runs on short
   * lists: sorted by name, with equal names in input order (SortByNameStable).
   */
  function SortByName(s: seq<Dependency>): (r: seq<Dependency>)
    ensures SortedByName(r)
    ensures multiset(r) == multiset(s)
  {
    if s == [] then []
    else
      var r := Insert(SortByName(s[..|s| - 1]), s[|s| - 1]);
      assert s == s[..|s| - 1] + [s[|s| - 1]];
      r
  }

  /** The dependencies named `n`, in order. */
  function Named(s: seq<Dependency>, n: string): (r: seq<Dependency>)
  {
    if s == [] then []
    else (if s[0].name == n then [s[0]] else []) + Named(s[1..], n)
  }

  lemma {:induction false} NamedAppend(s: seq<Dependency>, t: seq<Dependency>, n: string)
    ensures Named(s + t, n) == Named(s, n) + Named(t, n)
  {
    if s == [] {
      assert s + t == t;
    } else {
      var u := s + t;
      var head := if s[0].name == n then [s[0]] else [];
      assert u[0] == s[0] && u[1..] == s[1..] + t;
      assert Named(u, n) == head + Named(s[1..] + t, n);
      NamedAppend(s[1..], t, n);
      assert Named(s, n) == head + Named(s[1..], n);
    }
  }

  /** A name below the head of a sorted list names none of its dependencies. */
  lemma NamedBelowHead(s: seq<Dependency>, n: string)
    requires SortedByName(s) && s != [] && Less(n, s[0].name)
    ensures Named(s, n) == []
  {
    LessIrreflexive(n);
    var t := s[1..];
    if t != [] {
      SortedTail(s);
      assert !Less(t[0].name, s[0].name) by { assert t[0] == s[1]; }
      LessTotal(s[0].name, t[0].name);
      if Less(s[0].name, t[0].name) {
        LessTransitive(n, s[0].name, t[0].name);
      }
      NamedBelowHead(t, n);
    }
  }

  /** The tail of a name-sorted list is name-sorted. */
  lemma SortedTail(s: seq<Dependency>)
    requires SortedByName(s) && s != []
    ensures SortedByName(s[1..])
  {
    var t := s[1..];
    forall i, j | 0 <= i < j < |t| ensures !Less(t[j].name, t[i].name) {
      assert t[i] == s[i + 1] && t[j] == s[j + 1];
    }
  }

  /** Insertion places `x` after every dependency of the same name. */
  lemma {:induction false} InsertStable(s: seq<Dependency>, x: Dependency, n: string)
    requires SortedByName(s)
    ensures Named(Insert(s, x), n) == Named(s, n) + Named([x], n)
  {
    if s == [] {
    } else if Less(x.name, s[0].name) {
      assert Insert(s, x) == [x] + s;
      if x.name == n {
        NamedBelowHead(s, n);
      }
      NamedAppend([x], s, n);
    } else {
      var t := s[1..];
      SortedTail(s);
      var r := Insert(t, x);
      assert Insert(s, x) == [s[0]] + r;
      InsertStable(t, x, n);
      NamedAppend([s[0]], r, n);
      assert s == [s[0]] + t;
      NamedAppend([s[0]], t, n);
    }
  }

  /** Dependencies with equal names keep their input order. */
  lemma {:induction false} SortByNameStable(s: seq<Dependency>, n: string)
    ensures Named(SortByName(s), n) == Named(s, n)
  {
    if s != [] {
      var init, last := s[..|s| - 1], s[|s| - 1];
      assert s == init + [last];
      SortByNameSnoc(init, last);
      SortByNameStable(init, n);
      InsertStable(SortByName(init), last, n);
      NamedAppend(init, [last], n);
    }
  }

  /** Sorting one more dependency is inserting it into the sorted rest. */
  lemma SortByNameSnoc(init: seq<Dependency>, last: Dependency)
    ensures SortByName(init + [last]) == Insert(SortByName(init), last)
  {
    var s := init + [last];
    assert s[..|s| - 1] == init && s[|s| - 1] == last;
  }

  // ---------------------------------------------------------------- the requirements list

  /** The index of the first dependency named `app`, or -1. */
  function IndexOfName(deps: seq<Dependency>, app: string): (k: int)
    ensures -1 <= k < |deps|
    ensures k >= 0 ==> deps[k].name == app
    ensures forall j :: 0 <= j < |deps| && (k < 0 || j < k) ==> deps[j].name != app
  {
    if deps == [] then -1
    else if deps[0].name == app then 0
    else var k := IndexOfName(deps[1..], app); if k < 0 then -1 else k + 1
  }

  /** The dependency SetAppVersion appends for a new app. */
  function NewDependency(app: string, version: string, repository: string, alias: string): Dependency
  {
    Dependency(app, version, repository, "", [], false, alias)
  }

  /** The dependency list after SetAppVersion. */
  function WithAppVersion(deps: seq<Dependency>, app: string, version: string, repository: string, alias: string): (r: seq<Dependency>)
    ensures IndexOfName(deps, app) >= 0 ==> |r| == |deps|
    ensures IndexOfName(deps, app) < 0 ==>
              SortedByName(r) && multiset(r) == multiset(deps) + multiset{NewDependency(app, version, repository, alias)}
  {
    var k := IndexOfName(deps, app);
    if k >= 0 then deps[k := deps[k].(version := version, repository := repository, alias := alias)]
    else SortByName(deps + [NewDependency(app, version, repository, alias)])
  }

  /** The dependency list after RemoveApplication, and whether a dependency was removed. */
  function WithoutApp(deps: seq<Dependency>, app: string): (r: (seq<Dependency>, bool))
    ensures r.1 <==> IndexOfName(deps, app) >= 0
    ensures !r.1 ==> r.0 == deps
    ensures r.1 ==> SortedByName(r.0) && |r.0| == |deps| - 1
  {
    var k := IndexOfName(deps, app);
    if k >= 0 then
      var rest := deps[..k] + deps[k + 1..];
      var sorted := SortByName(rest);
      assert |sorted| == |multiset(sorted)| == |multiset(rest)| == |rest|;
      (sorted, true)
    else (deps, false)
  }

  /** A chart's requirements.yaml, whose dependency list the helpers edit in place. */
  class Requirements {
    var dependencies: seq<Dependency>

    constructor (dependencies: seq<Dependency>)
      ensures this.dependencies == dependencies
    {
      this.dependencies := dependencies;
    }

    /** SetAppVersion: update the first dependency named `app` in place, or append a new one and sort. */
    method SetAppVersion(app: string, version: string, repository: string, alias: string)
      modifies this
      ensures dependencies == WithAppVersion(old(dependencies), app, version, repository, alias)
    {
      var i := 0;
      while i < |dependencies|
        invariant 0 <= i <= |dependencies|
        invariant dependencies == old(dependencies)
        invariant forall j :: 0 <= j < i ==> dependencies[j].name != app
      {
        var dep := dependencies[i];
        if dep.name == app {
          dependencies := dependencies[i := dep.(version := version, repository := repository, alias := alias)];
          return;
        }
        i := i + 1;
      }
      dependencies := SortByName(dependencies + [NewDependency(app, version, repository, alias)]);
    }

    /** RemoveApplication: remove the first dependency named `app` and sort; false when there is none. */
    method RemoveApplication(app: string) returns (removed: bool)
      modifies this
      ensures (dependencies, removed) == WithoutApp(old(dependencies), app)
    {
      var i := 0;
      while i < |dependencies|
        invariant 0 <= i <= |dependencies|
        invariant dependencies == old(dependencies)
        invariant forall j :: 0 <= j < i ==> dependencies[j].name != app
      {
        if dependencies[i].name == app {
          dependencies := SortByName(dependencies[..i] + dependencies[i + 1..]);
          return true;
        }
        i := i + 1;
      }
      return false;
    }
  }

  // ---------------------------------------------------------------- findFileName

  /** A directory entry as ioutil.ReadDir lists it. */
  datatype DirEntry = DirEntry(name: string, isDir: bool)

  /** The file system as findFileName sees it: util.FileExists and ioutil.ReadDir. */
  datatype FileSystem = FileSystem(fileExists: string -> Result<bool>, readDir: string -> Result<seq<DirEntry>>)

  /**
   * A probe: the path whose existence is tested and the name returned when it
   * exists (the same path, except for the final directory probes).
   */
  datatype ProbeStep = ProbeStep(test: string, answer: string)

  /** The answer of the probes, in order: the first that exists, the first error, or None. */
  function FirstExisting(fs: FileSystem, probes: seq<ProbeStep>): Option<Result<string>>
  {
    if probes == [] then None
    else match fs.fileExists(probes[0].test)
      case Err(e) => Some(Err(e))
      case Ok(true) => Some(Ok(probes[0].answer))
      case Ok(false) => FirstExisting(fs, probes[1..])
  }

  /** A probe whose answer is the tested file itself. */
  function FileProbe(name: string): ProbeStep
  {
    ProbeStep(name, name)
  }

  /** The candidate files inside the sub-directories, in listing order. */
  function SubdirProbes(dir: string, entries: seq<DirEntry>, fileName: string): (r: seq<ProbeStep>)
    ensures |r| <= |entries|
  {
    if entries == [] then []
    else (if entries[0].isDir then [FileProbe(PathJoin([dir, entries[0].name, fileName]))] else [])
         + SubdirProbes(dir, entries[1..], fileName)
  }

  /** The error when no candidate fits. */
  const NoRequirementsError := "Could not deduce the default requirements.yaml file name"

  /** The first probes: env/<f>, then <f>. */
  function TopProbes(dir: string, fileName: string): seq<ProbeStep>
  {
    [FileProbe(PathJoin([dir, DefaultEnvironmentChartDir, fileName])), FileProbe(PathJoin([dir, fileName]))]
  }

  /** The last probes: the directories env/ and dir themselves, answering with <f> inside them. */
  function DirProbes(dir: string, fileName: string): seq<ProbeStep>
  {
    var envDir := PathJoin([dir, DefaultEnvironmentChartDir]);
    [ProbeStep(envDir, PathJoin([envDir, fileName])), ProbeStep(dir, PathJoin([dir, fileName]))]
  }

  /** findFileName's outcome. */
  function FindFileNameSpec(fs: FileSystem, dir: string, fileName: string): (r: Result<string>)
    ensures fs.fileExists(PathJoin([dir, DefaultEnvironmentChartDir, fileName])) == Ok(true) ==>
              r == Ok(PathJoin([dir, DefaultEnvironmentChartDir, fileName]))
    ensures FirstExisting(fs, TopProbes(dir, fileName)).None? && fs.readDir(dir).Err? ==> r == Err(fs.readDir(dir).msg)
  {
    match FirstExisting(fs, TopProbes(dir, fileName))
      case Some(r) => r
      case None =>
        match fs.readDir(dir)
          case Err(e) => Err(e)
          case Ok(entries) =>
            match FirstExisting(fs, SubdirProbes(dir, entries, fileName) + DirProbes(dir, fileName))
              case Some(r) => r
              case None => Err(NoRequirementsError)
  }

  /** Probing a concatenation: the first list answers unless none of it exists. */
  lemma {:induction false} FirstExistingAppend(fs: FileSystem, a: seq<ProbeStep>, b: seq<ProbeStep>)
    ensures FirstExisting(fs, a + b) == if FirstExisting(fs, a).Some? then FirstExisting(fs, a) else FirstExisting(fs, b)
  {
    if a == [] {
      assert a + b == b;
    } else {
      assert (a + b)[0] == a[0] && (a + b)[1..] == a[1..] + b;
      FirstExistingAppend(fs, a[1..], b);
    }
  }

  /** findFileName. */
  method FindFileName(fs: FileSystem, dir: string, fileName: string) returns (r: Result<string>)
    ensures r == FindFileNameSpec(fs, dir, fileName)
  {
    var found := Probe(fs, TopProbes(dir, fileName));
    if found.Some? {
      return found.value;
    }
    var files := fs.readDir(dir);
    if files.Err? {
      return Err(files.msg);
    }
    var candidates := SubdirCandidates(dir, files.value, fileName);
    FirstExistingAppend(fs, candidates, DirProbes(dir, fileName));
    found := Probe(fs, candidates);
    if found.Some? {
      return found.value;
    }
    found := Probe(fs, DirProbes(dir, fileName));
    if found.Some? {
      return found.value;
    }
    return Err(NoRequirementsError);
  }

  /** The loop of findFileName over the directory listing: a candidate file in each sub-directory. */
  method SubdirCandidates(dir: string, entries: seq<DirEntry>, fileName: string) returns (candidates: seq<ProbeStep>)
    ensures candidates == SubdirProbes(dir, entries, fileName)
  {
    candidates := [];
    var i := 0;
    while i < |entries|
      invariant 0 <= i <= |entries|
      invariant SubdirProbes(dir, entries, fileName) == candidates + SubdirProbes(dir, entries[i..], fileName)
    {
      assert entries[i..][1..] == entries[i + 1..];
      var f := entries[i];
      var step := if f.isDir then [FileProbe(PathJoin([dir, f.name, fileName]))] else [];
      ProbesAssoc(candidates, step, SubdirProbes(dir, entries[i + 1..], fileName));
      candidates := candidates + step;
      i := i + 1;
    }
    assert entries[i..] == [];
  }

  lemma ProbesAssoc(a: seq<ProbeStep>, b: seq<ProbeStep>, c: seq<ProbeStep>)
    ensures a + (b + c) == (a + b) + c
  {
  }

  /** The probing loop of findFileName: the first probe that exists, or the first error, or None. */
  method Probe(fs: FileSystem, probes: seq<ProbeStep>) returns (found: Option<Result<string>>)
    ensures found == FirstExisting(fs, probes)
  {
    var i := 0;
    while i < |probes|
      invariant 0 <= i <= |probes|
      invariant FirstExisting(fs, probes) == FirstExisting(fs, probes[i..])
    {
      assert probes[i..][1..] == probes[i + 1..];
      var present := fs.fileExists(probes[i].test);
      if present.Err? {
        return Some(Err(present.msg));
      }
      if present.value {
        return Some(Ok(probes[i].answer));
      }
      i := i + 1;
    }
    return None;
  }

  // ---------------------------------------------------------------- InspectChart

  /** strings.Count(s, [c]). */
  function CountChar(s: string, c: char): nat
  {
    if s == [] then 0 else (if s[0] == c then 1 else 0) + CountChar(s[1..], c)
  }

  /** InspectChart's test for a chart on the local file system. */
  predicate IsLocalChart(chart: string)
  {
    HasPrefix(chart, "/") || HasPrefix(chart, ".") || CountChar(chart, '/') > 1
  }

  /** The prefix of the temporary directory InspectChart fetches into. */
  function FetchDirPrefix(chart: string): string
  {
    if IsLocalChart(chart) then "jx-helm-fetch" else "jx-helm-fetch-" + chart + "-"
  }

  // ---------------------------------------------------------------- GenerateReadmeForChart

  /** unknownZeroValue. */
  function UnknownZeroValue(value: string): (r: string)
    ensures r != ""
    ensures value != "" ==> r == value
  {
    if value == "" then "unknown" else value
  }

  /** A metadata table row (`lead` holds the bold key cell), present only for a non-empty value. */
  function Row(lead: string, value: string): string
  {
    if value == "" then "" else lead + value + " |\n"
  }

  /** The README text for a chart. */
  function Readme(name: string, version: string, description: string, chartRepo: string,
                  gitRepo: string, releaseNotesURL: string, appReadme: string): string
  {
    ReadmeHeader(name)
    + Row("| **Version** | ", version) + Row("| **Description** | ", description) + Row("| **Chart Repository** | ", chartRepo)
    + Row("| **Git Repository** | ", gitRepo) + Row("| **Release Notes** | ", releaseNotesURL)
    + AppSection(appReadme)
  }

  function ReadmeHeader(name: string): string
  {
    "# " + UnknownZeroValue(name) + "\n\n|App Metadata||\n" + "|---|---|\n"
  }

  /** The trailing section holding the app's own README, only when there is one. */
  function AppSection(appReadme: string): string
  {
    if appReadme == "" then "" else "\n## App README.MD\n\n" + appReadme + "\n"
  }

  /** One conditional write of a metadata row into the builder. */
  method WriteRow(readme: string, lead: string, value: string) returns (r: string)
    ensures r == readme + Row(lead, value)
  {
    r := readme;
    if value != "" {
      r := r + lead + value + " |\n";
    }
  }

  /** GenerateReadmeForChart, writing into a builder piece by piece. */
  method GenerateReadmeForChart(name: string, version: string, description: string, chartRepo: string,
                                gitRepo: string, releaseNotesURL: string, appReadme: string) returns (readme: string)
    ensures readme == Readme(name, version, description, chartRepo, gitRepo, releaseNotesURL, appReadme)
  {
    readme := "# " + UnknownZeroValue(name) + "\n\n|App Metadata||\n";
    readme := readme + "|---|---|\n";
    readme := WriteRow(readme, "| **Version** | ", version);
    readme := WriteRow(readme, "| **Description** | ", description);
    readme := WriteRow(readme, "| **Chart Repository** | ", chartRepo);
    readme := WriteRow(readme, "| **Git Repository** | ", gitRepo);
    readme := WriteRow(readme, "| **Release Notes** | ", releaseNotesURL);
    if appReadme != "" {
      readme := readme + AppSection(appReadme);
    }
  }

  // ---------------------------------------------------------------- SetValuesToMap

  /** A --set value: the literal "false" is stored as a boolean, anything else as a string. */
  datatype SetValue = BoolValue(b: bool) | StringValue(s: string)

  function ValueText(v: SetValue): string
  {
    match v
    case BoolValue(b) => if b then "true" else "false"
    case StringValue(s) => s
  }

  /** The write a "path=value" entry makes, split at its first "="; None for an entry without "=". */
  function EntryWrite(entry: string): (w: Option<(string, SetValue)>)
    ensures w.None? <==> '=' !in entry
    ensures w.Some? ==> w.value.0 + "=" + ValueText(w.value.1) == entry && '=' !in w.value.0
    ensures w.Some? ==> (w.value.1.BoolValue? <==> entry[|w.value.0| + 1..] == "false")
  {
    var tokens := SplitOnce(entry, '=');
    if |tokens| > 1 then
      var v := if tokens[1] == "false" then BoolValue(false) else StringValue(tokens[1]);
      assert entry[|tokens[0]| + 1..] == tokens[1];
      Some((tokens[0], v))
    else None
  }

  /** The writes of a list of entries, in order. */
  function Writes(entries: seq<string>): (r: seq<(string, SetValue)>)
    ensures |r| <= |entries|
  {
    if entries == [] then []
    else
      var w := EntryWrite(entries[|entries| - 1]);
      Writes(entries[..|entries| - 1]) + (if w.Some? then [w.value] else [])
  }

  lemma WritesSnoc(entries: seq<string>)
    requires entries != []
    ensures var w := EntryWrite(entries[|entries| - 1]);
            Writes(entries) == Writes(entries[..|entries| - 1]) + (if w.Some? then [w.value] else [])
  {
  }

  lemma ApplyWritesSnoc<M>(m: M, writes: seq<(string, SetValue)>, w: (string, SetValue), setPath: (M, string, SetValue) -> M)
    ensures ApplyWrites(m, writes + [w], setPath) == setPath(ApplyWrites(m, writes, setPath), w.0, w.1)
  {
    assert (writes + [w])[..|writes|] == writes;
  }

  /** A map after the writes, each made by util.SetMapValueViaPath (`setPath`). */
  function ApplyWrites<M>(m: M, writes: seq<(string, SetValue)>, setPath: (M, string, SetValue) -> M): M
  {
    if writes == [] then m
    else setPath(ApplyWrites(m, writes[..|writes| - 1], setPath), writes[|writes| - 1].0, writes[|writes| - 1].1)
  }

  /** SetValuesToMap, over the map type and path setter of util. */
  method SetValuesToMap<M>(setValues: seq<string>, empty: M, setPath: (M, string, SetValue) -> M) returns (answer: M)
    ensures answer == ApplyWrites(empty, Writes(setValues), setPath)
  {
    answer := empty;
    var i := 0;
    while i < |setValues|
      invariant 0 <= i <= |setValues|
      invariant answer == ApplyWrites(empty, Writes(setValues[..i]), setPath)
    {
      assert setValues[..i + 1][..i] == setValues[..i];
      WritesSnoc(setValues[..i + 1]);
      assert setValues[..i + 1][i] == setValues[i];
      var tokens := SplitOnce(setValues[i], '=');
      ghost var w := EntryWrite(setValues[i]);
      if |tokens| <= 1 {
        assert w.None?;
        assert Writes(setValues[..i + 1]) == Writes(setValues[..i]);
      } else {
        var path := tokens[0];
        var value := tokens[1];
        if value == "false" {
          ApplyWritesSnoc(empty, Writes(setValues[..i]), (path, BoolValue(false)), setPath);
          answer := setPath(answer, path, BoolValue(false));
        } else {
          ApplyWritesSnoc(empty, Writes(setValues[..i]), (path, StringValue(value)), setPath);
          answer := setPath(answer, path, StringValue(value));
        }
      }
      i := i + 1;
    }
    assert setValues[..i] == setValues;
  }

  // ---------------------------------------------------------------- DecorateWithCredentials

  datatype Credential = Credential(username: string, password: string)

  /** The parts of InstallChartOptions the credential decoration reads and writes. */
  class InstallChartOptions {
    var repository: string
    var username: string
    var password: string

    constructor (repository: string, username: string, password: string)
      ensures this.repository == repository && this.username == username && this.password == password
    {
      this.repository := repository;
      this.username := username;
      this.password := password;
    }
  }

  /**
   * The vault client as the decoration uses it: the stored credentials map
   * at helm/repos (or the read error) and the outcome of writing a map back.
   */
  datatype VaultStore = VaultStore(read: Result<map<string, Credential>>, write: map<string, Credential> -> Outcome)

  /** The credentials map written back, when a username or password was supplied. */
  function WrittenCredentials(stored: map<string, Credential>, repository: string, username: string, password: string): Option<map<string, Credential>>
  {
    if username != "" || password != "" then Some(stored[repository := Credential(username, password)]) else None
  }

  /** DecorateWithCredentials. `written` is the map passed to WriteObject, if any. */
  method DecorateWithCredentials(options: InstallChartOptions, vault: Option<VaultStore>)
    returns (err: Outcome, written: Option<map<string, Credential>>)
    modifies options`username, options`password
    ensures options.repository == "" || vault.None? ==>
              err == Pass && written.None? && options.username == old(options.username) && options.password == old(options.password)
    ensures options.repository != "" && vault.Some? && vault.value.read.Err? ==>
              err == Fail("reading repo credentials from vault " + RepoVaultPath + ": " + vault.value.read.msg)
              && written.None? && options.username == old(options.username) && options.password == old(options.password)
    ensures options.repository != "" && vault.Some? && vault.value.read.Ok? ==>
              var stored := vault.value.read.value;
              var repo := options.repository;
              options.username == (if old(options.username) == "" && repo in stored then stored[repo].username else old(options.username))
              && options.password == (if old(options.password) == "" && repo in stored then stored[repo].password else old(options.password))
              && written == WrittenCredentials(stored, repo, old(options.username), old(options.password))
              && err == (if written.Some? && vault.value.write(written.value).Fail?
                         then Fail("updating repo credentials in vault " + RepoVaultPath + ": " + vault.value.write(written.value).msg)
                         else Pass)
  {
    written := None;
    err := Pass;
    if options.repository != "" && vault.Some? {
      var vaultPath := RepoVaultPath;
      var read := vault.value.read;
      if read.Err? {
        return Fail("reading repo credentials from vault " + vaultPath + ": " + read.msg), None;
      }
      var creds := read.value;
      var write := false;
      var cred := Credential("", "");
      if options.username != "" {
        write := true;
        cred := cred.(username := options.username);
      } else if options.repository in creds {
        options.username := creds[options.repository].username;
      }
      if options.password != "" {
        write := true;
        cred := cred.(password := options.password);
      } else if options.repository in creds {
        options.password := creds[options.repository].password;
      }
      if write {
        creds := creds[options.repository := cred];
        written := Some(creds);
        var out := vault.value.write(creds);
        if out.Fail? {
          return Fail("updating repo credentials in vault " + vaultPath + ": " + out.msg), written;
        }
      }
    }
  }
}

/** What the helm helpers promise, proved about the model. */
module HelmHelpersProperties {
  import opened Wrappers
  import opened Strings
  import opened HelmHelpers

  // ---------------------------------------------------------------- SetAppVersion / RemoveApplication

  /** An existing app is updated in place: same length and order, only version, repository and alias change. */
  lemma SetAppVersionInPlace(deps: seq<Dependency>, app: string, version: string, repository: string, alias: string)
    requires IndexOfName(deps, app) >= 0
    ensures var r := WithAppVersion(deps, app, version, repository, alias);
            var k := IndexOfName(deps, app);
            |r| == |deps|
            && (forall j :: 0 <= j < |deps| && j != k ==> r[j] == deps[j])
            && r[k].name == app && r[k].version == version && r[k].repository == repository && r[k].alias == alias
            && r[k].condition == deps[k].condition && r[k].tags == deps[k].tags && r[k].enabled == deps[k].enabled
  {
  }

  /** A new app is appended exactly once and the whole list ends up sorted by name. */
  lemma SetAppVersionAppends(deps: seq<Dependency>, app: string, version: string, repository: string, alias: string)
    requires IndexOfName(deps, app) < 0
    ensures var r := WithAppVersion(deps, app, version, repository, alias);
            SortedByName(r) && |r| == |deps| + 1
            && multiset(r) == multiset(deps) + multiset{NewDependency(app, version, repository, alias)}
  {
    var r := WithAppVersion(deps, app, version, repository, alias);
    assert |multiset(r)| == |r|;
  }

  /** After SetAppVersion, the first dependency named `app` carries the given version, repository and alias. */
  lemma SetAppVersionEffect(deps: seq<Dependency>, app: string, version: string, repository: string, alias: string)
    ensures var r := WithAppVersion(deps, app, version, repository, alias);
            var k := IndexOfName(r, app);
            k >= 0 && r[k].version == version && r[k].repository == repository && r[k].alias == alias
            && (IndexOfName(deps, app) < 0 ==> r[k] == NewDependency(app, version, repository, alias))
  {
    if IndexOfName(deps, app) < 0 {
      var x := NewDependency(app, version, repository, alias);
      var r := WithAppVersion(deps, app, version, repository, alias);
      OnlyNewHasName(deps, x, r);
    }
  }

  /** In a permutation of deps + [x] where deps has no entry named x.name, the first entry with that name is x. */
  lemma OnlyNewHasName(deps: seq<Dependency>, x: Dependency, r: seq<Dependency>)
    requires IndexOfName(deps, x.name) < 0
    requires multiset(r) == multiset(deps) + multiset{x}
    ensures IndexOfName(r, x.name) >= 0 && r[IndexOfName(r, x.name)] == x
  {
    assert x in multiset(r);
    var j :| 0 <= j < |r| && r[j] == x;
    var k := IndexOfName(r, x.name);
    assert k >= 0;
    assert forall m :: 0 <= m < |deps| ==> deps[m] != r[k];
    assert r[k] !in deps;
    assert r[k] in multiset(r);
  }

  /** Repeating a SetAppVersion changes nothing. */
  lemma SetAppVersionIdempotent(deps: seq<Dependency>, app: string, version: string, repository: string, alias: string)
    ensures var r := WithAppVersion(deps, app, version, repository, alias);
            WithAppVersion(r, app, version, repository, alias) == r
  {
    SetAppVersionEffect(deps, app, version, repository, alias);
    var r := WithAppVersion(deps, app, version, repository, alias);
    var k := IndexOfName(r, app);
    assert r[k].(version := version, repository := repository, alias := alias) == r[k];
  }

  /** RemoveApplication removes the first dependency named `app` and sorts, or reports false and keeps the list. */
  lemma RemoveApplicationRule(deps: seq<Dependency>, app: string)
    ensures var (r, removed) := WithoutApp(deps, app);
            var k := IndexOfName(deps, app);
            (removed <==> k >= 0)
            && (!removed ==> r == deps)
            && (removed ==> SortedByName(r) && multiset(r) == multiset(deps) - multiset{deps[k]} && |r| + 1 == |deps|)
  {
    var k := IndexOfName(deps, app);
    if k >= 0 {
      MultisetWithout(deps, k);
      var r := WithoutApp(deps, app).0;
      assert |multiset(r)| == |r|;
    }
  }

  lemma MultisetWithout(s: seq<Dependency>, k: int)
    requires 0 <= k < |s|
    ensures multiset(s[..k] + s[k + 1..]) == multiset(s) - multiset{s[k]}
  {
    assert s == s[..k] + [s[k]] + s[k + 1..];
  }

  /** Adding a new app and removing it again gives back the same dependencies (up to order). */
  lemma RemoveUndoesAdd(deps: seq<Dependency>, app: string, version: string, repository: string, alias: string)
    requires IndexOfName(deps, app) < 0
    ensures var (r, removed) := WithoutApp(WithAppVersion(deps, app, version, repository, alias), app);
            removed && multiset(r) == multiset(deps)
  {
    var x := NewDependency(app, version, repository, alias);
    RemoveAdded(deps, x, WithAppVersion(deps, app, version, repository, alias));
  }

  /** Removing by name the one dependency added to a list that lacked its name gives the list back (up to order). */
  lemma RemoveAdded(deps: seq<Dependency>, x: Dependency, added: seq<Dependency>)
    requires IndexOfName(deps, x.name) < 0
    requires multiset(added) == multiset(deps) + multiset{x}
    ensures var (r, removed) := WithoutApp(added, x.name);
            removed && multiset(r) == multiset(deps)
  {
    OnlyNewHasName(deps, x, added);
    RemoveApplicationRule(added, x.name);
  }

  // ---------------------------------------------------------------- findFileName

  /** The probe that answered exists and was probed. */
  lemma {:induction false} FirstExistingSound(fs: FileSystem, probes: seq<ProbeStep>)
    ensures FirstExisting(fs, probes).Some? && FirstExisting(fs, probes).value.Ok? ==>
              exists i :: 0 <= i < |probes| && fs.fileExists(probes[i].test) == Ok(true)
                          && probes[i].answer == FirstExisting(fs, probes).value.value
  {
    if probes != [] && fs.fileExists(probes[0].test) == Ok(false) {
      FirstExistingSound(fs, probes[1..]);
      var f := FirstExisting(fs, probes[1..]);
      if f.Some? && f.value.Ok? {
        var i :| 0 <= i < |probes[1..]| && fs.fileExists(probes[1..][i].test) == Ok(true) && probes[1..][i].answer == f.value.value;
        assert probes[i + 1] == probes[1..][i];
      }
    }
  }

  /** A found name is one of the candidates, and the path it was found by exists. */
  lemma FindFileNameSound(fs: FileSystem, dir: string, fileName: string)
    ensures var r := FindFileNameSpec(fs, dir, fileName);
            r.Ok? ==> exists p :: p in TopProbes(dir, fileName) + DirProbes(dir, fileName)
                                  + (if fs.readDir(dir).Ok? then SubdirProbes(dir, fs.readDir(dir).value, fileName) else [])
                                && fs.fileExists(p.test) == Ok(true) && p.answer == r.value
  {
    var r := FindFileNameSpec(fs, dir, fileName);
    if r.Ok? {
      var all := TopProbes(dir, fileName) + DirProbes(dir, fileName)
                 + (if fs.readDir(dir).Ok? then SubdirProbes(dir, fs.readDir(dir).value, fileName) else []);
      FirstExistingSound(fs, TopProbes(dir, fileName));
      if FirstExisting(fs, TopProbes(dir, fileName)).None? {
        var rest := SubdirProbes(dir, fs.readDir(dir).value, fileName) + DirProbes(dir, fileName);
        FirstExistingSound(fs, rest);
        var i :| 0 <= i < |rest| && fs.fileExists(rest[i].test) == Ok(true) && rest[i].answer == r.value;
        assert rest[i] in all;
      } else {
        var top := TopProbes(dir, fileName);
        var i :| 0 <= i < |top| && fs.fileExists(top[i].test) == Ok(true) && top[i].answer == r.value;
        assert top[i] in all;
      }
    }
  }

  /** env/<f> wins whenever it exists. */
  lemma FindFileNamePrefersEnv(fs: FileSystem, dir: string, fileName: string)
    requires fs.fileExists(PathJoin([dir, DefaultEnvironmentChartDir, fileName])) == Ok(true)
    ensures FindFileNameSpec(fs, dir, fileName) == Ok(PathJoin([dir, DefaultEnvironmentChartDir, fileName]))
  {
  }

  /** With nothing on disk, the search ends in the fixed error. */
  lemma FindFileNameNothing(fs: FileSystem, dir: string, fileName: string)
    requires forall p :: fs.fileExists(p) == Ok(false)
    requires fs.readDir(dir).Ok?
    ensures FindFileNameSpec(fs, dir, fileName) == Err(NoRequirementsError)
  {
    NothingExists(fs, TopProbes(dir, fileName));
    NothingExists(fs, SubdirProbes(dir, fs.readDir(dir).value, fileName) + DirProbes(dir, fileName));
  }

  lemma {:induction false} NothingExists(fs: FileSystem, probes: seq<ProbeStep>)
    requires forall p :: fs.fileExists(p) == Ok(false)
    ensures FirstExisting(fs, probes) == None
  {
    if probes != [] {
      NothingExists(fs, probes[1..]);
    }
  }

  // ---------------------------------------------------------------- InspectChart

  lemma {:induction false} CountCharAppend(a: string, b: string, c: char)
    ensures CountChar(a + b, c) == CountChar(a, c) + CountChar(b, c)
  {
    if a == [] {
      assert a + b == b;
    } else {
      assert (a + b)[1..] == a[1..] + b;
      CountCharAppend(a[1..], b, c);
    }
  }

  lemma {:induction false} CountCharAbsent(a: string, c: char)
    requires c !in a
    ensures CountChar(a, c) == 0
  {
    if a != [] {
      CountCharAbsent(a[1..], c);
    }
  }

  /** A "repo/chart" reference is not local. */
  lemma RepoChartIsRemote(repo: string, chart: string)
    requires '/' !in repo && '/' !in chart && repo != [] && repo[0] != '.'
    ensures !IsLocalChart(repo + "/" + chart)
  {
    CountCharAppend(repo, "/", '/');
    CountCharAppend(repo + "/", chart, '/');
    CountCharAbsent(repo, '/');
    CountCharAbsent(chart, '/');
    assert (repo + "/" + chart)[..1] == repo[..1];
  }

  /** A path with two separators is local whatever it starts with. */
  lemma NestedPathIsLocal(a: string, b: string, c: string)
    ensures IsLocalChart(a + "/" + b + "/" + c)
  {
    CountCharAppend(a, "/", '/');
    CountCharAppend(a + "/", b, '/');
    CountCharAppend(a + "/" + b, "/", '/');
    CountCharAppend(a + "/" + b + "/", c, '/');
  }

  // ---------------------------------------------------------------- GenerateReadmeForChart

  lemma HasPrefixAppend(a: string, b: string, p: string)
    requires HasPrefix(a, p)
    ensures HasPrefix(a + b, p)
  {
    assert (a + b)[..|p|] == a[..|p|];
  }

  /** The README starts with the title line, using "unknown" for an empty name, and the table heading. */
  lemma ReadmeTitle(name: string, version: string, description: string, chartRepo: string,
                    gitRepo: string, releaseNotesURL: string, appReadme: string)
    ensures HasPrefix(Readme(name, version, description, chartRepo, gitRepo, releaseNotesURL, appReadme),
                      "# " + UnknownZeroValue(name) + "\n\n|App Metadata||\n")
  {
    var t := "# " + UnknownZeroValue(name) + "\n\n|App Metadata||\n";
    assert t[..|t|] == t;
    var x := t;
    HasPrefixAppend(x, "|---|---|\n", t);
    x := x + "|---|---|\n";
    HasPrefixAppend(x, Row("| **Version** | ", version), t);
    x := x + Row("| **Version** | ", version);
    HasPrefixAppend(x, Row("| **Description** | ", description), t);
    x := x + Row("| **Description** | ", description);
    HasPrefixAppend(x, Row("| **Chart Repository** | ", chartRepo), t);
    x := x + Row("| **Chart Repository** | ", chartRepo);
    HasPrefixAppend(x, Row("| **Git Repository** | ", gitRepo), t);
    x := x + Row("| **Git Repository** | ", gitRepo);
    HasPrefixAppend(x, Row("| **Release Notes** | ", releaseNotesURL), t);
    x := x + Row("| **Release Notes** | ", releaseNotesURL);
    HasPrefixAppend(x, AppSection(appReadme), t);
  }

  /** A non-empty version gets its row. */
  lemma ReadmeHasVersionRow(name: string, version: string, description: string, chartRepo: string,
                            gitRepo: string, releaseNotesURL: string, appReadme: string)
    requires version != ""
    ensures Contains(Readme(name, version, description, chartRepo, gitRepo, releaseNotesURL, appReadme),
                     "| **Version** | " + version + " |\n")
  {
    var row := Row("| **Version** | ", version);
    var x := ReadmeHeader(name) + row;
    ContainsInfix(ReadmeHeader(name), row, "");
    assert x + "" == x;
    ContainsAppend(x, Row("| **Description** | ", description), row);
    x := x + Row("| **Description** | ", description);
    ContainsAppend(x, Row("| **Chart Repository** | ", chartRepo), row);
    x := x + Row("| **Chart Repository** | ", chartRepo);
    ContainsAppend(x, Row("| **Git Repository** | ", gitRepo), row);
    x := x + Row("| **Git Repository** | ", gitRepo);
    ContainsAppend(x, Row("| **Release Notes** | ", releaseNotesURL), row);
    x := x + Row("| **Release Notes** | ", releaseNotesURL);
    ContainsAppend(x, AppSection(appReadme), row);
  }

  /** A non-empty release-notes URL gets its row. */
  lemma ReadmeHasReleaseNotesRow(name: string, version: string, description: string, chartRepo: string,
                                 gitRepo: string, releaseNotesURL: string, appReadme: string)
    requires releaseNotesURL != ""
    ensures Contains(Readme(name, version, description, chartRepo, gitRepo, releaseNotesURL, appReadme),
                     "| **Release Notes** | " + releaseNotesURL + " |\n")
  {
    var before := ReadmeHeader(name) + Row("| **Version** | ", version) + Row("| **Description** | ", description)
      + Row("| **Chart Repository** | ", chartRepo) + Row("| **Git Repository** | ", gitRepo);
    ContainsInfix(before, Row("| **Release Notes** | ", releaseNotesURL), AppSection(appReadme));
  }

  /** A non-empty app README closes the document in its own section. */
  lemma ReadmeEndsWithApp(name: string, version: string, description: string, chartRepo: string,
                          gitRepo: string, releaseNotesURL: string, appReadme: string)
    requires appReadme != ""
    ensures HasSuffix(Readme(name, version, description, chartRepo, gitRepo, releaseNotesURL, appReadme),
                      "\n## App README.MD\n\n" + appReadme + "\n")
  {
    var before := ReadmeHeader(name) + Row("| **Version** | ", version) + Row("| **Description** | ", description)
      + Row("| **Chart Repository** | ", chartRepo) + Row("| **Git Repository** | ", gitRepo)
      + Row("| **Release Notes** | ", releaseNotesURL);
    var app := AppSection(appReadme);
    assert (before + app)[|before + app| - |app|..] == app;
  }

  // ---------------------------------------------------------------- SetValuesToMap

  /** The writes of a list are the writes of its parts, in order. */
  lemma {:induction false} WritesAppend(a: seq<string>, b: seq<string>)
    ensures Writes(a + b) == Writes(a) + Writes(b)
    decreases |b|
  {
    if b == [] {
      assert a + b == a;
    } else {
      var c := a + b;
      var b' := b[..|b| - 1];
      assert c[..|c| - 1] == a + b';
      assert c[|c| - 1] == b[|b| - 1];
      WritesAppend(a, b');
      WritesSnoc(c);
      WritesSnoc(b);
      ConcatAssoc(Writes(a), Writes(b'), Writes(b)[|Writes(b')|..]);
    }
  }

  lemma ConcatAssoc<T>(x: seq<T>, y: seq<T>, z: seq<T>)
    ensures x + y + z == x + (y + z)
  {
  }

  /** Entries without "=" write nothing. */
  lemma {:induction false} WritesSkipPlain(entries: seq<string>)
    requires forall i :: 0 <= i < |entries| ==> '=' !in entries[i]
    ensures Writes(entries) == []
  {
    if entries != [] {
      WritesSkipPlain(entries[..|entries| - 1]);
    }
  }

  /** "a.b=false" writes the boolean false at "a.b". */
  lemma EntryWriteFalse()
    ensures EntryWrite("a.b=false") == Some(("a.b", BoolValue(false)))
  {
    var e := "a.b=false";
    assert e[3] == '=' && '=' !in e[..3];
    assert e[..3] == "a.b" && e[4..] == "false";
  }

  /** "a=b=c" is split at the first "=" only: it writes the string "b=c" at "a". */
  lemma EntryWriteFirstEquals()
    ensures EntryWrite("a=b=c") == Some(("a", StringValue("b=c")))
  {
    var f := "a=b=c";
    assert f[1] == '=' && '=' !in f[..1];
    assert f[..1] == "a" && f[2..] == "b=c";
  }
}
