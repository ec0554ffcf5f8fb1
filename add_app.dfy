/**
 * `jx add app` (pkg/jx/cmd/add_app.go): the option checks of Run, the
 * edit of the environment's requirements that a GitOps installation makes
 * through a pull request, the names of that pull request, and the set
 * values a direct installation passes to helm. Fetching the chart, reading
 * its schema, generating values and creating the pull request or the
 * release are outside; their results are inputs and the pull request or
 * installation Run would start is its output.
 */
module AddApp {
  import opened Wrappers
  import opened Strings

  /** The flags Run may reject. */
  datatype Flag = ReleaseFlag | HelmUpdateFlag | NamespaceFlag | ValuesFlag | SetFlag | AliasFlag

  function FlagName(f: Flag): string
  {
    match f
    case ReleaseFlag => "release"
    case HelmUpdateFlag => "helm-update"
    case NamespaceFlag => "namespace"
    case ValuesFlag => "value"
    case SetFlag => "set"
    case AliasFlag => "alias"
  }

  /** How Run stops short of fetching the chart. */
  datatype RunError =
    | InvalidOption(flag: Flag, value: string, message: string)
    | ShowHelp
    | MissingRepository

  function GitOpsMessage(f: Flag): string
  {
    "Unable to specify --" + FlagName(f) + " when using GitOps for your dev environment"
  }

  /** The defaults addFlags gives --namespace (kube.DefaultNamespace), --release and --helm-update. */
  const DefaultNamespace := "jx"
  const DefaultRelease := ""
  const DefaultHelmUpdate := true

  const NotGitOpsMessage := "Unable to specify --alias when NOT using GitOps for your dev environment"

  /** The first flag, in Run's order, that GitOps forbids to be set. */
  function GitOpsViolation(releaseName: string, helmUpdate: bool, namespace: string,
                           valueFiles: seq<string>, setValues: seq<string>): (r: Option<Flag>)
    ensures r.None? <==> releaseName == "" && helmUpdate && namespace == "" && valueFiles == [] && setValues == []
    ensures r == Some(ReleaseFlag) <==> releaseName != ""
    ensures r == Some(HelmUpdateFlag) <==> releaseName == "" && !helmUpdate
    ensures r == Some(NamespaceFlag) <==> releaseName == "" && helmUpdate && namespace != ""
    ensures r == Some(ValuesFlag) <==> releaseName == "" && helmUpdate && namespace == "" && valueFiles != []
    ensures r == Some(SetFlag) <==> releaseName == "" && helmUpdate && namespace == "" && valueFiles == [] && setValues != []
    ensures r.Some? ==> r.value != AliasFlag
  {
    if releaseName != "" then Some(ReleaseFlag)
    else if !helmUpdate then Some(HelmUpdateFlag)
    else if namespace != "" then Some(NamespaceFlag)
    else if |valueFiles| > 0 then Some(ValuesFlag)
    else if |setValues| > 0 then Some(SetFlag)
    else None
  }

  /** helm.Dependency as the requirements edit writes it. */
  datatype Dependency = Dependency(alias: string, repository: string, name: string, version: string)

  /** An app is installed when a dependency has both its name and its alias. */
  predicate Installed(deps: seq<Dependency>, app: string, alias: string)
  {
    exists i :: 0 <= i < |deps| && deps[i].name == app && deps[i].alias == alias
  }

  /** The requirements after the edit: unchanged when the app is installed, else the new dependency appended. */
  function WithApp(deps: seq<Dependency>, app: string, alias: string, repo: string, version: string): (r: seq<Dependency>)
    ensures Installed(r, app, alias)
    ensures deps <= r && |r| <= |deps| + 1
    ensures Installed(deps, app, alias) <==> r == deps
    ensures !Installed(deps, app, alias) ==> r[|deps|] == Dependency(alias, repo, app, version)
  {
    if Installed(deps, app, alias) then deps
    else
      var r := deps + [Dependency(alias, repo, app, version)];
      assert r[|deps|].name == app && r[|deps|].alias == alias;
      r
  }

  /** The requirements file of the dev environment, as the edit function of createPR sees it. */
  class Requirements {
    var dependencies: seq<Dependency>

    constructor (deps: seq<Dependency>)
      ensures dependencies == deps
    {
      dependencies := deps;
    }

    /** modifyRequirementsFn: search with a found flag, then append when not found. */
    method AddApp(app: string, alias: string, repo: string, version: string)
      modifies this
      ensures dependencies == WithApp(old(dependencies), app, alias, repo, version)
    {
      var found := false;
      var i := 0;
      while i < |dependencies|
        invariant 0 <= i <= |dependencies|
        invariant found ==> Installed(dependencies, app, alias)
        invariant !found ==> forall k :: 0 <= k < i ==> !(dependencies[k].name == app && dependencies[k].alias == alias)
      {
        var d := dependencies[i];
        if d.name == app && d.alias == alias {
          found := true;
          break;
        }
        i := i + 1;
      }
      if !found {
        dependencies := dependencies + [Dependency(alias, repo, app, version)];
      }
    }
  }

  /** The pull request createPR asks for. */
  datatype PullRequest = PullRequest(branch: string, title: string, message: string, dependency: Dependency)

  /** The branch: "add-app-", the app, "-" and the version. */
  function BranchName(app: string, version: string): (r: string)
    ensures |r| == 9 + |app| + |version|
    ensures r[..8] == "add-app-" && r[8..8 + |app|] == app && r[8 + |app|] == '-' && r[9 + |app|..] == version
  {
    "add-app-" + app + "-" + version
  }

  /** The title: "Add ", the app, a space and the version. */
  function PRTitle(app: string, version: string): (r: string)
    ensures |r| == 5 + |app| + |version|
    ensures r[..4] == "Add " && r[4..4 + |app|] == app && r[4 + |app|] == ' ' && r[5 + |app|..] == version
  {
    "Add " + app + " " + version
  }

  /** The commit message: the title with "app " after "Add ". */
  function Message(app: string, version: string): (r: string)
    ensures r == PRTitle(app, version)[..4] + "app " + PRTitle(app, version)[4..]
  {
    "Add app " + app + " " + version
  }

  /** The set values given to helm: every option value split on commas, flattened in order. */
  function SplitSetValues(setValues: seq<string>): (r: seq<string>)
    ensures |r| >= |setValues|
    ensures forall i :: 0 <= i < |r| ==> ',' !in r[i]
  {
    if setValues == [] then []
    else SplitSetValues(setValues[..|setValues| - 1]) + Split(setValues[|setValues| - 1], ',')
  }

  /** installApp's loop building setValues. */
  method FlattenSetValues(setValues: seq<string>) returns (r: seq<string>)
    ensures r == SplitSetValues(setValues)
  {
    r := [];
    var i := 0;
    while i < |setValues|
      invariant 0 <= i <= |setValues|
      invariant r == SplitSetValues(setValues[..i])
    {
      assert setValues[..i + 1][..i] == setValues[..i];
      r := r + Split(setValues[i], ',');
      i := i + 1;
    }
    assert setValues[..i] == setValues;
  }

  /** helm.InstallChartOptions for a direct installation. */
  datatype InstallChartOptions = InstallChartOptions(
    releaseName: string, chart: string, version: string, ns: string, helmUpdate: bool,
    setValues: seq<string>, valueFiles: seq<string>, repository: string, username: string, password: string)

  /** What Run starts once the chart is inspected. */
  datatype Action = CreatePR(pr: PullRequest) | InstallChart(options: InstallChartOptions)

  /** The chart as InspectChart presents it to the callback. */
  datatype Chart = Chart(dir: string, version: Result<string>, hasSchema: bool)

  class AddAppOptions {
    var gitOps: bool
    var repo: string
    var username: string
    var password: string
    var alias: string
    var namespace: string
    var version: string
    var releaseName: string
    var setValues: seq<string>
    var valueFiles: seq<string>
    var helmUpdate: bool
    var args: seq<string>

    constructor (repo: string, username: string, password: string, alias: string, namespace: string, version: string,
                 releaseName: string, setValues: seq<string>, valueFiles: seq<string>, helmUpdate: bool, args: seq<string>)
      ensures this.repo == repo && this.username == username && this.password == password && this.alias == alias
      ensures this.namespace == namespace && this.version == version && this.releaseName == releaseName
      ensures this.setValues == setValues && this.valueFiles == valueFiles && this.helmUpdate == helmUpdate
      ensures this.args == args && !gitOps
    {
      this.gitOps := false;
      this.repo := repo;
      this.username := username;
      this.password := password;
      this.alias := alias;
      this.namespace := namespace;
      this.version := version;
      this.releaseName := releaseName;
      this.setValues := setValues;
      this.valueFiles := valueFiles;
      this.helmUpdate := helmUpdate;
      this.args := args;
    }

    /**
     * Run up to, but not including, fetching the chart. `devGitOps` and
     * `appsRepository` are what GetDevEnv reports.
     */
    method Validate(devGitOps: bool, appsRepository: string) returns (err: Option<RunError>)
      modifies this`gitOps, this`repo
      ensures gitOps == devGitOps
      ensures repo == (if old(repo) == "" then appsRepository else old(repo))
      ensures var v := GitOpsViolation(releaseName, helmUpdate, namespace, valueFiles, setValues);
              devGitOps && v.Some? ==> err == Some(InvalidOption(v.value, releaseName, GitOpsMessage(v.value)))
      ensures !devGitOps && alias != "" ==> err == Some(InvalidOption(AliasFlag, releaseName, NotGitOpsMessage))
      ensures err.None? <==>
                (devGitOps ==> GitOpsViolation(releaseName, helmUpdate, namespace, valueFiles, setValues).None?) &&
                (!devGitOps ==> alias == "") && |args| == 1 && repo != ""
      ensures (devGitOps ==> GitOpsViolation(releaseName, helmUpdate, namespace, valueFiles, setValues).None?) &&
              (!devGitOps ==> alias == "") ==>
                err == if |args| != 1 then Some(ShowHelp) else if repo == "" then Some(MissingRepository) else None
    {
      gitOps := devGitOps;
      if repo == "" {
        repo := appsRepository;
      }
      if gitOps {
        var v := GitOpsViolation(releaseName, helmUpdate, namespace, valueFiles, setValues);
        if v.Some? {
          return Some(InvalidOption(v.value, releaseName, GitOpsMessage(v.value)));
        }
      }
      if !gitOps {
        if alias != "" {
          return Some(InvalidOption(AliasFlag, releaseName, NotGitOpsMessage));
        }
      }
      if |args| == 0 {
        return Some(ShowHelp);
      }
      if |args| > 1 {
        return Some(ShowHelp);
      }
      if repo == "" {
        return Some(MissingRepository);
      }
      return None;
    }

    /**
     * The callback InspectChart runs for the one app argument: the version
     * defaults to the chart's, then a GitOps environment gets a pull request
     * and any other the installation, which uses `valuesFile` (the values
     * generated from the schema) when no values file was given.
     */
    method InstallApp(app: string, chart: Chart, valuesFile: string) returns (r: Result<Action>)
      modifies this`valueFiles
      ensures chart.version.Err? ==> r == Err(chart.version.msg) && valueFiles == old(valueFiles)
      ensures chart.version.Ok? ==> r.Ok?
      ensures chart.version.Ok? ==>
                var v := if version == "" then chart.version.value else version;
                (gitOps ==> valueFiles == old(valueFiles) &&
                            r.value == CreatePR(PullRequest(BranchName(app, v), PRTitle(app, v), Message(app, v),
                                                            Dependency(alias, repo, app, v)))) &&
                (!gitOps ==> valueFiles == (if old(valueFiles) == [] && chart.hasSchema then [valuesFile] else old(valueFiles)) &&
                             r.value == InstallChart(InstallChartOptions(app, chart.dir, v, namespace, helmUpdate,
                                                                    SplitSetValues(setValues), valueFiles, repo, username, password)))
    {
      if chart.version.Err? {
        return Err(chart.version.msg);
      }
      var v := version;
      if v == "" {
        v := chart.version.value;
      }
      if gitOps {
        return Ok(CreatePR(PullRequest(BranchName(app, v), PRTitle(app, v), Message(app, v), Dependency(alias, repo, app, v))));
      }
      if |valueFiles| > 0 && chart.hasSchema {
        // the values files given win over the schema
      } else if chart.hasSchema {
        valueFiles := [valuesFile];
      }
      var sets := FlattenSetValues(setValues);
      return Ok(InstallChart(InstallChartOptions(app, chart.dir, v, namespace, helmUpdate, sets, valueFiles, repo, username, password)));
    }
  }
}

module AddAppProperties {
  import opened Wrappers
  import opened Strings
  import opened AddApp

  /** Editing twice is editing once: a second add of the same app and alias changes nothing. */
  lemma WithAppIdempotent(deps: seq<Dependency>, app: string, alias: string, repo: string, version: string, version2: string)
    ensures var once := WithApp(deps, app, alias, repo, version);
            WithApp(once, app, alias, repo, version2) == once
  {
  }

  /** The same app under another alias is a separate dependency. */
  lemma OtherAliasAdded(app: string, alias: string, other: string, repo: string, version: string)
    requires alias != other
    ensures var deps := [Dependency(alias, repo, app, version)];
            WithApp(deps, app, other, repo, version) == deps + [Dependency(other, repo, app, version)]
  {
    var deps := [Dependency(alias, repo, app, version)];
    assert !Installed(deps, app, other);
  }

  /** The edit never reorders: every earlier dependency keeps its position. */
  lemma WithAppKeepsOrder(deps: seq<Dependency>, app: string, alias: string, repo: string, version: string, i: nat)
    requires i < |deps|
    ensures WithApp(deps, app, alias, repo, version)[i] == deps[i]
  {
  }

  /** No set value given to helm contains a comma, and without commas the values pass unchanged. */
  lemma {:induction false} SetValuesHaveNoCommas(setValues: seq<string>)
    ensures forall v :: v in SplitSetValues(setValues) ==> ',' !in v
  {
    if setValues != [] {
      SetValuesHaveNoCommas(setValues[..|setValues| - 1]);
    }
  }

  lemma {:induction false} SetValuesWithoutCommas(setValues: seq<string>)
    requires forall i :: 0 <= i < |setValues| ==> ',' !in setValues[i]
    ensures SplitSetValues(setValues) == setValues
  {
    if setValues != [] {
      var init := setValues[..|setValues| - 1];
      SetValuesWithoutCommas(init);
      SplitWithoutSeparator(setValues[|setValues| - 1], ',');
      assert init + [setValues[|setValues| - 1]] == setValues;
    }
  }

  /** Joining the pieces of one option value with commas gives the value back. */
  lemma SetValueRoundTrip(value: string)
    ensures JoinWith(SplitSetValues([value]), ",") == value
  {
    assert [value][..0] == [];
    assert SplitSetValues([value]) == Split(value, ',');
    SplitJoin(value, ',');
    assert "," == [','];
  }

  /** "a,b" and "c" give three set values, in order. */
  lemma SetValuesExample()
    ensures SplitSetValues(["a,b", "c"]) == ["a", "b", "c"]
  {
    SplitWithoutSeparator("b", ',');
    assert "a,b" == "a" + [','] + "b";
    SplitAt("a", "b", ',');
    SplitWithoutSeparator("c", ',');
    assert ["a,b", "c"][..1] == ["a,b"];
    assert ["a,b"][..0] == [];
  }

  /** Splitting at a separator between two pieces without it. */
  lemma {:induction false} SplitAt(a: string, b: string, c: char)
    requires c !in a && Split(b, c) == [b]
    ensures Split(a + [c] + b, c) == [a, b]
  {
    if a == [] {
      assert [] + [c] + b == [c] + b;
      assert ([c] + b)[1..] == b;
    } else {
      SplitAt(a[1..], b, c);
      assert (a + [c] + b)[1..] == a[1..] + [c] + b;
      assert [a[0]] + a[1..] == a;
    }
  }

  /** The pull request is named after the app and the version. */
  lemma PullRequestNames()
    ensures BranchName("jx-app-jacoco", "0.0.1") == "add-app-jx-app-jacoco-0.0.1"
    ensures PRTitle("jx-app-jacoco", "0.0.1") == "Add jx-app-jacoco 0.0.1"
  {
  }

  /** Under GitOps the alias is accepted, and the all-empty options pass. */
  lemma GitOpsAllowsAlias(releaseName: string, helmUpdate: bool, namespace: string, valueFiles: seq<string>, setValues: seq<string>)
    ensures GitOpsViolation(releaseName, helmUpdate, namespace, valueFiles, setValues) != Some(AliasFlag)
    ensures GitOpsViolation("", true, "", [], []) == None
    ensures GitOpsViolation("", false, "jx", [], []) == Some(HelmUpdateFlag)
  {
  }

  /**
   * The --namespace flag defaults to kube.DefaultNamespace, which is "jx", and the
   * other GitOps-checked flags default to empty, with --helm-update on. So with
   * every flag left at its default, a GitOps environment refuses --namespace.
   */
  lemma GitOpsRefusesDefaultNamespace()
    ensures GitOpsViolation(DefaultRelease, DefaultHelmUpdate, DefaultNamespace, [], []) == Some(NamespaceFlag)
  {
  }
}
