/**
 * `jx create quickstart` (pkg/cmd/create/create_quickstart.go): the
 * quickstart locations Run searches (the team's plus the extra GitHub
 * organisations), their grouping by git server and owner, the name of the
 * generated project, the guard before the download, the check that refuses
 * machine-learning project sets and the name of the charts folder that is
 * renamed afterwards. Loading quickstarts, the survey, the download and the
 * import are outside the model; their outcomes are inputs.
 */
module CreateQuickstart {
  import opened Wrappers
  import opened Strings

  const JenkinsXQuickstartsOrganisation := "jenkins-x-quickstarts"
  /** gits.GitHubURL and gits.KindGitHub. */
  const GitHubURL := "https://github.com"
  const KindGitHub := "github"

  datatype QuickStartLocation = QuickStartLocation(gitURL: string, gitKind: string, owner: string,
                                                   includes: seq<string>, excludes: seq<string>)

  /** The location Run adds for an extra organisation. */
  function GitHubLocation(org: string): QuickStartLocation
  {
    QuickStartLocation(GitHubURL, KindGitHub, org, ["*"], ["WIP-*"])
  }

  /** Whether a location on GitHub already has that owner. */
  predicate HasGitHubOwner(locations: seq<QuickStartLocation>, org: string)
  {
    exists i :: 0 <= i < |locations| && locations[i].gitURL == GitHubURL && locations[i].owner == org
  }

  /** The locations after the extra organisations are merged in, in order. */
  function WithOrganisations(locations: seq<QuickStartLocation>, orgs: seq<string>): (r: seq<QuickStartLocation>)
    ensures locations <= r && |r| <= |locations| + |orgs|
    ensures forall j :: 0 <= j < |orgs| ==> HasGitHubOwner(r, orgs[j])
  {
    if orgs == [] then locations
    else
      var before := WithOrganisations(locations, orgs[..|orgs| - 1]);
      var org := orgs[|orgs| - 1];
      if HasGitHubOwner(before, org) then before
      else
        var r := before + [GitHubLocation(org)];
        OwnersKept(before, GitHubLocation(org));
        assert r[|before|].owner == org;
        r
  }

  /** Appending a location keeps every GitHub owner already present. */
  lemma OwnersKept(locations: seq<QuickStartLocation>, x: QuickStartLocation)
    ensures forall o :: HasGitHubOwner(locations, o) ==> HasGitHubOwner(locations + [x], o)
  {
    forall o | HasGitHubOwner(locations, o) ensures HasGitHubOwner(locations + [x], o) {
      var i :| 0 <= i < |locations| && locations[i].gitURL == GitHubURL && locations[i].owner == o;
      assert (locations + [x])[i] == locations[i];
    }
  }

  /** Run's outer loop over GitHubOrganisations with a found flag. */
  method AddOrganisations(locations: seq<QuickStartLocation>, orgs: seq<string>) returns (r: seq<QuickStartLocation>)
    ensures r == WithOrganisations(locations, orgs)
  {
    r := locations;
    var i := 0;
    while i < |orgs|
      invariant 0 <= i <= |orgs|
      invariant r == WithOrganisations(locations, orgs[..i])
    {
      assert orgs[..i + 1][..i] == orgs[..i];
      var org := orgs[i];
      var found := Find(r, org);
      if !found {
        r := r + [GitHubLocation(org)];
      }
      i := i + 1;
    }
    assert orgs[..i] == orgs;
  }

  /** The inner loop: search for a GitHub location with that owner. */
  method Find(locations: seq<QuickStartLocation>, org: string) returns (found: bool)
    ensures found <==> HasGitHubOwner(locations, org)
  {
    found := false;
    var j := 0;
    while j < |locations|
      invariant 0 <= j <= |locations|
      invariant !found ==> forall k :: 0 <= k < j ==> !(locations[k].gitURL == GitHubURL && locations[k].owner == org)
      invariant found ==> HasGitHubOwner(locations, org)
    {
      var loc := locations[j];
      if loc.gitURL == GitHubURL && loc.owner == org {
        found := true;
        break;
      }
      j := j + 1;
    }
  }

  type GitMap = map<string, map<string, QuickStartLocation>>

  /** gitMap: locations keyed by git URL, then by owner; a later location with the same keys replaces an earlier one. */
  function Grouped(locations: seq<QuickStartLocation>): GitMap
  {
    if locations == [] then map[]
    else
      var init := locations[..|locations| - 1];
      var m := Grouped(init);
      var loc := locations[|locations| - 1];
      var inner := if loc.gitURL in m then m[loc.gitURL] else map[];
      m[loc.gitURL := inner[loc.owner := loc]]
  }

  /** The loop that fills gitMap. */
  method GroupLocations(locations: seq<QuickStartLocation>) returns (gitMap: GitMap)
    ensures gitMap == Grouped(locations)
  {
    gitMap := map[];
    var i := 0;
    while i < |locations|
      invariant 0 <= i <= |locations|
      invariant gitMap == Grouped(locations[..i])
    {
      assert locations[..i + 1][..i] == locations[..i];
      var loc := locations[i];
      var m: map<string, QuickStartLocation> := map[];
      if loc.gitURL in gitMap {
        m := gitMap[loc.gitURL];
      }
      m := m[loc.owner := loc];
      gitMap := gitMap[loc.gitURL := m];
      i := i + 1;
    }
    assert locations[..i] == locations;
  }

  /** The git kind LoadQuickstartsFromMap uses for a location. */
  function LocationKind(loc: QuickStartLocation): (r: string)
    ensures loc.gitKind != "" ==> r == loc.gitKind
    ensures loc.gitKind == "" ==> r == KindGitHub
  {
    if loc.gitKind == "" then KindGitHub else loc.gitKind
  }

  datatype Quickstart = Quickstart(id: string, owner: string, name: string, downloadZipURL: string)

  /** Why naming the project fails. */
  datatype NameError = DetailsError(msg: string) | NoProjectName | MissingOption(option: string)

  /** The form the survey returns; Run names the project in it. */
  class QuickstartForm {
    var name: string
    var quickstart: Option<Quickstart>

    constructor (quickstart: Option<Quickstart>)
      ensures this.quickstart == quickstart && name == ""
    {
      this.quickstart := quickstart;
      name := "";
    }
  }

  class CreateQuickstartOptions {
    var batchMode: bool
    /** ImportOptions.Organisation and ImportOptions.Repository. */
    var organisation: string
    var repository: string
    /** GitRepositoryOptions.Owner and GitRepositoryOptions.RepoName. */
    var owner: string
    var repoName: string
    /** Filter.ProjectName. */
    var projectName: string

    constructor (batchMode: bool, organisation: string, repository: string, projectName: string)
      ensures this.batchMode == batchMode && this.organisation == organisation && this.repository == repository
      ensures this.projectName == projectName && owner == "" && repoName == ""
    {
      this.batchMode := batchMode;
      this.organisation := organisation;
      this.repository := repository;
      this.projectName := projectName;
      owner := "";
      repoName := "";
    }

    /**
     * The naming part of Run. `details` is GetGitRepositoryDetails (asked
     * only outside batch mode), given by the repository name the user
     * entered.
     */
    method NameProject(q: QuickstartForm, details: Result<string>) returns (err: Option<NameError>)
      modifies this`owner, this`repoName, this`projectName, q`name
      ensures owner == organisation && repoName == repository
      ensures !batchMode && details.Err? ==>
                err == Some(DetailsError(details.msg)) && q.name == old(q.name) && projectName == old(projectName)
      ensures !batchMode && details.Ok? ==>
                var entered := if details.value != "" then details.value else repository;
                projectName == entered &&
                (entered == "" ==> err == Some(NoProjectName) && q.name == old(q.name)) &&
                (entered != "" ==> err.None? && q.name == entered)
      ensures batchMode ==>
                projectName == old(projectName) &&
                q.name == (if projectName != "" then projectName else repository) &&
                (err.Some? <==> q.name == "") &&
                (err.Some? ==> err == Some(MissingOption("project-name")))
    {
      owner := organisation;
      repoName := repository;
      var name := repoName;
      if !batchMode {
        if details.Err? {
          return Some(DetailsError(details.msg));
        }
        if details.value != "" {
          name := details.value;
        }
        projectName := name;
        if name == "" {
          return Some(NoProjectName);
        }
        q.name := name;
      } else {
        q.name := projectName;
        if q.name == "" {
          q.name := name;
        }
        if q.name == "" {
          return Some(MissingOption("project-name"));
        }
      }
      return None;
    }
  }

  const MLProjectSetError := "you have tried to select a machine-learning quickstart projectset please try again using jx create mlquickstart instead"

  /** The URL isMLProjectSet fetches. */
  function ProjectSetURL(q: Quickstart): string
  {
    "https://raw.githubusercontent.com/" + q.owner + "/" + q.name + "/master/projectset"
  }

  /**
   * isMLProjectSet. `fetch` is the HTTP GET of the projectset file and
   * yields its body; any failure makes the quickstart an ordinary one.
   */
  function IsMLProjectSet(q: Quickstart, fetch: string -> Result<string>): (r: bool)
    ensures r <==> HasPrefix(q.name, "ML-") && fetch(ProjectSetURL(q)).Ok? && Contains(fetch(ProjectSetURL(q)).value, "Tail")
  {
    if !HasPrefix(q.name, "ML-") then false
    else
      var body := fetch(ProjectSetURL(q));
      body.Ok? && Contains(body.value, "Tail")
  }

  /**
   * The start of createQuickstart: the directory the project is generated
   * into, and the error when the quickstart has nothing to download. The
   * download, unzip and rename are outside the model.
   */
  function DownloadTarget(q: Quickstart, formName: string, dir: string): (r: (string, Outcome))
    ensures r.0 == PathJoin([dir, formName])
    ensures r.1.Fail? <==> q.downloadZipURL == ""
    ensures r.1.Fail? ==> r.1.msg == "quickstart " + q.id + " does not have a download zip URL"
  {
    var answer := PathJoin([dir, formName]);
    if q.downloadZipURL == "" then (answer, Fail("quickstart " + q.id + " does not have a download zip URL"))
    else (answer, Pass)
  }

  /** The charts folder named after the quickstart: the part after the last "/", unless that "/" is the first character. */
  function ChartsFolder(quickstart: Option<Quickstart>): (r: string)
    ensures quickstart.None? ==> r == ""
    ensures quickstart.Some? ==> HasSuffix(quickstart.value.name, r)
    ensures quickstart.Some? && LastIndexOf(quickstart.value.name, '/') > 0 ==>
              r == quickstart.value.name[LastIndexOf(quickstart.value.name, '/') + 1..] && '/' !in r
    ensures quickstart.Some? && LastIndexOf(quickstart.value.name, '/') <= 0 ==> r == quickstart.value.name
  {
    var folder := if quickstart.Some? then quickstart.value.name else "";
    var idx := LastIndexOf(folder, '/');
    if idx > 0 then
      assert folder == folder[..idx + 1] + folder[idx + 1..];
      folder[idx + 1..]
    else folder
  }
}

module CreateQuickstartProperties {
  import opened Wrappers
  import opened Strings
  import opened CreateQuickstart

  /** The team's locations come first and stay as they were. */
  lemma {:induction false} OrganisationsKeepLocations(locations: seq<QuickStartLocation>, orgs: seq<string>)
    ensures locations <= WithOrganisations(locations, orgs)
  {
    if orgs != [] {
      OrganisationsKeepLocations(locations, orgs[..|orgs| - 1]);
    }
  }

  /** Afterwards every extra organisation has a GitHub location. */
  lemma {:induction false} OrganisationsCovered(locations: seq<QuickStartLocation>, orgs: seq<string>)
    ensures forall i :: 0 <= i < |orgs| ==> HasGitHubOwner(WithOrganisations(locations, orgs), orgs[i])
  {
    if orgs != [] {
      var init := orgs[..|orgs| - 1];
      OrganisationsCovered(locations, init);
      var before := WithOrganisations(locations, init);
      var org := orgs[|orgs| - 1];
      var after := WithOrganisations(locations, orgs);
      assert before <= after;
      forall i | 0 <= i < |orgs|
        ensures HasGitHubOwner(after, orgs[i])
      {
        if i < |init| {
          assert orgs[i] == init[i];
          var k :| 0 <= k < |before| && before[k].gitURL == GitHubURL && before[k].owner == orgs[i];
          assert after[k] == before[k];
        } else if !HasGitHubOwner(before, org) {
          assert after[|before|] == GitHubLocation(org);
        }
      }
    }
  }

  /** An organisation already configured, or named twice, adds nothing more. */
  lemma ConfiguredOrganisationNotAdded(locations: seq<QuickStartLocation>, org: string)
    requires HasGitHubOwner(locations, org)
    ensures WithOrganisations(locations, [org]) == locations
  {
    assert [org][..0] == [];
  }

  lemma RepeatedOrganisationAddedOnce(locations: seq<QuickStartLocation>, org: string)
    requires !HasGitHubOwner(locations, org)
    ensures WithOrganisations(locations, [org, org]) == locations + [GitHubLocation(org)]
  {
    assert [org, org][..1] == [org];
    assert [org][..0] == [];
    var once := locations + [GitHubLocation(org)];
    assert WithOrganisations(locations, [org]) == once;
    assert once[|locations|].gitURL == GitHubURL && once[|locations|].owner == org;
    assert HasGitHubOwner(once, org);
  }

  /** Every location is found under its git URL and owner. */
  lemma {:induction false} GroupedCovers(locations: seq<QuickStartLocation>)
    ensures forall i :: 0 <= i < |locations| ==>
              locations[i].gitURL in Grouped(locations) && locations[i].owner in Grouped(locations)[locations[i].gitURL]
  {
    if locations != [] {
      var init := locations[..|locations| - 1];
      GroupedCovers(init);
      forall i | 0 <= i < |init|
        ensures locations[i] == init[i]
      {
      }
    }
  }

  /** Every entry of gitMap is a location with exactly those keys. */
  lemma {:induction false} GroupedFromLocations(locations: seq<QuickStartLocation>, url: string, owner: string)
    requires url in Grouped(locations) && owner in Grouped(locations)[url]
    ensures Grouped(locations)[url][owner] in locations
    ensures Grouped(locations)[url][owner].gitURL == url && Grouped(locations)[url][owner].owner == owner
  {
    var init := locations[..|locations| - 1];
    var loc := locations[|locations| - 1];
    if !(url == loc.gitURL && owner == loc.owner) {
      GroupedFromLocations(init, url, owner);
    }
  }

  /** A later location with the same server and owner replaces the earlier one; other entries stay. */
  lemma LaterLocationWins(locations: seq<QuickStartLocation>, loc: QuickStartLocation, url: string, owner: string)
    ensures Grouped(locations + [loc])[loc.gitURL][loc.owner] == loc
    ensures url in Grouped(locations) && owner in Grouped(locations)[url] && (url != loc.gitURL || owner != loc.owner) ==>
              Grouped(locations + [loc])[url][owner] == Grouped(locations)[url][owner]
  {
    assert (locations + [loc])[..|locations|] == locations;
  }

  /** Examples of the charts folder: "jenkins-x-quickstarts/golang-http" gives "golang-http"; a leading "/" is kept. */
  lemma ChartsFolderExamples()
    ensures ChartsFolder(Some(Quickstart("", "", "owner/app", "u"))) == "app"
    ensures ChartsFolder(Some(Quickstart("", "", "/app", "u"))) == "/app"
  {
    assert LastIndexOf("owner/app", '/') == 5 by {
      assert "owner/app"[5] == '/';
      assert '/' !in "owner/app"[6..];
    }
    assert LastIndexOf("/app", '/') == 0 by {
      assert "/app"[0] == '/';
      assert '/' !in "/app"[1..];
    }
  }

  /** A name after the last interior "/" contains no "/". */
  lemma ChartsFolderHasNoSlash(q: Quickstart)
    requires LastIndexOf(q.name, '/') > 0
    ensures '/' !in ChartsFolder(Some(q))
  {
  }

  /** Without the "ML-" prefix nothing is fetched and the quickstart is ordinary. */
  lemma OrdinaryWithoutPrefix(q: Quickstart, fetch: string -> Result<string>)
    requires !HasPrefix(q.name, "ML-")
    ensures !IsMLProjectSet(q, fetch)
  {
  }
}
