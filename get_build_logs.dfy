/**
 * `jx get build logs` (pkg/jx/cmd/get_build_logs.go): which pipeline and
 * build is chosen and which log is tailed, for Jenkins (the job map and
 * its builds) and for prow (the build pods). The Jenkins client, the pod
 * listing, the build filter, the prompt and the log tailing are passed in;
 * the operations return what would be tailed.
 */
module GetBuildLogs {
  import opened Wrappers
  import opened Strings
  import opened PipelineNames

  datatype Job = Job(url: string)
  datatype Build = Build(url: string, number: int)

  const NoBuild := Build("", 0)

  const NoKnativeBuilds := "No knative builds have been triggered which match the current filter!"
  const NoPipelineFound := "No Pipeline found for name "
  const NoPodFound := "No Pod found for name "
  const NoInitContainers := "No InitContainers for Pod "
  const ForBuild := " for build: "
  const NoPipelineChosen := "No pipeline chosen"
  const NoPipelines := "No pipelines have been built!"
  const NoJob := "No Job exists yet called "
  const NoBuildFound := "No build found for name "
  const NumberSep := " number "
  const Master := "master"

  /** util.PickNameWithDefault: the user's choice among `names`, offered `defaultName`. */
  type Picker = (seq<string>, string) -> Result<string>

  /** The Jenkins calls getLastJenkinsBuild makes: GetBuild for a number, GetLastBuild. */
  datatype Jenkins = Jenkins(getBuild: (Job, int) -> Result<Build>, getLastBuild: Job -> Result<Build>)

  /**
   * getLastJenkinsBuild, without the retrying that --wait adds. `jobs` is
   * getJobMap; a missing job reads as a job with no URL.
   */
  function LastJenkinsBuild(name: string, buildNumber: int, client: Result<Jenkins>,
                            jobs: Result<map<string, Job>>): (r: (Build, Outcome))
    ensures client.Err? ==> r == (NoBuild, Fail(client.msg))
    ensures client.Ok? && jobs.Ok? && (name !in jobs.value || jobs.value[name].url == "") ==>
              r == (NoBuild, Fail(NoJob + name))
    ensures r.1.Pass? ==>
              r.0.url != "" && client.Ok? && jobs.Ok? && name in jobs.value &&
              var job := jobs.value[name];
              job.url != "" &&
              (buildNumber > 0 ==> client.value.getBuild(job, buildNumber) == Ok(r.0)) &&
              (buildNumber <= 0 ==> client.value.getLastBuild(job) == Ok(r.0))
    ensures client.Ok? && jobs.Ok? && name in jobs.value && jobs.value[name].url != "" ==>
              var job := jobs.value[name];
              var got := if buildNumber > 0 then client.value.getBuild(job, buildNumber) else client.value.getLastBuild(job);
              (got.Err? ==> r.1 == Fail(got.msg)) &&
              (got.Ok? && got.value.url == "" && buildNumber > 0 ==>
                 r == (got.value, Fail(NoBuildFound + name + NumberSep + IntToString(buildNumber)))) &&
              (got.Ok? && got.value.url == "" && buildNumber <= 0 ==> r == (got.value, Fail(NoBuildFound + name)))
  {
    if client.Err? then (NoBuild, Fail(client.msg))
    else if jobs.Err? then (NoBuild, Fail(jobs.msg))
    else
      var job := if name in jobs.value then jobs.value[name] else Job("");
      if job.url == "" then (NoBuild, Fail(NoJob + name))
      else
        var got := if buildNumber > 0 then client.value.getBuild(job, buildNumber) else client.value.getLastBuild(job);
        if got.Err? then (NoBuild, Fail(got.msg))
        else if got.value.url == "" then
          if buildNumber > 0 then (got.value, Fail(NoBuildFound + name + NumberSep + IntToString(buildNumber)))
          else (got.value, Fail(NoBuildFound + name))
        else (got.value, Pass)
  }

  /**
   * The Jenkins part of Run: the pipeline to show and its build, whose log
   * is then tailed. Outside batch mode with no argument the user picks
   * among the sorted job names, offered the first on master.
   */
  method RunJenkins(batchMode: bool, args: seq<string>, jobs: Result<map<string, Job>>, pick: Picker,
                    buildNumber: int, client: Result<Jenkins>) returns (r: Result<(string, Build)>)
    ensures (batchMode || args != []) && args == [] ==> r == Err(NoPipelineChosen)
    ensures (batchMode || args != []) && args != [] ==>
              var last := LastJenkinsBuild(args[0], buildNumber, client, jobs);
              (last.1.Fail? ==> r == Err(last.1.msg)) && (last.1.Pass? ==> r == Ok((args[0], last.0)))
    ensures !batchMode && args == [] && jobs.Err? ==> r == Err(jobs.msg)
    ensures !batchMode && args == [] && jobs.Ok? && |jobs.value| == 0 ==> r == Err(NoPipelines)
    ensures !batchMode && args == [] && jobs.Ok? && |jobs.value| > 0 ==>
              exists names: seq<string> ::
                Sorted(names) && Distinct(names) && (forall k :: k in names <==> k in jobs.value) &&
                var picked := pick(names, FirstMaster(names));
                (picked.Err? ==> r == Err(picked.msg)) &&
                (picked.Ok? ==>
                   var last := LastJenkinsBuild(picked.value, buildNumber, client, jobs);
                   (last.1.Fail? ==> r == Err(last.1.msg)) && (last.1.Pass? ==> r == Ok((picked.value, last.0))))
    ensures r.Ok? ==> r.value.1.url != "" && jobs.Ok? && r.value.0 in jobs.value
  {
    var chosen := args;
    if !batchMode && |args| == 0 {
      if jobs.Err? {
        return Err(jobs.msg);
      }
      var names := SortedKeys(jobs.value);
      if |names| == 0 {
        assert forall k :: k !in jobs.value;
        assert jobs.value.Keys == {};
        return Err(NoPipelines);
      }
      assert names[0] in jobs.value;
      var defaultName := DefaultName(names);
      var name := pick(names, defaultName);
      if name.Err? {
        return Err(name.msg);
      }
      var last := LastJenkinsBuild(name.value, buildNumber, client, jobs);
      if last.1.Fail? {
        return Err(last.1.msg);
      }
      return Ok((name.value, last.0));
    }
    if |chosen| == 0 {
      return Err(NoPipelineChosen);
    }
    var name := chosen[0];
    var last := LastJenkinsBuild(name, buildNumber, client, jobs);
    if last.1.Fail? {
      return Err(last.1.msg);
    }
    return Ok((name, last.0));
  }

  // ---------------------------------------------------------------------------
  // Prow builds
  // ---------------------------------------------------------------------------

  datatype Pod = Pod(name: string, initContainers: seq<string>)

  /** builds.BuildPodInfo: the parts the command reads. */
  datatype BuildPodInfo = BuildPodInfo(pipeline: string, build: string, branch: string, pod: Option<Pod>)

  /** The build filter, CreateBuildPodInfo and SortBuildPodInfos, which live in the builds package. */
  datatype Builds = Builds(infoOf: Pod -> BuildPodInfo, matches: BuildPodInfo -> bool,
                           sortInfos: seq<BuildPodInfo> -> seq<BuildPodInfo>)

  /** The infos of the pods with init containers whose info matches the filter, in pod order. */
  function Kept(pods: seq<Pod>, b: Builds): (r: seq<BuildPodInfo>)
    ensures |r| <= |pods|
  {
    if pods == [] then []
    else
      var rest := Kept(pods[..|pods| - 1], b);
      var pod := pods[|pods| - 1];
      if |pod.initContainers| > 0 && b.matches(b.infoOf(pod)) then rest + [b.infoOf(pod)] else rest
  }

  /** The first loop of getProwBuildLog. */
  method BuildInfos(pods: seq<Pod>, b: Builds) returns (infos: seq<BuildPodInfo>)
    ensures infos == Kept(pods, b)
  {
    infos := [];
    var i := 0;
    while i < |pods|
      invariant 0 <= i <= |pods|
      invariant infos == Kept(pods[..i], b)
    {
      assert pods[..i + 1][..i] == pods[..i];
      var pod := pods[i];
      if |pod.initContainers| > 0 {
        var info := b.infoOf(pod);
        if b.matches(info) {
          infos := infos + [info];
        }
      }
      i := i + 1;
    }
    assert pods[..i] == pods;
  }

  /** The name a build is offered under. */
  function Label(info: BuildPodInfo): string
  {
    info.pipeline + " #" + info.build
  }

  /** buildMap: labels to infos, a later info with the same label replacing an earlier one. */
  function BuildMap(infos: seq<BuildPodInfo>): map<string, BuildPodInfo>
  {
    if infos == [] then map[]
    else BuildMap(infos[..|infos| - 1])[Label(infos[|infos| - 1]) := infos[|infos| - 1]]
  }

  /** The label of the last build on branch master, or "". */
  function LastMaster(infos: seq<BuildPodInfo>): string
  {
    if infos == [] then ""
    else if infos[|infos| - 1].branch == Master then Label(infos[|infos| - 1])
    else LastMaster(infos[..|infos| - 1])
  }

  /** The second loop of getProwBuildLog: the labels, the map and the default. */
  method LabelBuilds(infos: seq<BuildPodInfo>) returns (names: seq<string>, buildMap: map<string, BuildPodInfo>, defaultName: string)
    ensures |names| == |infos| && forall i :: 0 <= i < |infos| ==> names[i] == Label(infos[i])
    ensures buildMap == BuildMap(infos)
    ensures defaultName == LastMaster(infos)
  {
    names := [];
    buildMap := map[];
    defaultName := "";
    var i := 0;
    while i < |infos|
      invariant 0 <= i <= |infos|
      invariant |names| == i && forall k :: 0 <= k < i ==> names[k] == Label(infos[k])
      invariant buildMap == BuildMap(infos[..i])
      invariant defaultName == LastMaster(infos[..i])
    {
      LabelSnoc(infos, i);
      var build := infos[i];
      var name := Label(build);
      names := names + [name];
      buildMap := buildMap[name := build];
      if build.branch == Master {
        defaultName := name;
      }
      i := i + 1;
    }
    assert infos[..i] == infos;
  }

  /** One more build adds its label to the map, and becomes the default when on master. */
  lemma LabelSnoc(infos: seq<BuildPodInfo>, i: nat)
    requires i < |infos|
    ensures BuildMap(infos[..i + 1]) == BuildMap(infos[..i])[Label(infos[i]) := infos[i]]
    ensures LastMaster(infos[..i + 1]) == if infos[i].branch == Master then Label(infos[i]) else LastMaster(infos[..i])
  {
    assert infos[..i + 1][..i] == infos[..i];
  }

  /** What the prow part tails: the pod and its last init container. */
  datatype PodLog = PodLog(ns: string, pod: string, container: string)

  /**
   * getProwBuildLog. `pods` is GetBuildPods in `ns`; the chosen build is
   * the argument or, without one, the user's pick among the labels with the
   * last master build offered.
   */
  method ProwBuildLog(ns: string, pods: Result<seq<Pod>>, b: Builds, args: seq<string>, pick: Picker)
    returns (r: Result<PodLog>)
    ensures pods.Err? ==> r == Err(pods.msg)
    ensures pods.Ok? && b.sortInfos(Kept(pods.value, b)) == [] ==>
              r == Err(NoKnativeBuilds)
    ensures pods.Ok? && args != [] && b.sortInfos(Kept(pods.value, b)) != [] ==>
              var m := BuildMap(b.sortInfos(Kept(pods.value, b)));
              var name := args[0];
              (name !in m ==> r == Err(NoPipelineFound + name)) &&
              (name in m && m[name].pod.None? ==> r == Err(NoPodFound + name)) &&
              (name in m && m[name].pod.Some? && m[name].pod.value.initContainers == [] ==>
                 r == Err(NoInitContainers + m[name].pod.value.name + ForBuild + name)) &&
              (name in m && m[name].pod.Some? && m[name].pod.value.initContainers != [] ==>
                 var pod := m[name].pod.value;
                 r == Ok(PodLog(ns, pod.name, pod.initContainers[|pod.initContainers| - 1])))
    ensures pods.Ok? && args == [] && b.sortInfos(Kept(pods.value, b)) != [] ==>
              var infos := b.sortInfos(Kept(pods.value, b));
              var labels := seq(|infos|, i requires 0 <= i < |infos| => Label(infos[i]));
              var picked := pick(labels, LastMaster(infos));
              var m := BuildMap(infos);
              (picked.Err? ==> r == Err(picked.msg)) &&
              (picked.Ok? && picked.value !in m ==> r == Err(NoPipelineFound + picked.value)) &&
              (picked.Ok? && picked.value in m && m[picked.value].pod.None? ==>
                 r == Err(NoPodFound + picked.value)) &&
              (picked.Ok? && picked.value in m && m[picked.value].pod.Some? &&
               m[picked.value].pod.value.initContainers == [] ==>
                 r == Err(NoInitContainers + m[picked.value].pod.value.name + ForBuild + picked.value)) &&
              (picked.Ok? && picked.value in m && m[picked.value].pod.Some? &&
               m[picked.value].pod.value.initContainers != [] ==>
                 var pod := m[picked.value].pod.value;
                 r == Ok(PodLog(ns, pod.name, pod.initContainers[|pod.initContainers| - 1])))
    ensures r.Ok? ==> pods.Ok?
  {
    if pods.Err? {
      return Err(pods.msg);
    }
    var kept := BuildInfos(pods.value, b);
    var infos := b.sortInfos(kept);
    if |infos| == 0 {
      return Err(NoKnativeBuilds);
    }
    var names, buildMap, defaultName := LabelBuilds(infos);
    var chosen := args;
    if |chosen| == 0 {
      assert names == seq(|infos|, i requires 0 <= i < |infos| => Label(infos[i]));
      var name := pick(names, defaultName);
      if name.Err? {
        return Err(name.msg);
      }
      chosen := [name.value];
    }
    var name := chosen[0];
    if name !in buildMap {
      return Err(NoPipelineFound + name);
    }
    var build := buildMap[name];
    if build.pod.None? {
      return Err(NoPodFound + name);
    }
    var pod := build.pod.value;
    if |pod.initContainers| <= 0 {
      return Err(NoInitContainers + pod.name + ForBuild + name);
    }
    return Ok(PodLog(ns, pod.name, pod.initContainers[|pod.initContainers| - 1]));
  }
}

module GetBuildLogsProperties {
  import opened Wrappers
  import opened Strings
  import opened GetBuildLogs

  /** Every kept build comes from a pod with init containers and passes the filter. */
  lemma {:induction false} KeptMatch(pods: seq<Pod>, b: Builds, info: BuildPodInfo)
    requires info in Kept(pods, b)
    ensures b.matches(info)
    ensures exists i :: 0 <= i < |pods| && |pods[i].initContainers| > 0 && b.infoOf(pods[i]) == info
  {
    var init := pods[..|pods| - 1];
    var pod := pods[|pods| - 1];
    if info in Kept(init, b) {
      KeptMatch(init, b, info);
      var i :| 0 <= i < |init| && |init[i].initContainers| > 0 && b.infoOf(init[i]) == info;
      assert pods[i] == init[i];
    } else {
      assert info == b.infoOf(pod);
    }
  }

  /** Every offered label finds a build, and the build found carries that label. */
  lemma {:induction false} BuildMapLabels(infos: seq<BuildPodInfo>)
    ensures forall i :: 0 <= i < |infos| ==> Label(infos[i]) in BuildMap(infos)
    ensures forall l :: l in BuildMap(infos) ==> Label(BuildMap(infos)[l]) == l && BuildMap(infos)[l] in infos
  {
    if infos != [] {
      var init := infos[..|infos| - 1];
      BuildMapLabels(init);
      forall i | 0 <= i < |init|
        ensures init[i] == infos[i]
      {
      }
    }
  }

  /** Of several builds with one label, the later one is shown. */
  lemma LaterBuildWins(infos: seq<BuildPodInfo>, info: BuildPodInfo)
    ensures BuildMap(infos + [info])[Label(info)] == info
  {
    assert (infos + [info])[..|infos|] == infos;
  }

  /** The default is the label of the last master build, and "" when no build is on master. */
  lemma {:induction false} LastMasterIsLast(infos: seq<BuildPodInfo>)
    ensures LastMaster(infos) == "" <==> forall i :: 0 <= i < |infos| ==> infos[i].branch != Master
    ensures LastMaster(infos) != "" ==>
              exists i :: 0 <= i < |infos| && infos[i].branch == Master && LastMaster(infos) == Label(infos[i]) &&
                          forall j :: i < j < |infos| ==> infos[j].branch != Master
  {
    if infos != [] {
      var init := infos[..|infos| - 1];
      LastMasterIsLast(init);
      var last := infos[|infos| - 1];
      assert Label(last) != "" by {
        assert |Label(last)| >= 2;
      }
      forall i | 0 <= i < |init|
        ensures init[i] == infos[i]
      {
      }
    }
  }

  /** A missing job and a job without URL are the same error. */
  lemma MissingJob(name: string, buildNumber: int, client: Jenkins, jobs: map<string, Job>)
    requires name !in jobs
    ensures LastJenkinsBuild(name, buildNumber, Ok(client), Ok(jobs)) ==
            LastJenkinsBuild(name, buildNumber, Ok(client), Ok(jobs[name := Job("")]))
  {
  }

  /** A positive build number never asks for the last build, and a non-positive one never asks for a numbered one. */
  lemma BuildNumberChoosesCall(name: string, buildNumber: int, client: Jenkins, jobs: map<string, Job>)
    requires name in jobs && jobs[name].url != ""
    ensures buildNumber > 0 ==>
              LastJenkinsBuild(name, buildNumber, Ok(client), Ok(jobs)) ==
              LastJenkinsBuild(name, buildNumber, Ok(client.(getLastBuild := _ => Err("unused"))), Ok(jobs))
    ensures buildNumber <= 0 ==>
              LastJenkinsBuild(name, buildNumber, Ok(client), Ok(jobs)) ==
              LastJenkinsBuild(name, buildNumber, Ok(client.(getBuild := (_, _) => Err("unused"))), Ok(jobs))
  {
  }
}
