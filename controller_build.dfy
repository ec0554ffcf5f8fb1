/**
 * The build-pod reconciler of `jx controller build`: for every Knative build
 * pod it keeps a PipelineActivity up to date with the pod's init containers.
 */
module ControllerBuild {
  import opened Wrappers
  import opened Strings

  /** metav1.Time, as a count of time units; 0 is Go's zero time (IsZero). */
  type Time = nat

  /** v1.ActivityStatusType; `Unset` is the empty status of a fresh stage. */
  datatype Status = Unset | Pending | Running | Succeeded | Failed | Aborted

  datatype Terminated = Terminated(exitCode: int, startedAt: Time, finishedAt: Time)

  /** An init container's status: its name and its Running / Terminated states (nil = None). */
  datatype ContainerStatus = ContainerStatus(name: string, running: Option<Time>, terminated: Option<Terminated>)

  /** An init container of the pod spec. */
  datatype Container = Container(name: string, args: seq<string>)

  datatype Pod = Pod(
    name: string,
    labels: Option<map<string, string>>,
    initContainers: seq<Container>,
    initContainerStatuses: seq<ContainerStatus>)

  /** A StageActivityStep; nil timestamps are None. */
  datatype Stage = Stage(name: string, status: Status, started: Option<Time>, completed: Option<Time>, description: string)

  /** A PipelineActivityStep: either it points at a stage, or its Stage pointer is nil (a promote or preview step). */
  datatype Step = StageStep(stage: Stage) | OtherStep

  /**
   * The parts of a PipelineActivitySpec the reconciler reads or writes.
   * `repositoryName` and `branchName` are what activity.RepositoryName() and
   * activity.BranchName() return.
   */
  datatype ActivitySpec = ActivitySpec(
    gitURL: string,
    gitOwner: string,
    repositoryName: string,
    branchName: string,
    build: string,
    status: Status,
    started: Option<Time>,
    completed: Option<Time>,
    buildLogsURL: string,
    steps: seq<Step>)

  /** A v1.PipelineActivity, which the reconciler updates in place. */
  class PipelineActivity {
    var name: string
    var spec: ActivitySpec

    constructor (name: string, spec: ActivitySpec)
      ensures this.name == name && this.spec == spec
    {
      this.name := name;
      this.spec := spec;
    }
  }

  /** A v1.StorageLocation; IsEmpty is taken to mean that both URLs are empty. */
  datatype Location = Location(gitURL: string, bucketURL: string)

  predicate IsEmptyLocation(l: Location)
  {
    l.gitURL == "" && l.bucketURL == ""
  }

  /**
   * What the environment answers while the reconciler runs: whether the dev
   * Environment is in the cache and the storage location its team settings
   * give for logs (nil = None), whether the pod's log could be fetched, and
   * whether publishing it to the gh-pages branch (mkdir, write, add, commit,
   * push) succeeded.
   */
  datatype LogEnv = LogEnv(devEnvFound: bool, teamLogsLocation: Option<Location>, logsAvailable: bool, published: bool)

  // ---------------------------------------------------------------- the pod filter

  /** The build name of a pod: the new build-name label, else the old one ("" when neither is set). */
  function BuildName(labels: map<string, string>, labelBuildName: string, labelOldBuildName: string): (b: string)
    ensures b != "" ==> (labelBuildName in labels && b == labels[labelBuildName])
                        || (labelOldBuildName in labels && b == labels[labelOldBuildName])
    ensures b == "" <==> (labelBuildName !in labels || labels[labelBuildName] == "")
                         && (labelOldBuildName !in labels || labels[labelOldBuildName] == "")
  {
    var b := if labelBuildName in labels then labels[labelBuildName] else "";
    if b != "" then b else if labelOldBuildName in labels then labels[labelOldBuildName] else ""
  }

  /** The parts of builds.BuildPodInfo that decide whether a PromoteStepActivityKey exists. */
  datatype BuildPodInfo = BuildPodInfo(gitURL: string, hasGitInfo: bool)

  /** What onPod receives from the informer. */
  datatype PodEvent = NotAPod | NilPod | APod(pod: Pod)

  /**
   * What onPod does with an event: nothing, an update that is not written
   * back, an update that is written back, or the nil dereference of an
   * activity that GetOrCreate did not return.
   */
  datatype PodOutcome = Ignored | Unchanged | Persisted | NilActivity

  /** The pods onPod acts on: a non-nil pod with labels that give a build name and build info with a git URL and git info. */
  predicate Relevant(ev: PodEvent, labelBuildName: string, labelOldBuildName: string, infoOf: Pod -> BuildPodInfo)
  {
    ev.APod? && ev.pod.labels.Some?
    && BuildName(ev.pod.labels.value, labelBuildName, labelOldBuildName) != ""
    && infoOf(ev.pod).gitURL != "" && infoOf(ev.pod).hasGitInfo
  }

  /**
   * onPod: filters the event, updates the activity that GetOrCreate returned
   * for the pod's key, and writes it back only when the update reports a
   * change. A GetOrCreate error is only logged, so the update runs on
   * whatever activity came back; `null` stands for a nil one.
   */
  method OnPod(ev: PodEvent, labelBuildName: string, labelOldBuildName: string, infoOf: Pod -> BuildPodInfo,
               activity: PipelineActivity?, env: LogEnv)
    returns (outcome: PodOutcome)
    modifies activity
    ensures outcome == Ignored <==> !Relevant(ev, labelBuildName, labelOldBuildName, infoOf)
    ensures outcome == NilActivity <==> Relevant(ev, labelBuildName, labelOldBuildName, infoOf) && activity == null
    ensures activity != null && outcome == Ignored ==> activity.spec == old(activity.spec)
    ensures activity != null && outcome != Ignored ==>
      activity.spec == Updated(old(activity.spec), ev.pod, env)
      && (outcome == Persisted <==> ChangedAsWritten(old(activity.spec), activity.spec))
    ensures activity != null ==> activity.name == old(activity.name)
  {
    outcome := Ignored;
    if !ev.APod? {
      return;
    }
    var pod := ev.pod;
    if pod.labels.Some? {
      var buildName := BuildName(pod.labels.value, labelBuildName, labelOldBuildName);
      if buildName != "" {
        var info := infoOf(pod);
        if info.gitURL != "" && info.hasGitInfo {
          if activity == null {
            return NilActivity;
          }
          var changed := UpdatePipelineActivity(activity, pod, env);
          outcome := if changed then Persisted else Unchanged;
        }
      }
    }
  }

  // ---------------------------------------------------------------- stage titles and descriptions

  /** The stage title of an init container: "build-step-" dropped, dashes to spaces, title-cased. */
  function StageTitle(containerName: string): (t: string)
    ensures |t| == |TrimPrefix(containerName, "build-step-")|
    ensures forall i :: 0 <= i < |t| ==> t[i] != '-'
  {
    Title(ReplaceChar(TrimPrefix(containerName, "build-step-"), '-', ' '))
  }

  /** The init container whose `-url` argument describes the step called `name`. */
  predicate DescribesStep(c: Container, name: string)
  {
    c.name == name && |c.args| > 0 && c.args[0] == "-url" && |c.args| > 1
  }

  /** The description of a step: the `-url` argument of the first init container that describes it, else "". */
  function StepDescription(name: string, containers: seq<Container>): string
  {
    if containers == [] then ""
    else if DescribesStep(containers[0], name) then containers[0].args[1]
    else StepDescription(name, containers[1..])
  }

  /** createStepDescription. */
  method CreateStepDescription(initContainerName: string, pod: Pod) returns (d: string)
    ensures d == StepDescription(initContainerName, pod.initContainers)
    ensures (forall i :: 0 <= i < |pod.initContainers| ==> !DescribesStep(pod.initContainers[i], initContainerName)) ==> d == ""
    ensures forall i :: 0 <= i < |pod.initContainers| && DescribesStep(pod.initContainers[i], initContainerName)
                        && (forall j :: 0 <= j < i ==> !DescribesStep(pod.initContainers[j], initContainerName))
                        ==> d == pod.initContainers[i].args[1]
  {
    var cs := pod.initContainers;
    var k := 0;
    while k < |cs|
      invariant 0 <= k <= |cs|
      invariant forall j :: 0 <= j < k ==> !DescribesStep(cs[j], initContainerName)
      invariant StepDescription(initContainerName, cs) == StepDescription(initContainerName, cs[k..])
    {
      var c := cs[k];
      var args := c.args;
      if c.name == initContainerName && |args| > 0 {
        if args[0] == "-url" && |args| > 1 {
          assert cs[k..][0] == c;
          return args[1];
        }
      }
      assert cs[k..][1..] == cs[k + 1..];
      k := k + 1;
    }
    d := "";
  }

  // ---------------------------------------------------------------- one init container

  /** The stage status an init container's state gives. */
  function ContainerStageStatus(c: ContainerStatus): Status
  {
    if c.terminated.Some? then (if c.terminated.value.exitCode == 0 then Succeeded else Failed)
    else if c.running.Some? then Running
    else Pending
  }

  /** startedAt: from the Running state, else from the Terminated state, else zero. */
  function StartedAt(c: ContainerStatus): Time
  {
    if c.running.Some? then c.running.value
    else if c.terminated.Some? then c.terminated.value.startedAt
    else 0
  }

  /** finishedAt: from the Terminated state, and only when the container is not running. */
  function FinishedAt(c: ContainerStatus): Time
  {
    if c.running.None? && c.terminated.Some? then c.terminated.value.finishedAt else 0
  }

  /** The stage after an init container's state is copied into it. */
  function ApplyContainer(s: Stage, c: ContainerStatus, pod: Pod): Stage
  {
    s.(status := ContainerStageStatus(c),
       started := if StartedAt(c) != 0 then Some(StartedAt(c)) else s.started,
       completed := if FinishedAt(c) != 0 then Some(FinishedAt(c)) else s.completed,
       description := StepDescription(c.name, pod.initContainers))
  }

  /** The index of the first step whose stage has the given name, or -1. */
  function StageIndex(steps: seq<Step>, title: string): (k: int)
    ensures -1 <= k < |steps|
    ensures k >= 0 ==> steps[k].StageStep? && steps[k].stage.name == title
    ensures forall j :: 0 <= j < |steps| && (k < 0 || j < k) ==> !(steps[j].StageStep? && steps[j].stage.name == title)
  {
    if steps == [] then -1
    else
      var k := StageIndex(steps[..|steps| - 1], title);
      if k >= 0 then k
      else if steps[|steps| - 1].StageStep? && steps[|steps| - 1].stage.name == title then |steps| - 1
      else -1
  }

  /** A stage as kube.GetOrCreateStage creates it. */
  function NewStage(title: string): Stage
  {
    Stage(title, Unset, None, None, "")
  }

  /** kube.GetOrCreateStage, on the step list: the steps unchanged if a stage has that title, else with a new stage appended. */
  function WithStage(steps: seq<Step>, title: string): (r: seq<Step>)
    ensures StageIndex(r, title) >= 0
    ensures StageIndex(steps, title) >= 0 ==> r == steps
    ensures StageIndex(steps, title) < 0 ==> r == steps + [StageStep(NewStage(title))] && StageIndex(r, title) == |steps|
  {
    if StageIndex(steps, title) >= 0 then steps
    else
      var r := steps + [StageStep(NewStage(title))];
      assert r[..|r| - 1] == steps;
      r
  }

  /** The steps after one init container status has been processed. */
  function ApplyOne(steps: seq<Step>, c: ContainerStatus, pod: Pod): (r: seq<Step>)
    ensures |steps| <= |r| <= |steps| + 1
  {
    var s := WithStage(steps, StageTitle(c.name));
    var k := StageIndex(s, StageTitle(c.name));
    s[k := StageStep(ApplyContainer(s[k].stage, c, pod))]
  }

  /** The steps after the init container statuses `cs` have been processed in order. */
  function ApplyContainers(steps: seq<Step>, cs: seq<ContainerStatus>, pod: Pod): (r: seq<Step>)
    ensures |steps| <= |r| <= |steps| + |cs|
  {
    if cs == [] then steps else ApplyOne(ApplyContainers(steps, cs[..|cs| - 1], pod), cs[|cs| - 1], pod)
  }

  // ---------------------------------------------------------------- the fold over the steps

  /** A stage is finished when it has a non-zero completion time. */
  predicate Finished(s: Stage)
  {
    s.completed.Some? && s.completed.value != 0
  }

  /** Every stage is finished, and none is Running or Pending. */
  predicate AllCompleted(steps: seq<Step>)
  {
    forall i :: 0 <= i < |steps| && steps[i].StageStep? ==>
      Finished(steps[i].stage) && steps[i].stage.status != Running && steps[i].stage.status != Pending
  }

  /** Some finished stage did not succeed. */
  predicate AnyFailed(steps: seq<Step>)
  {
    exists i :: 0 <= i < |steps| && steps[i].StageStep? && Finished(steps[i].stage) && steps[i].stage.status != Succeeded
  }

  /** The latest completion time of a finished stage, or zero when none is finished. */
  function LatestCompletion(steps: seq<Step>): Time
  {
    if steps == [] then 0
    else
      var before := LatestCompletion(steps[..|steps| - 1]);
      var last := steps[|steps| - 1];
      if last.StageStep? && Finished(last.stage) && (before == 0 || last.stage.completed.value > before)
      then last.stage.completed.value
      else before
  }

  /** The start time of the first stage, in step order, that has one. */
  function FirstStart(steps: seq<Step>): Option<Time>
  {
    if steps == [] then None
    else
      var before := FirstStart(steps[..|steps| - 1]);
      var last := steps[|steps| - 1];
      if before.Some? then before
      else if last.StageStep? && last.stage.started.Some? then last.stage.started
      else None
  }

  /** The build number used in the log file name: Spec.Build, defaulting to "1". */
  function LogBuildNumber(spec: ActivitySpec): string
  {
    if spec.build == "" then "1" else spec.build
  }

  /** The path of the log file inside the gh-pages branch. */
  function LogFileName(spec: ActivitySpec): string
  {
    var pathDir := PathJoin(["jenkins-x", "logs", spec.gitOwner, spec.repositoryName, spec.branchName]);
    PathJoin([pathDir, LogBuildNumber(spec) + ".log"])
  }

  /** The GitHub pages URL a published log is served at. */
  function LogURL(spec: ActivitySpec): string
  {
    "https://" + spec.gitOwner + ".github.io/" + spec.repositoryName + "/" + LogFileName(spec)
  }

  /** generateBuildLogURL, with the log fetch and the git publication taken from the environment. */
  function GenerateBuildLogURL(spec: ActivitySpec, location: Location, env: LogEnv): (url: string)
    ensures url != "" <==> env.logsAvailable && location.gitURL != "" && env.published
    ensures url != "" ==> url == LogURL(spec)
  {
    if !env.logsAvailable then ""
    else if location.gitURL == "" then ""
    else if !env.published then ""
    else LogURL(spec)
  }

  /** The storage location for logs: the dev environment's, else an empty one, falling back to the activity's git URL when empty. */
  function LogsLocation(spec: ActivitySpec, env: LogEnv): Location
  {
    var location := if env.devEnvFound then env.teamLogsLocation else None;
    var l := location.GetOr(Location("", ""));
    if IsEmptyLocation(l) then l.(gitURL := spec.gitURL) else l
  }

  /** Whether the logs URL gets regenerated: it is empty or does not mention the pod. */
  predicate NeedsLogsURL(url: string, pod: Pod)
  {
    url == "" || !Contains(url, pod.name)
  }

  /** The logs URL once all stages completed: regenerated when empty or not mentioning the pod, else kept. */
  function FinalLogsURL(s: ActivitySpec, pod: Pod, env: LogEnv): string
  {
    if NeedsLogsURL(s.buildLogsURL, pod) then GenerateBuildLogURL(s, LogsLocation(s, env), env) else s.buildLogsURL
  }

  /** The spec-level effect of the fold over `s.steps`, given the activity's spec before the fold. */
  function Aggregate(s: ActivitySpec, pod: Pod, env: LogEnv): (r: ActivitySpec)
    ensures r.steps == s.steps && r.status != Pending
    ensures s.started.Some? ==> r.started == s.started
  {
    Outcome(s.(started := if s.started.Some? then s.started else FirstStart(s.steps)),
            AllCompleted(s.steps), AnyFailed(s.steps), LatestCompletion(s.steps), pod, env)
  }

  /** What the end of the fold writes, from what the fold found. */
  function Outcome(s: ActivitySpec, allCompleted: bool, failed: bool, latest: Time, pod: Pod, env: LogEnv): ActivitySpec
  {
    if allCompleted then
      s.(status := if failed then Failed else Succeeded,
         completed := if latest != 0 then Some(latest) else s.completed,
         buildLogsURL := FinalLogsURL(s, pod, env))
    else
      s.(status := Running)
  }

  /** The activity spec after updatePipelineActivity. */
  function Updated(s: ActivitySpec, pod: Pod, env: LogEnv): (r: ActivitySpec)
    ensures r.status != Pending && |s.steps| <= |r.steps|
    ensures s.started.Some? ==> r.started == s.started
  {
    Aggregate(s.(steps := ApplyContainers(s.steps, pod.initContainerStatuses, pod)), pod, env)
  }

  /**
   * The result of reflect.DeepEqual(&copy, activity) negated. The copy is a
   * shallow struct copy: its steps point at the very stage objects that the
   * update edits, so only the spec-level fields and the number of steps can
   * differ from it.
   */
  predicate ChangedAsWritten(before: ActivitySpec, after: ActivitySpec)
  {
    before.status != after.status || before.started != after.started || before.completed != after.completed
    || before.buildLogsURL != after.buildLogsURL || |before.steps| != |after.steps|
  }

  /** updatePipelineActivity. */
  method UpdatePipelineActivity(activity: PipelineActivity, pod: Pod, env: LogEnv) returns (changed: bool)
    modifies activity`spec
    ensures activity.spec == Updated(old(activity.spec), pod, env)
    ensures changed == ChangedAsWritten(old(activity.spec), activity.spec)
  {
    var copy := activity.spec;
    var cs := pod.initContainerStatuses;
    var i := 0;
    while i < |cs|
      invariant 0 <= i <= |cs|
      invariant activity.spec == copy.(steps := ApplyContainers(copy.steps, cs[..i], pod))
    {
      UpdateStage(activity, cs[i], pod);
      ApplyContainersStep(copy.steps, cs, i, pod);
      i := i + 1;
    }
    assert cs[..i] == cs;
    AggregateSteps(activity, pod, env);
    changed := ChangedAsWritten(copy, activity.spec);
  }

  lemma ApplyContainersStep(steps: seq<Step>, cs: seq<ContainerStatus>, i: nat, pod: Pod)
    requires i < |cs|
    ensures ApplyContainers(steps, cs[..i + 1], pod) == ApplyOne(ApplyContainers(steps, cs[..i], pod), cs[i], pod)
  {
    assert cs[..i + 1][..i] == cs[..i];
  }

  /** The body of the loop over the init container statuses: find or create the stage and copy the container's state into it. */
  method UpdateStage(activity: PipelineActivity, c: ContainerStatus, pod: Pod)
    modifies activity`spec
    ensures activity.spec == old(activity.spec).(steps := ApplyOne(old(activity.spec).steps, c, pod))
  {
    var title := StageTitle(c.name);
    var steps := WithStage(activity.spec.steps, title);
    var k := StageIndex(steps, title);
    var stage := steps[k].stage;
    var startedAt: Time := 0;
    var finishedAt: Time := 0;
    if c.running.Some? {
      startedAt := c.running.value;
    } else if c.terminated.Some? {
      startedAt := c.terminated.value.startedAt;
      finishedAt := c.terminated.value.finishedAt;
      if finishedAt != 0 {
        stage := stage.(completed := Some(finishedAt));
      }
    }
    if startedAt != 0 {
      stage := stage.(started := Some(startedAt));
    }
    var description := CreateStepDescription(c.name, pod);
    stage := stage.(description := description);
    if c.terminated.Some? {
      if c.terminated.value.exitCode == 0 {
        stage := stage.(status := Succeeded);
      } else {
        stage := stage.(status := Failed);
      }
    } else {
      if c.running.Some? {
        stage := stage.(status := Running);
      } else {
        stage := stage.(status := Pending);
      }
    }
    activity.spec := activity.spec.(steps := steps[k := StageStep(stage)]);
  }

  /** The fold over the steps and the aggregate status, timestamps and logs URL it derives. */
  method AggregateSteps(activity: PipelineActivity, pod: Pod, env: LogEnv)
    modifies activity`spec
    ensures activity.spec == Aggregate(old(activity.spec), pod, env)
  {
    var allCompleted, failed, running, biggestFinishedAt := FoldSteps(activity);
    var spec := Finish(activity.spec, allCompleted, failed, running, biggestFinishedAt, pod, env);
    activity.spec := spec;
  }

  /** The logs URL step of a completed activity. */
  method LogsURLOnCompletion(spec: ActivitySpec, pod: Pod, env: LogEnv) returns (url: string)
    ensures url == FinalLogsURL(spec, pod, env)
  {
    url := spec.buildLogsURL;
    if spec.buildLogsURL == "" || !Contains(spec.buildLogsURL, pod.name) {
      var location: Option<Location> := None;
      if env.devEnvFound {
        location := env.teamLogsLocation;
      }
      var loc := location.GetOr(Location("", ""));
      if IsEmptyLocation(loc) {
        loc := loc.(gitURL := spec.gitURL);
      }
      url := GenerateBuildLogURL(spec, loc, env);
    }
  }

  /** The statements after the loop over the steps, on the spec the loop left. */
  method Finish(spec0: ActivitySpec, allCompleted: bool, failed: bool, running: bool, biggestFinishedAt: Time, pod: Pod, env: LogEnv)
    returns (spec: ActivitySpec)
    requires running
    ensures spec == Outcome(spec0, allCompleted, failed, biggestFinishedAt, pod, env)
  {
    spec := spec0;
    if allCompleted {
      if failed {
        spec := spec.(status := Failed);
      } else {
        spec := spec.(status := Succeeded);
      }
      if biggestFinishedAt != 0 {
        spec := spec.(completed := Some(biggestFinishedAt));
      }
      var url := LogsURLOnCompletion(spec, pod, env);
      spec := spec.(buildLogsURL := url);
    } else {
      spec := spec.(status := if running then Running else Pending);
    }
  }

  /** The loop over the steps: it fills in the activity's start time and reports what it found. */
  method FoldSteps(activity: PipelineActivity) returns (allCompleted: bool, failed: bool, running: bool, biggestFinishedAt: Time)
    modifies activity`spec
    ensures activity.spec == old(activity.spec).(started := if old(activity.spec).started.Some? then old(activity.spec).started
                                                            else FirstStart(old(activity.spec).steps))
    ensures allCompleted == AllCompleted(activity.spec.steps)
    ensures failed == AnyFailed(activity.spec.steps)
    ensures biggestFinishedAt == LatestCompletion(activity.spec.steps)
    ensures running
  {
    var spec := activity.spec;
    biggestFinishedAt := 0;
    allCompleted := true;
    failed := false;
    running := true;
    var steps := spec.steps;
    var j := 0;
    while j < |steps|
      invariant 0 <= j <= |steps|
      invariant spec == old(activity.spec).(started := if old(activity.spec).started.Some? then old(activity.spec).started else FirstStart(steps[..j]))
      invariant allCompleted == AllCompleted(steps[..j])
      invariant failed == AnyFailed(steps[..j])
      invariant biggestFinishedAt == LatestCompletion(steps[..j])
      invariant running
    {
      FoldStep(steps, j);
      if steps[j].StageStep? {
        var stage := steps[j].stage;
        var stageFinished := false;
        if stage.started.Some? && spec.started.None? {
          spec := spec.(started := stage.started);
        }
        if stage.completed.Some? {
          var t := stage.completed.value;
          if t != 0 {
            stageFinished := true;
            if biggestFinishedAt == 0 || t > biggestFinishedAt {
              biggestFinishedAt := t;
            }
          }
        }
        if stageFinished {
          if stage.status != Succeeded {
            failed := true;
          }
        } else {
          allCompleted := false;
        }
        if stage.status == Running {
          running := true;
        }
        if stage.status == Running || stage.status == Pending {
          allCompleted := false;
        }
      }
      j := j + 1;
    }
    assert steps[..j] == steps;
    activity.spec := spec;
  }

  /** How the fold's predicates on a prefix grow by one step. */
  lemma FoldStep(steps: seq<Step>, j: nat)
    requires j < |steps|
    ensures var p, q := steps[..j], steps[..j + 1];
      q[..j] == p && q[j] == steps[j]
      && (AllCompleted(q) <==>
            AllCompleted(p) && (steps[j].StageStep? ==> Finished(steps[j].stage) && steps[j].stage.status != Running && steps[j].stage.status != Pending))
      && (AnyFailed(q) <==>
            AnyFailed(p) || (steps[j].StageStep? && Finished(steps[j].stage) && steps[j].stage.status != Succeeded))
  {
    var p, q := steps[..j], steps[..j + 1];
    assert q[..j] == p;
    if AnyFailed(q) && !AnyFailed(p) {
      var i :| 0 <= i < |q| && q[i].StageStep? && Finished(q[i].stage) && q[i].stage.status != Succeeded;
      assert i == j;
    }
    if AnyFailed(p) {
      var i :| 0 <= i < |p| && p[i].StageStep? && Finished(p[i].stage) && p[i].stage.status != Succeeded;
      assert q[i] == p[i];
    }
  }

  // ---------------------------------------------------------------- DigitSuffix

  /**
   * DigitSuffix: the longest suffix of `text` made of digits only. The
   * source tests unicode.IsDigit on the single byte `text[l-1:]`, so only
   * ASCII digits count.
   */
  method DigitSuffix(text: string) returns (answer: string)
    ensures HasSuffix(text, answer)
    ensures forall i :: 0 <= i < |answer| ==> IsDigit(answer[i])
    ensures |answer| < |text| ==> !IsDigit(text[|text| - |answer| - 1])
  {
    answer := "";
    var rest := text;
    while true
      invariant rest + answer == text
      invariant forall i :: 0 <= i < |answer| ==> IsDigit(answer[i])
      decreases |rest|
    {
      var l := |rest|;
      if l == 0 {
        return;
      }
      var lastChar := rest[l - 1..];
      if !IsDigit(lastChar[0]) {
        assert text[|text| - |answer| - 1] == rest[l - 1];
        return;
      }
      answer := lastChar + answer;
      assert rest[..l - 1] + lastChar == rest;
      rest := rest[..l - 1];
    }
  }
}

/** Properties of the reconciler model. */
module ControllerBuildProperties {
  import opened Wrappers
  import opened Strings
  import opened ControllerBuild

  /** The latest completion is the largest completion time of a finished stage, or zero when no stage is finished. */
  lemma {:induction false} LatestCompletionIsMax(steps: seq<Step>)
    ensures forall i :: 0 <= i < |steps| && steps[i].StageStep? && Finished(steps[i].stage) ==>
              steps[i].stage.completed.value <= LatestCompletion(steps)
    ensures LatestCompletion(steps) != 0 ==>
              exists i :: 0 <= i < |steps| && steps[i].StageStep? && Finished(steps[i].stage)
                          && steps[i].stage.completed.value == LatestCompletion(steps)
  {
    if steps != [] {
      var p := steps[..|steps| - 1];
      LatestCompletionIsMax(p);
      assert forall i :: 0 <= i < |p| ==> p[i] == steps[i];
      if LatestCompletion(steps) != 0 && LatestCompletion(steps) == LatestCompletion(p) {
        var i :| 0 <= i < |p| && p[i].StageStep? && Finished(p[i].stage) && p[i].stage.completed.value == LatestCompletion(p);
        assert steps[i] == p[i];
      }
    }
  }

  /** FirstStart finds the first stage, in step order, that has a start time. */
  lemma {:induction false} FirstStartIsFirst(steps: seq<Step>)
    ensures FirstStart(steps).None? <==> forall i :: 0 <= i < |steps| ==> !(steps[i].StageStep? && steps[i].stage.started.Some?)
    ensures FirstStart(steps).Some? ==>
              exists i :: 0 <= i < |steps| && steps[i].StageStep? && steps[i].stage.started == FirstStart(steps)
                          && forall j :: 0 <= j < i ==> !(steps[j].StageStep? && steps[j].stage.started.Some?)
  {
    if steps != [] {
      var p := steps[..|steps| - 1];
      FirstStartIsFirst(p);
      assert forall i :: 0 <= i < |p| ==> p[i] == steps[i];
      if FirstStart(p).Some? {
        var i :| 0 <= i < |p| && p[i].StageStep? && p[i].stage.started == FirstStart(p)
                 && forall j :: 0 <= j < i ==> !(p[j].StageStep? && p[j].stage.started.Some?);
        assert steps[i] == p[i];
      }
    }
  }

  /**
   * The aggregate status: never Pending; Running exactly when not all stages
   * completed; otherwise Failed exactly when some finished stage did not
   * succeed. The start time is kept once set, and the completion time is the
   * latest stage completion when all completed.
   */
  lemma AggregateRules(s: ActivitySpec, pod: Pod, env: LogEnv)
    ensures var r := Aggregate(s, pod, env);
      r.status != Pending
      && (r.status == Running <==> !AllCompleted(s.steps))
      && (r.status == Failed <==> AllCompleted(s.steps) && AnyFailed(s.steps))
      && (r.status == Succeeded <==> AllCompleted(s.steps) && !AnyFailed(s.steps))
      && (s.started.Some? ==> r.started == s.started)
      && r.steps == s.steps
      && (AllCompleted(s.steps) && LatestCompletion(s.steps) != 0 ==> r.completed == Some(LatestCompletion(s.steps)))
      && (!AllCompleted(s.steps) ==> r.completed == s.completed && r.buildLogsURL == s.buildLogsURL)
  {
  }

  /** An activity without stages is all completed, hence Succeeded, and its completion time is left alone. */
  lemma NoStagesSucceeds(s: ActivitySpec, pod: Pod, env: LogEnv)
    requires forall i :: 0 <= i < |s.steps| ==> !s.steps[i].StageStep?
    ensures Aggregate(s, pod, env).status == Succeeded
    ensures Aggregate(s, pod, env).completed == s.completed
  {
    assert LatestCompletion(s.steps) == 0 by {
      LatestCompletionIsMax(s.steps);
    }
  }

  /** A logs URL that already names the pod is kept; otherwise it is regenerated, and is the GitHub pages URL or "". */
  lemma LogsURLRule(s: ActivitySpec, pod: Pod, env: LogEnv)
    requires AllCompleted(s.steps)
    ensures var url := Aggregate(s, pod, env).buildLogsURL;
      (s.buildLogsURL != "" && Contains(s.buildLogsURL, pod.name) ==> url == s.buildLogsURL)
      && (NeedsLogsURL(s.buildLogsURL, pod) ==> url == "" || url == LogURL(s))
  {
  }

  /** With owner, repository and branch non-empty the logs URL is https://<owner>.github.io/<repo>/jenkins-x/logs/<owner>/<repo>/<branch>/<build>.log. */
  lemma LogURLShape(s: ActivitySpec)
    requires s.gitOwner != "" && s.repositoryName != "" && s.branchName != ""
    ensures LogURL(s) == "https://" + s.gitOwner + ".github.io/" + s.repositoryName + "/" + "jenkins-x" + "/" + "logs" + "/"
                         + s.gitOwner + "/" + s.repositoryName + "/" + s.branchName + "/" + LogBuildNumber(s) + ".log"
  {
    var o, r, b := s.gitOwner, s.repositoryName, s.branchName;
    LogDirShape(o, r, b);
    var d := "jenkins-x" + "/" + "logs" + "/" + o + "/" + r + "/" + b;
    var n := LogBuildNumber(s);
    var log := n + ".log";
    NonEmptyKeeps([d, log]);
    JoinWithCons(d, [log], "/");
    assert LogFileName(s) == d + "/" + log;
    var a := "https://" + o + ".github.io/" + r + "/";
    assert LogURL(s) == a + (d + "/" + log);
    URLAssoc(a, o, r, b, n);
  }

  lemma URLAssoc(a: string, o: string, r: string, b: string, n: string)
    ensures a + (("jenkins-x" + "/" + "logs" + "/" + o + "/" + r + "/" + b) + "/" + (n + ".log"))
            == a + "jenkins-x" + "/" + "logs" + "/" + o + "/" + r + "/" + b + "/" + n + ".log"
  {
  }

  lemma LogDirShape(o: string, r: string, b: string)
    requires o != "" && r != "" && b != ""
    ensures PathJoin(["jenkins-x", "logs", o, r, b]) == "jenkins-x" + "/" + "logs" + "/" + o + "/" + r + "/" + b
  {
    var parts := ["jenkins-x", "logs", o, r, b];
    NonEmptyKeeps(parts);
    JoinWithCons(r, [b], "/");
    var j3 := r + "/" + b;
    assert [o, r, b] == [o] + [r, b];
    JoinWithCons(o, [r, b], "/");
    var j2 := o + "/" + j3;
    assert ["logs", o, r, b] == ["logs"] + [o, r, b];
    JoinWithCons("logs", [o, r, b], "/");
    var j1 := "logs" + "/" + j2;
    assert parts == ["jenkins-x"] + ["logs", o, r, b];
    JoinWithCons("jenkins-x", ["logs", o, r, b], "/");
    assert JoinWith(parts, "/") == "jenkins-x" + "/" + j1;
  }

  /** Two steps have the same shape: both stages with the same name, or both not stages. */
  predicate SameShape(a: Step, b: Step)
  {
    a.StageStep? == b.StageStep? && (a.StageStep? ==> a.stage.name == b.stage.name)
  }

  lemma {:induction false} StageIndexReplace(steps: seq<Step>, k: nat, st: Stage, t: string)
    requires k < |steps| && steps[k].StageStep? && steps[k].stage.name == st.name
    ensures StageIndex(steps[k := StageStep(st)], t) == StageIndex(steps, t)
  {
    var n := |steps|;
    var r := steps[k := StageStep(st)];
    if k < n - 1 {
      assert r[..n - 1] == steps[..n - 1][k := StageStep(st)];
      StageIndexReplace(steps[..n - 1], k, st, t);
    } else {
      assert r[..n - 1] == steps[..n - 1];
    }
  }

  /** One container adds a step exactly when no stage has its title yet, and keeps the shape of every step. */
  lemma ApplyOneShape(steps: seq<Step>, c: ContainerStatus, pod: Pod)
    ensures var r, tc := ApplyOne(steps, c, pod), StageTitle(c.name);
      (StageIndex(steps, tc) >= 0 ==> |r| == |steps|)
      && (StageIndex(steps, tc) < 0 ==> |r| == |steps| + 1)
      && (forall j :: 0 <= j < |steps| ==> SameShape(r[j], steps[j]))
  {
  }

  /** One container leaves the stage of every other title where it was, untouched. */
  lemma ApplyOneOther(steps: seq<Step>, c: ContainerStatus, pod: Pod, t: string)
    requires t != StageTitle(c.name)
    ensures var r := ApplyOne(steps, c, pod);
      StageIndex(r, t) == StageIndex(steps, t)
      && (StageIndex(steps, t) >= 0 ==> r[StageIndex(steps, t)] == steps[StageIndex(steps, t)])
  {
    var tc := StageTitle(c.name);
    var w := WithStage(steps, tc);
    var k := StageIndex(w, tc);
    StageIndexReplace(w, k, ApplyContainer(w[k].stage, c, pod), t);
    if StageIndex(steps, tc) < 0 {
      assert w[..|w| - 1] == steps;
    }
  }

  /** One container edits the stage of its own title, found or created by kube.GetOrCreateStage. */
  lemma ApplyOneOwn(steps: seq<Step>, c: ContainerStatus, pod: Pod)
    ensures var r, t := ApplyOne(steps, c, pod), StageTitle(c.name);
      StageIndex(r, t) == StageIndex(WithStage(steps, t), t) >= 0
      && r[StageIndex(r, t)].stage == ApplyContainer(WithStage(steps, t)[StageIndex(r, t)].stage, c, pod)
  {
    var tc := StageTitle(c.name);
    var w := WithStage(steps, tc);
    var k := StageIndex(w, tc);
    StageIndexReplace(w, k, ApplyContainer(w[k].stage, c, pod), tc);
  }

  /**
   * The text of a stage title: with `n` the container name without
   * "build-step-", every '-' of `n` becomes ' ', the first character and
   * every character after a non-word character ('-' and ' ' among them) is
   * upper-cased, and every other character is kept.
   */
  lemma StageTitleText(containerName: string)
    ensures var n, t := TrimPrefix(containerName, "build-step-"), StageTitle(containerName);
            |t| == |n| &&
            forall i {:trigger t[i]} :: 0 <= i < |n| ==>
              t[i] == if n[i] == '-' then ' '
                      else if i == 0 || !IsWordChar(n[i - 1]) then ToUpperChar(n[i])
                      else n[i]
  {
    var n := TrimPrefix(containerName, "build-step-");
    var name := ReplaceChar(n, '-', ' ');
    assert forall i :: 0 <= i < |n| ==> IsWordChar(name[i]) == IsWordChar(n[i]);
  }

  /** "build-step-git-merge" is the stage "Git Merge". */
  lemma StageTitleExample(c: string)
    requires c == "build-step-git-merge"
    ensures StageTitle(c) == "Git Merge"
  {
    var t := StageTitle(c);
    GitMergeLetters(c);
    assert t == [t[0], t[1], t[2], t[3], t[4], t[5], t[6], t[7], t[8]];
  }

  lemma GitMergeLetters(c: string)
    requires c == "build-step-git-merge"
    ensures var t := StageTitle(c);
            |t| == 9 && t[0] == 'G' && t[1] == 'i' && t[2] == 't' && t[3] == ' ' && t[4] == 'M' &&
            t[5] == 'e' && t[6] == 'r' && t[7] == 'g' && t[8] == 'e'
  {
    TrimGitMerge(c);
    StageTitleText(c);
  }

  lemma TrimGitMerge(c: string)
    requires c == "build-step-git-merge"
    ensures TrimPrefix(c, "build-step-") == "git-merge"
  {
    assert c == "build-step-" + "git-merge";
  }

  /** The init containers `cs[i]` with `i` the last index carrying that title. */
  predicate LastWithTitle(cs: seq<ContainerStatus>, i: nat)
  {
    i < |cs| && forall j :: i < j < |cs| ==> StageTitle(cs[j].name) != StageTitle(cs[i].name)
  }

  /**
   * The stage named by the title of `c` exists and carries the status and
   * description of `c`, its start time when non-zero and its finish time when non-zero.
   */
  predicate Reflects(r: seq<Step>, c: ContainerStatus, pod: Pod)
  {
    var k := StageIndex(r, StageTitle(c.name));
    k >= 0
    && r[k].stage.status == ContainerStageStatus(c)
    && r[k].stage.description == StepDescription(c.name, pod.initContainers)
    && (StartedAt(c) != 0 ==> r[k].stage.started == Some(StartedAt(c)))
    && (FinishedAt(c) != 0 ==> r[k].stage.completed == Some(FinishedAt(c)))
  }

  /**
   * Every init container has a stage named by its title, and the stage of the
   * last container with a given title reflects that container.
   */
  lemma {:induction false} ContainersReflected(steps: seq<Step>, cs: seq<ContainerStatus>, pod: Pod, i: nat)
    requires i < |cs|
    ensures StageIndex(ApplyContainers(steps, cs, pod), StageTitle(cs[i].name)) >= 0
    ensures LastWithTitle(cs, i) ==> Reflects(ApplyContainers(steps, cs, pod), cs[i], pod)
  {
    ContainerHasStage(steps, cs, pod, i);
    if LastWithTitle(cs, i) {
      if i < |cs| - 1 {
        LastWithTitlePrefix(cs, i);
        ContainersReflected(steps, cs[..|cs| - 1], pod, i);
        ReflectsKept(steps, cs, pod, cs[i]);
      } else {
        ReflectsOwn(steps, cs, pod);
      }
    }
  }

  /** The last container with a title, when not the last container, is the last with it among the others. */
  lemma LastWithTitlePrefix(cs: seq<ContainerStatus>, i: nat)
    requires LastWithTitle(cs, i) && i < |cs| - 1
    ensures LastWithTitle(cs[..|cs| - 1], i) && cs[..|cs| - 1][i] == cs[i]
    ensures StageTitle(cs[|cs| - 1].name) != StageTitle(cs[i].name)
  {
  }

  /** The last container leaves a stage of another title reflecting what it reflected. */
  lemma ReflectsKept(steps: seq<Step>, cs: seq<ContainerStatus>, pod: Pod, ci: ContainerStatus)
    requires cs != [] && StageTitle(cs[|cs| - 1].name) != StageTitle(ci.name)
    requires Reflects(ApplyContainers(steps, cs[..|cs| - 1], pod), ci, pod)
    ensures Reflects(ApplyContainers(steps, cs, pod), ci, pod)
  {
    ApplyOneOther(ApplyContainers(steps, cs[..|cs| - 1], pod), cs[|cs| - 1], pod, StageTitle(ci.name));
  }

  /** After the last container has been processed, the stage of its title reflects it. */
  lemma ReflectsOwn(steps: seq<Step>, cs: seq<ContainerStatus>, pod: Pod)
    requires cs != []
    ensures Reflects(ApplyContainers(steps, cs, pod), cs[|cs| - 1], pod)
  {
    ApplyOneOwn(ApplyContainers(steps, cs[..|cs| - 1], pod), cs[|cs| - 1], pod);
  }

  /** Every init container has a stage named by its title. */
  lemma {:induction false} ContainerHasStage(steps: seq<Step>, cs: seq<ContainerStatus>, pod: Pod, i: nat)
    requires i < |cs|
    ensures StageIndex(ApplyContainers(steps, cs, pod), StageTitle(cs[i].name)) >= 0
  {
    var n := |cs|;
    var p, c := cs[..n - 1], cs[n - 1];
    var t := StageTitle(cs[i].name);
    var q := ApplyContainers(steps, p, pod);
    assert ApplyContainers(steps, cs, pod) == ApplyOne(q, c, pod);
    if StageTitle(c.name) != t {
      assert i < n - 1 && p[i] == cs[i];
      ContainerHasStage(steps, p, pod, i);
      ApplyOneOther(q, c, pod, t);
    } else {
      ApplyOneOwn(q, c, pod);
    }
  }

  /** Processing the containers keeps every existing step in place and appends at most one step per container. */
  lemma {:induction false} ApplyContainersShape(steps: seq<Step>, cs: seq<ContainerStatus>, pod: Pod)
    ensures var r := ApplyContainers(steps, cs, pod);
      |steps| <= |r| <= |steps| + |cs|
      && forall j :: 0 <= j < |steps| ==> SameShape(r[j], steps[j])
  {
    if cs != [] {
      var p := cs[..|cs| - 1];
      ApplyContainersShape(steps, p, pod);
      ApplyOneShape(ApplyContainers(steps, p, pod), cs[|cs| - 1], pod);
    }
  }

  /** When every container's stage already exists, processing the containers adds no step. */
  lemma {:induction false} ApplyContainersKeepsCount(steps: seq<Step>, cs: seq<ContainerStatus>, pod: Pod)
    requires forall i :: 0 <= i < |cs| ==> StageIndex(steps, StageTitle(cs[i].name)) >= 0
    ensures |ApplyContainers(steps, cs, pod)| == |steps|
    ensures forall t :: StageIndex(ApplyContainers(steps, cs, pod), t) == StageIndex(steps, t)
  {
    if cs != [] {
      var p := cs[..|cs| - 1];
      var c := cs[|cs| - 1];
      ApplyContainersKeepsCount(steps, p, pod);
      var q := ApplyContainers(steps, p, pod);
      assert StageIndex(q, StageTitle(c.name)) >= 0 by {
        assert cs[|cs| - 1] == c;
      }
      forall t ensures StageIndex(ApplyContainers(steps, cs, pod), t) == StageIndex(steps, t) {
        if t != StageTitle(c.name) {
          ApplyOneOther(q, c, pod, t);
        } else {
          ApplyOneOwn(q, c, pod);
        }
      }
      ApplyOneShape(q, c, pod);
    }
  }

  /** A container with a title no stage has yet adds a step, so the activity counts as changed and is written back. */
  lemma NewStageIsChange(s: ActivitySpec, pod: Pod, env: LogEnv, i: nat)
    requires i < |pod.initContainerStatuses| && StageIndex(s.steps, StageTitle(pod.initContainerStatuses[i].name)) < 0
    ensures ChangedAsWritten(s, Updated(s, pod, env))
  {
    var cs := pod.initContainerStatuses;
    var r := ApplyContainers(s.steps, cs, pod);
    ContainersReflected(s.steps, cs, pod, i);
    ApplyContainersShape(s.steps, cs, pod);
  }

  /**
   * Edits that stay inside existing stages are not written back: when every
   * container's stage exists, the activity keeps running and had its start
   * time, the update reports no change whatever the stages now hold.
   */
  lemma StageEditsNotPersisted(s: ActivitySpec, pod: Pod, env: LogEnv)
    requires forall i :: 0 <= i < |pod.initContainerStatuses| ==> StageIndex(s.steps, StageTitle(pod.initContainerStatuses[i].name)) >= 0
    requires s.status == Running && s.started.Some?
    requires !AllCompleted(ApplyContainers(s.steps, pod.initContainerStatuses, pod))
    ensures !ChangedAsWritten(s, Updated(s, pod, env))
  {
    ApplyContainersKeepsCount(s.steps, pod.initContainerStatuses, pod);
  }
}
