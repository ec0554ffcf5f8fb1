/**
 * Re-observation of a build pod: running updatePipelineActivity again with
 * the same pod snapshot and the same answers from the environment leaves the
 * activity as it is, so the second run reports no change and nothing is
 * written back.
 */
module ControllerBuildIdempotence {
  import opened Wrappers
  import opened Strings
  import opened ControllerBuild
  import opened ControllerBuildProperties

  /** The containers of `cs` whose stage title is `t`, in order. */
  function WithTitle(cs: seq<ContainerStatus>, t: string): seq<ContainerStatus>
  {
    if cs == [] then []
    else
      var p := WithTitle(cs[..|cs| - 1], t);
      if StageTitle(cs[|cs| - 1].name) == t then p + [cs[|cs| - 1]] else p
  }

  /** The stage after the containers `ds` have been copied into it, in order. */
  function StageFold(s: Stage, ds: seq<ContainerStatus>, pod: Pod): Stage
  {
    if ds == [] then s else ApplyContainer(StageFold(s, ds[..|ds| - 1], pod), ds[|ds| - 1], pod)
  }

  /** The last non-zero start time among `ds`, or zero. */
  function LastStart(ds: seq<ContainerStatus>): Time
  {
    if ds == [] then 0
    else if StartedAt(ds[|ds| - 1]) != 0 then StartedAt(ds[|ds| - 1])
    else LastStart(ds[..|ds| - 1])
  }

  /** The last non-zero finish time among `ds`, or zero. */
  function LastFinish(ds: seq<ContainerStatus>): Time
  {
    if ds == [] then 0
    else if FinishedAt(ds[|ds| - 1]) != 0 then FinishedAt(ds[|ds| - 1])
    else LastFinish(ds[..|ds| - 1])
  }

  /** kube.GetOrCreateStage for every container in turn, without editing any stage. */
  function WithStages(steps: seq<Step>, cs: seq<ContainerStatus>): seq<Step>
  {
    if cs == [] then steps else WithStage(WithStages(steps, cs[..|cs| - 1]), StageTitle(cs[|cs| - 1].name))
  }

  /** Every container of `cs` already has its stage among `steps`. */
  predicate HasAllStages(steps: seq<Step>, cs: seq<ContainerStatus>)
  {
    forall i :: 0 <= i < |cs| ==> StageIndex(steps, StageTitle(cs[i].name)) >= 0
  }

  /**
   * A stage after a non-empty run of containers: the last container's status
   * and description, the last non-zero start and finish times, and the
   * stage's own times where every container's is zero.
   */
  lemma {:induction false} StageFoldForm(s: Stage, ds: seq<ContainerStatus>, pod: Pod)
    requires ds != []
    ensures var last := ds[|ds| - 1];
            StageFold(s, ds, pod) ==
              s.(status := ContainerStageStatus(last),
                 started := if LastStart(ds) != 0 then Some(LastStart(ds)) else s.started,
                 completed := if LastFinish(ds) != 0 then Some(LastFinish(ds)) else s.completed,
                 description := StepDescription(last.name, pod.initContainers))
  {
    if |ds| > 1 {
      StageFoldForm(s, ds[..|ds| - 1], pod);
    }
  }

  /** Copying the same containers into a stage a second time changes nothing. */
  lemma StageFoldTwice(s: Stage, ds: seq<ContainerStatus>, pod: Pod)
    ensures StageFold(StageFold(s, ds, pod), ds, pod) == StageFold(s, ds, pod)
    ensures StageFold(s, ds, pod).name == s.name
  {
    if ds != [] {
      StageFoldForm(s, ds, pod);
      StageFoldForm(StageFold(s, ds, pod), ds, pod);
    }
  }

  lemma StageIndexAppend(steps: seq<Step>, x: Step, t: string)
    requires StageIndex(steps, t) >= 0
    ensures StageIndex(steps + [x], t) == StageIndex(steps, t)
  {
    assert (steps + [x])[..|steps|] == steps;
  }

  /**
   * When every container already has its stage, the containers edit the
   * first stage of each title only, and that stage ends up as the fold of
   * the containers with its title.
   */
  lemma {:induction false} ApplyContainersPointwise(w: seq<Step>, cs: seq<ContainerStatus>, pod: Pod)
    requires HasAllStages(w, cs)
    ensures var a := ApplyContainers(w, cs, pod);
            |a| == |w| &&
            forall k :: 0 <= k < |w| ==>
              a[k] == if w[k].StageStep? && StageIndex(w, w[k].stage.name) == k
                      then StageStep(StageFold(w[k].stage, WithTitle(cs, w[k].stage.name), pod))
                      else w[k]
  {
    if cs != [] {
      var p, c := cs[..|cs| - 1], cs[|cs| - 1];
      HasAllStagesPrefix(w, cs);
      ApplyContainersPointwise(w, p, pod);
      ApplyContainersKeepsCount(w, p, pod);
      var q := ApplyContainers(w, p, pod);
      var tc := StageTitle(c.name);
      var kc := StageIndex(q, tc);
      assert kc == StageIndex(w, tc);
      var a := ApplyContainers(w, cs, pod);
      assert a == ApplyOne(q, c, pod);
      ApplyOneAt(q, c, pod);
      forall k | 0 <= k < |w|
        ensures a[k] == if w[k].StageStep? && StageIndex(w, w[k].stage.name) == k
                        then StageStep(StageFold(w[k].stage, WithTitle(cs, w[k].stage.name), pod))
                        else w[k]
      {
        if k == kc {
          var n := w[k].stage.name;
          assert n == tc;
          assert WithTitle(cs, n) == WithTitle(p, n) + [c];
          assert (WithTitle(p, n) + [c])[..|WithTitle(p, n)|] == WithTitle(p, n);
        } else if w[k].StageStep? && StageIndex(w, w[k].stage.name) == k {
          assert WithTitle(cs, w[k].stage.name) == WithTitle(p, w[k].stage.name);
        }
      }
    }
  }

  /** Containers that all have their stage: so do all but the last, and the last does. */
  lemma HasAllStagesPrefix(w: seq<Step>, cs: seq<ContainerStatus>)
    requires cs != [] && HasAllStages(w, cs)
    ensures HasAllStages(w, cs[..|cs| - 1]) && StageIndex(w, StageTitle(cs[|cs| - 1].name)) >= 0
  {
    var p := cs[..|cs| - 1];
    forall i | 0 <= i < |p| ensures StageIndex(w, StageTitle(p[i].name)) >= 0 {
      assert p[i] == cs[i];
    }
  }

  /** A container whose stage exists edits that stage in place. */
  lemma ApplyOneAt(r: seq<Step>, c: ContainerStatus, pod: Pod)
    requires StageIndex(r, StageTitle(c.name)) >= 0
    ensures var k := StageIndex(r, StageTitle(c.name));
            ApplyOne(r, c, pod) == r[k := StageStep(ApplyContainer(r[k].stage, c, pod))]
  {
  }

  /** A step appended after the stages the containers use is left alone by them. */
  lemma {:induction false} ApplyContainersAppend(v: seq<Step>, x: Step, cs: seq<ContainerStatus>, pod: Pod)
    requires HasAllStages(v, cs)
    ensures ApplyContainers(v + [x], cs, pod) == ApplyContainers(v, cs, pod) + [x]
  {
    if cs != [] {
      var p, c := cs[..|cs| - 1], cs[|cs| - 1];
      HasAllStagesPrefix(v, cs);
      ApplyContainersAppend(v, x, p, pod);
      ApplyContainersKeepsCount(v, p, pod);
      var r := ApplyContainers(v, p, pod);
      assert StageIndex(r, StageTitle(c.name)) >= 0;
      assert ApplyContainers(v + [x], cs, pod) == ApplyOne(r + [x], c, pod);
      ApplyOneAppend(r, x, c, pod);
    }
  }

  /** A step appended after the stage a container uses is left alone by it. */
  lemma ApplyOneAppend(r: seq<Step>, x: Step, c: ContainerStatus, pod: Pod)
    requires StageIndex(r, StageTitle(c.name)) >= 0
    ensures ApplyOne(r + [x], c, pod) == ApplyOne(r, c, pod) + [x]
  {
    var tc := StageTitle(c.name);
    StageIndexAppend(r, x, tc);
    var k := StageIndex(r, tc);
    ApplyOneAt(r + [x], c, pod);
    ApplyOneAt(r, c, pod);
    assert (r + [x])[k] == r[k];
    UpdateAppend(r, x, k, StageStep(ApplyContainer(r[k].stage, c, pod)));
  }

  lemma UpdateAppend(r: seq<Step>, x: Step, k: nat, v: Step)
    requires k < |r|
    ensures (r + [x])[k := v] == r[k := v] + [x]
  {
  }

  /** After kube.GetOrCreateStage for every container, each container has its stage. */
  lemma WithStagesHasAll(steps: seq<Step>, cs: seq<ContainerStatus>)
    ensures HasAllStages(WithStages(steps, cs), cs)
  {
    forall i | 0 <= i < |cs| ensures StageIndex(WithStages(steps, cs), StageTitle(cs[i].name)) >= 0 {
      WithStagesHas(steps, cs, i);
    }
  }

  /** After kube.GetOrCreateStage for every container, container `i` has its stage. */
  lemma {:induction false} WithStagesHas(steps: seq<Step>, cs: seq<ContainerStatus>, i: nat)
    requires i < |cs|
    ensures StageIndex(WithStages(steps, cs), StageTitle(cs[i].name)) >= 0
  {
    var p, c := cs[..|cs| - 1], cs[|cs| - 1];
    var v := WithStages(steps, p);
    var tc := StageTitle(c.name);
    assert WithStages(steps, cs) == WithStage(v, tc);
    if i < |p| {
      assert p[i] == cs[i];
      WithStagesHas(steps, p, i);
      WithStageKeeps(v, tc, StageTitle(p[i].name));
    } else {
      assert cs[i] == c;
    }
  }

  /** kube.GetOrCreateStage keeps every stage that was already there. */
  lemma WithStageKeeps(v: seq<Step>, tc: string, t: string)
    requires StageIndex(v, t) >= 0
    ensures StageIndex(WithStage(v, tc), t) >= 0
  {
    if StageIndex(v, tc) < 0 {
      StageIndexAppend(v, StageStep(NewStage(tc)), t);
    }
  }

  /** Creating every stage first and then copying the containers is what the loop does. */
  lemma {:induction false} StagesFirst(steps: seq<Step>, cs: seq<ContainerStatus>, pod: Pod)
    ensures ApplyContainers(steps, cs, pod) == ApplyContainers(WithStages(steps, cs), cs, pod)
  {
    if cs != [] {
      var p, c := cs[..|cs| - 1], cs[|cs| - 1];
      StagesFirst(steps, p, pod);
      WithStagesHasAll(steps, p);
      var v := WithStages(steps, p);
      var tc := StageTitle(c.name);
      ApplyContainersKeepsCount(v, p, pod);
      var r := ApplyContainers(v, p, pod);
      assert ApplyContainers(steps, cs, pod) == ApplyOne(r, c, pod);
      if StageIndex(v, tc) < 0 {
        var x := StageStep(NewStage(tc));
        assert WithStages(steps, cs) == v + [x];
        ApplyContainersAppend(v, x, p, pod);
        assert ApplyContainers(v + [x], cs, pod) == ApplyOne(r + [x], c, pod);
        assert StageIndex(r, tc) < 0;
        assert WithStage(r, tc) == r + [x];
      } else {
        assert WithStages(steps, cs) == v;
      }
    }
  }

  /** Processing the same init container statuses twice gives the steps of processing them once. */
  lemma ApplyContainersTwice(steps: seq<Step>, cs: seq<ContainerStatus>, pod: Pod)
    ensures ApplyContainers(ApplyContainers(steps, cs, pod), cs, pod) == ApplyContainers(steps, cs, pod)
  {
    StagesFirst(steps, cs, pod);
    WithStagesHasAll(steps, cs);
    var w := WithStages(steps, cs);
    var y := ApplyContainers(w, cs, pod);
    ApplyContainersPointwise(w, cs, pod);
    ApplyContainersKeepsCount(w, cs, pod);
    assert HasAllStages(y, cs);
    ApplyContainersPointwise(y, cs, pod);
    var y2 := ApplyContainers(y, cs, pod);
    forall k | 0 <= k < |y| ensures y2[k] == y[k] {
      if w[k].StageStep? && StageIndex(w, w[k].stage.name) == k {
        StageFoldTwice(w[k].stage, WithTitle(cs, w[k].stage.name), pod);
      }
    }
  }

  /** The aggregate pass run again over the same steps changes nothing. */
  lemma AggregateTwice(s: ActivitySpec, pod: Pod, env: LogEnv)
    ensures Aggregate(Aggregate(s, pod, env), pod, env) == Aggregate(s, pod, env)
  {
    AggregateRules(s, pod, env);
  }

  /**
   * Idempotence: updating an activity a second time with the same pod and
   * the same answers from the environment leaves it as the first update
   * did, so the second update reports no change.
   */
  lemma UpdateIdempotent(s: ActivitySpec, pod: Pod, env: LogEnv)
    ensures Updated(Updated(s, pod, env), pod, env) == Updated(s, pod, env)
    ensures !ChangedAsWritten(Updated(s, pod, env), Updated(Updated(s, pod, env), pod, env))
  {
    var cs := pod.initContainerStatuses;
    var t := s.(steps := ApplyContainers(s.steps, cs, pod));
    var s1 := Updated(s, pod, env);
    AggregateRules(t, pod, env);
    assert s1.steps == t.steps;
    ApplyContainersTwice(s.steps, cs, pod);
    assert s1.(steps := ApplyContainers(s1.steps, cs, pod)) == s1;
    AggregateTwice(t, pod, env);
  }
}
