/**
 * `jx stop pipeline` (pkg/jx/cmd/stop_pipeline.go): which jobs are
 * stopped and which build of each. The job map, the prompt and the Jenkins
 * client are passed in; the StopBuild calls are returned, in order.
 */
module StopPipeline {
  import opened Wrappers
  import opened Strings
  import opened PipelineNames
  import opened GetBuildLogs

  /** The Jenkins calls stopJob makes. */
  datatype StopClient = StopClient(getLastBuild: Job -> Result<Build>, stopBuild: (Job, int) -> Outcome)

  /** A StopBuild call. */
  datatype Stop = Stop(job: Job, build: int)

  /**
   * stopJob: the build to stop is --build when positive, else the number of
   * the last build, which must then be positive. The first component is the
   * StopBuild call made, if any.
   */
  function StopJob(jobs: map<string, Job>, name: string, build: int, client: Result<StopClient>): (r: (Option<Stop>, Outcome))
    ensures client.Err? ==> r == (None, Fail(client.msg))
    ensures client.Ok? && build > 0 ==>
              var job := if name in jobs then jobs[name] else Job("");
              r == (Some(Stop(job, build)), client.value.stopBuild(job, build))
    ensures client.Ok? && build <= 0 ==>
              var job := if name in jobs then jobs[name] else Job("");
              var last := client.value.getLastBuild(job);
              (last.Err? ==> r == (None, Fail(last.msg))) &&
              (last.Ok? && last.value.number <= 0 ==> r == (None, Fail("No build available for " + name))) &&
              (last.Ok? && last.value.number > 0 ==>
                 r == (Some(Stop(job, last.value.number)), client.value.stopBuild(job, last.value.number)))
    ensures r.0.Some? ==> r.0.value.build > 0
  {
    var job := if name in jobs then jobs[name] else Job("");
    if client.Err? then (None, Fail(client.msg))
    else
      var b := if build <= 0 then
                 var last := client.value.getLastBuild(job);
                 if last.Err? then Err(last.msg)
                 else if last.value.number <= 0 then Err("No build available for " + name)
                 else Ok(last.value.number)
               else Ok(build);
      if b.Err? then (None, Fail(b.msg))
      else (Some(Stop(job, b.value)), client.value.stopBuild(job, b.value))
  }

  /** The jobs named by `args` stopped in order, ending at the first error. */
  function StopAll(jobs: map<string, Job>, args: seq<string>, build: int, client: Result<StopClient>): (r: (seq<Stop>, Outcome))
    ensures |r.0| <= |args|
  {
    if args == [] then ([], Pass)
    else
      var before := StopAll(jobs, args[..|args| - 1], build, client);
      if before.1.Fail? then before
      else
        var one := StopJob(jobs, args[|args| - 1], build, client);
        (before.0 + (if one.0.Some? then [one.0.value] else []), one.1)
  }

  class StopPipelineOptions {
    var jobs: map<string, Job>
    var build: int

    constructor (build: int)
      ensures this.build == build && jobs == map[]
    {
      this.build := build;
      jobs := map[];
    }

    /** The loop over the arguments. */
    method StopJobs(args: seq<string>, client: Result<StopClient>) returns (stops: seq<Stop>, err: Outcome)
      ensures (stops, err) == StopAll(jobs, args, build, client)
    {
      stops := [];
      err := Pass;
      var i := 0;
      while i < |args|
        invariant 0 <= i <= |args|
        invariant (stops, err) == StopAll(jobs, args[..i], build, client)
        invariant err.Pass?
      {
        assert args[..i + 1][..i] == args[..i];
        var one := StopJob(jobs, args[i], build, client);
        ghost var next := StopAll(jobs, args[..i + 1], build, client);
        assert next == (stops + (if one.0.Some? then [one.0.value] else []), one.1);
        if one.0.Some? {
          stops := stops + [one.0.value];
        }
        err := one.1;
        if err.Fail? {
          assert next.0 == stops;
          assert next.1 == err;
          StopAllStaysFailed(jobs, args, i + 1, build, client);
          return;
        }
        i := i + 1;
      }
      assert args[..i] == args;
    }

    /**
     * Run. `jobMap` is getJobMap for the filter; without arguments the user
     * picks one name among the sorted job names, offered the first on master.
     */
    method Run(jobMap: Result<map<string, Job>>, args: seq<string>, pick: Picker, client: Result<StopClient>)
      returns (stops: seq<Stop>, err: Outcome)
      modifies this`jobs
      ensures jobMap.Err? ==> stops == [] && err == Fail(jobMap.msg) && jobs == old(jobs)
      ensures jobMap.Ok? ==> jobs == jobMap.value
      ensures jobMap.Ok? && args != [] ==> (stops, err) == StopAll(jobs, args, build, client)
      ensures jobMap.Ok? && args == [] ==>
                exists names: seq<string> ::
                  Sorted(names) && Distinct(names) && (forall k :: k in names <==> k in jobMap.value) &&
                  var picked := pick(names, FirstMaster(names));
                  (picked.Err? ==> stops == [] && err == Fail(picked.msg)) &&
                  (picked.Ok? ==> (stops, err) == StopAll(jobs, [picked.value], build, client))
    {
      if jobMap.Err? {
        return [], Fail(jobMap.msg);
      }
      jobs := jobMap.value;
      var names := SortedKeys(jobs);
      var chosen := args;
      if |chosen| == 0 {
        var defaultName := DefaultName(names);
        var name := pick(names, defaultName);
        if name.Err? {
          return [], Fail(name.msg);
        }
        chosen := [name.value];
      }
      stops, err := StopJobs(chosen, client);
    }
  }

  /** Once a job fails to stop, the later arguments are not visited. */
  lemma {:induction false} StopAllStaysFailed(jobs: map<string, Job>, args: seq<string>, k: nat, build: int,
                                              client: Result<StopClient>)
    requires k <= |args|
    requires StopAll(jobs, args[..k], build, client).1.Fail?
    ensures StopAll(jobs, args, build, client) == StopAll(jobs, args[..k], build, client)
    decreases |args| - k
  {
    if k < |args| {
      assert args[..k + 1][..k] == args[..k];
      StopAllStaysFailed(jobs, args, k + 1, build, client);
    } else {
      assert args[..k] == args;
    }
  }
}

module StopPipelineProperties {
  import opened Wrappers
  import opened GetBuildLogs
  import opened StopPipeline

  /** A positive --build is stopped as given, without asking for the last build. */
  lemma PositiveBuildAsGiven(jobs: map<string, Job>, name: string, build: int, client: StopClient)
    requires build > 0
    ensures StopJob(jobs, name, build, Ok(client)).0.Some? &&
            StopJob(jobs, name, build, Ok(client)).0.value.build == build
    ensures StopJob(jobs, name, build, Ok(client)) == StopJob(jobs, name, build, Ok(client.(getLastBuild := _ => Err(""))))
  {
  }

  /** When every stop succeeds, every argument's job is stopped, in argument order. */
  lemma {:induction false} AllStoppedInOrder(jobs: map<string, Job>, args: seq<string>, build: int, client: Result<StopClient>)
    requires StopAll(jobs, args, build, client).1.Pass?
    ensures |StopAll(jobs, args, build, client).0| == |args|
    ensures forall i :: 0 <= i < |args| ==>
              StopAll(jobs, args, build, client).0[i].job == (if args[i] in jobs then jobs[args[i]] else Job(""))
  {
    if args != [] {
      var init := args[..|args| - 1];
      var before := StopAll(jobs, init, build, client);
      AllStoppedInOrder(jobs, init, build, client);
      var one := StopJob(jobs, args[|args| - 1], build, client);
      assert one.0.Some?;
      forall i | 0 <= i < |init|
        ensures args[i] == init[i]
      {
      }
    }
  }

  /** A job whose last build has no positive number is not stopped: the arguments after it are not visited. */
  lemma NoBuildStops(jobs: map<string, Job>, name: string, rest: seq<string>, client: StopClient)
    requires var job := if name in jobs then jobs[name] else Job("");
             client.getLastBuild(job).Ok? && client.getLastBuild(job).value.number <= 0
    ensures StopAll(jobs, [name] + rest, 0, Ok(client)) == ([], Fail("No build available for " + name))
  {
    assert ([name] + rest)[..1] == [name];
    assert [name][..0] == [];
    StopAllStaysFailed(jobs, [name] + rest, 1, 0, Ok(client));
  }
}
