# A Dafny model of the core of Jenkins X (`jx`)

This project models, in Dafny, the decision logic at the core of the `jx`
command line of Jenkins X, and proves properties of that model. Each core Go
file becomes one module, followed by a `...Properties` module holding the
lemmas about it:

- `ControllerBuild` — the build-pod reconciler of `jx controller build`. For
  each Knative build pod it keeps the pod's `PipelineActivity` up to date:
  stage titles and descriptions, stage status and timestamps, the aggregate
  status, the build-log URL and `DigitSuffix`. `ControllerBuildIdempotence`
  proves that observing the same pod a second time, with the same answers
  from the environment, leaves the activity unchanged and writes nothing.
- `HelmHelpers` — the helm chart helpers. These cover the requirements
  dependency list (`SetAppVersion`, `RemoveApplication`, sorting by name),
  the search for chart files, README generation, splitting `--set` values,
  repository credentials and the local-chart test of `InspectChart`.
- `BranchProtection` — the branch-protection section of the prow
  configuration: registering and removing repositories, and reading back
  their status contexts.
- `Deprecation` — the table of deprecated commands, command paths, the
  removal date and replacement lookups, the deprecation message, and the
  walk over the command tree that marks the deprecated commands.
- `Common` — the `CommonOptions` helpers: `retry` and `retryQuiet`, the job
  name and build number taken from the environment, the image pull secrets,
  choosing an auth server, and the dev-namespace and Kubernetes-client cache.
- `UpgradePlatform` — `jx upgrade platform`:
  - reading the installed version from the `helm list` output;
  - the errors returned before the decision, in the order `Run` meets them;
  - deciding whether to upgrade;
  - the value files and values passed to helm;
  - the calls of the upgrade (file checks and writes, decryption, the
    chart upgrade, removing the temporary files), made in order up to the
    first that fails.
- `UpgradeIngress` — `jx upgrade ingress`:
  - which ingresses are collected;
  - how the exposecontroller configuration is loaded, checked and asked for;
  - the issuer choice;
  - when the webhooks are updated.
- `StepVerifyEnvironments` — `jx step verify environments`:
  - which environments are validated;
  - the process environment it reads;
  - the `GIT_AUTHOR_*` entries added to the release pipeline;
  - the exposecontroller helm values of each environment.
- `UpdateWebhooks` — `jx update webhooks`: which hooks match, what each
  matching hook becomes, and which repositories are visited.
- `VaultSelector` and `Vault` — choosing a vault; the derived vault names,
  the resource `CreateVault` submits and the summaries `GetVaults` builds.
- `Gcloud` — the gcloud and gsutil wrappers: derived names, command lines,
  guards against empty arguments, the parsing of `gcloud services list`,
  `EnableApis` and the recursive retry.
- `StepChangelog` — `jx step changelog`:
  - which commits enter the release;
  - the full commit message;
  - the label conversion;
  - the at-most-once lookup of the issues named in commit messages;
  - the fallbacks for the release-notes URL, the version and the application
    name.
- `AddApp` — the option checks of `jx add app`, the requirements edit of a
  GitOps installation and the names of its pull request, and the set values
  of a direct installation.
- `CreateQuickstart` — `jx create quickstart`:
  - the quickstart locations and their grouping;
  - the project name;
  - the download guard;
  - the machine-learning check;
  - the charts folder name.
- `CommonTeamSettings` — the team settings with their build pack defaults,
  the branch patterns and the helm binary.
- `PipelineNames`, `GetBuildLogs` and `StopPipeline` — the sorted pipeline
  names and their default choice; which build's log `jx get build logs`
  tails for Jenkins and for prow; which builds `jx stop pipeline` stops.
- `CreateClusterGKETerraform` — in `jx create cluster gke terraform`:
  - the choice of the Google project;
  - the rule for creating the `jx-<cluster>` service account and its roles;
  - the cluster labels.
- `Wrappers` and `Strings` — `Option`/`Result` and the parts of Go's
  `strings` and `path/filepath` packages that the code relies on.

Objects whose fields the Go code updates in place are classes with
`modifies` clauses and are proved against specification functions. Examples
are the `PipelineActivity`, the `CommonOptions` cache, the team settings,
the prow configuration and the changelog being collected. The command tree
of `Deprecation` is the exception: it is a datatype, and marking the
deprecated commands builds a new tree. Loops become methods with loop
invariants, and pure computations become functions.

Clients, prompts, the clock and file or network I/O are parameters: results
or oracle functions passed in. Operations that run external commands return
those commands in order. Error results carry the source's own message text.

## Model

| member | source | states |
|---|---|---|
| ControllerBuild.BuildName | pkg/jx/cmd/controller_build.go:133-139 | the build name is the build-name label, else the old build-name label; it is "" exactly when neither label is set to a non-empty value |
| ControllerBuild.OnPod | pkg/jx/cmd/controller_build.go:126-171 | an event is ignored, and the activity untouched, exactly when it is not a pod, is a nil pod, gives no build name, or its build info has an empty git URL or no git info; otherwise a nil activity from GetOrCreate (whose error is only logged) is the nil dereference of line 194, and a non-nil one becomes the updated activity, written back exactly when the update reports a change |
| ControllerBuild.StageTitle | pkg/jx/cmd/controller_build.go:196-197 | the stage title is as long as the container name without "build-step-" and contains no "-"; its full text is stated by StageTitleText |
| ControllerBuild.CreateStepDescription | pkg/jx/cmd/controller_build.go:381-391 | the description is the second argument of the first init container of that name whose first argument is "-url", and "" when there is none |
| ControllerBuild.StageIndex | pkg/jx/cmd/controller_build.go:198 | the stage looked up is the first step whose stage carries the title, or none when no step does |
| ControllerBuild.WithStage | pkg/jx/cmd/controller_build.go:198 | after the lookup a stage with the title exists; the steps are unchanged when one existed, else a fresh stage is appended at the end |
| ControllerBuild.UpdateStage | pkg/jx/cmd/controller_build.go:195-233 | one iteration over an init container status edits only the steps, as ApplyOne says |
| ControllerBuild.ApplyContainersStep | pkg/jx/cmd/controller_build.go:195 | the statuses are processed one after another, in order |
| ControllerBuild.FoldSteps | pkg/jx/cmd/controller_build.go:235-270 | the loop over the steps sets the activity's start time only while it is unset, from the first stage in step order that has one; it reports all-completed, failed and the latest completion as the predicates AllCompleted, AnyFailed and LatestCompletion; `running` is always true |
| ControllerBuild.FoldStep | pkg/jx/cmd/controller_build.go:240-269 | a step extends all-completed only when its stage is finished and neither Running nor Pending, and extends failed when its stage is finished and not Succeeded |
| ControllerBuild.Finish | pkg/jx/cmd/controller_build.go:271-309 | the statements after the loop write the status, completion time and logs URL as Outcome says |
| ControllerBuild.LogsURLOnCompletion | pkg/jx/cmd/controller_build.go:281-302 | the logs URL of a completed activity is regenerated only when empty or not naming the pod, from the dev environment's log location, else an empty one, falling back to the activity's git URL |
| ControllerBuild.AggregateSteps | pkg/jx/cmd/controller_build.go:234-309 | the fold and the writes after it give the spec Aggregate describes |
| ControllerBuild.GenerateBuildLogURL | pkg/jx/cmd/controller_build.go:314-378 | the URL is non-empty exactly when the log was fetched, the location has a git URL and the publication succeeded, and it is then the GitHub pages URL of the log file |
| ControllerBuild.UpdatePipelineActivity | pkg/jx/cmd/controller_build.go:193-311 | the activity's new spec is the container statuses applied and then aggregated; `changed` holds exactly when a spec-level field or the number of steps differs from the shallow copy |
| ControllerBuild.DigitSuffix | pkg/jx/cmd/controller_build.go:394-411 | the answer is a suffix of the text made of digits only, and the character before it, if any, is not a digit |
| ControllerBuild.ApplyOne | pkg/jx/cmd/controller_build.go:195-233 | folding one init container into the steps keeps every step and adds at most one (a new stage) |
| ControllerBuild.ApplyContainers | pkg/jx/cmd/controller_build.go:195-233 | folding the pod's init containers keeps every step and adds at most one per container |
| ControllerBuild.Aggregate | pkg/jx/cmd/controller_build.go:234-309 | aggregation leaves the steps alone, never leaves the activity Pending, and keeps a start time already recorded |
| ControllerBuild.Updated | pkg/jx/cmd/controller_build.go:193-311 | after an update the activity is no longer Pending, has at least the steps it had, and keeps a start time already recorded |
| ControllerBuildProperties.LatestCompletionIsMax | pkg/jx/cmd/controller_build.go:247-254 | the latest completion is at least every finished stage's completion time, and is one of them unless it is zero |
| ControllerBuildProperties.FirstStartIsFirst | pkg/jx/cmd/controller_build.go:244-246 | the start time taken is that of the first stage, in step order, that has one, and there is none exactly when no stage has one |
| ControllerBuildProperties.StageTitleText | pkg/jx/cmd/controller_build.go:196-197 | with n the container name without "build-step-", the title has n's length; each '-' of n becomes ' ', the first character and every character after a non-word character ('-' included) is upper-cased, and every other character is kept |
| ControllerBuildProperties.StageTitleExample | pkg/jx/cmd/controller_build.go:196-197 | the container "build-step-git-merge" is the stage "Git Merge" |
| ControllerBuildProperties.GitMergeLetters | pkg/jx/cmd/controller_build.go:196-197 | the title of "build-step-git-merge" has nine characters, spelling G, i, t, space, M, e, r, g, e |
| ControllerBuildProperties.AggregateRules | pkg/jx/cmd/controller_build.go:237-309 | the status is never Pending; it is Running exactly when not all stages completed, Failed exactly when all completed and some finished stage did not succeed, else Succeeded; a set start time is kept; the completion time is the latest stage completion when all completed; an incomplete activity keeps its completion time and logs URL |
| ControllerBuildProperties.NoStagesSucceeds | pkg/jx/cmd/controller_build.go:237-276 | an activity without stages is all completed and therefore Succeeded |
| ControllerBuildProperties.LogsURLRule | pkg/jx/cmd/controller_build.go:281-302 | a logs URL that already names the pod is kept; otherwise the new one is "" or the GitHub pages URL |
| ControllerBuildProperties.LogURLShape | pkg/jx/cmd/controller_build.go:336-377 | with owner, repository and branch non-empty the URL is https://OWNER.github.io/REPO/jenkins-x/logs/OWNER/REPO/BRANCH/BUILD.log |
| ControllerBuildProperties.LogDirShape | pkg/jx/cmd/controller_build.go:344 | the log directory is jenkins-x/logs/OWNER/REPO/BRANCH |
| ControllerBuildProperties.ApplyOneShape | pkg/jx/cmd/controller_build.go:195-233 | one container adds a step exactly when no stage has its title yet, and every existing step keeps its shape |
| ControllerBuildProperties.ApplyOneOther | pkg/jx/cmd/controller_build.go:200-232 | a container leaves the stage of every other title at the same index and unchanged |
| ControllerBuildProperties.ApplyOneOwn | pkg/jx/cmd/controller_build.go:200-232 | a container edits the stage of its own title, found or created, with its status and times |
| ControllerBuildProperties.ContainersReflected | pkg/jx/cmd/controller_build.go:195-233 | every init container has a stage named by its title; the stage of the last container with a title carries that container's status and description, its non-zero start time and its non-zero finish time |
| ControllerBuildProperties.ReflectsKept | pkg/jx/cmd/controller_build.go:195-233 | a later container with another title leaves a stage reflecting what it reflected |
| ControllerBuildProperties.ReflectsOwn | pkg/jx/cmd/controller_build.go:200-232 | the stage of the last container's title reflects that container |
| ControllerBuildProperties.ApplyContainersShape | pkg/jx/cmd/controller_build.go:195-198 | processing the containers keeps every existing step in place and adds at most one step per container |
| ControllerBuildProperties.ApplyContainersKeepsCount | pkg/jx/cmd/controller_build.go:195-198 | when every container's stage exists, no step is added and every lookup finds the same stage |
| ControllerBuildProperties.NewStageIsChange | pkg/jx/cmd/controller_build.go:194-310 | a container whose title has no stage yet makes the update report a change |
| ControllerBuildProperties.StageEditsNotPersisted | pkg/jx/cmd/controller_build.go:194-310 | when every container's stage exists and the activity was already Running with a start time and stays incomplete, the update reports no change however the stages were edited |
| ControllerBuildIdempotence.StageFoldForm | pkg/jx/cmd/controller_build.go:195-233 | a stage that several init containers with its title are copied into ends with the last container's status and description, and the last non-zero start and finish times, keeping its own where every container's is zero |
| ControllerBuildIdempotence.StageFoldTwice | pkg/jx/cmd/controller_build.go:195-233 | copying the same containers into a stage a second time changes nothing, and the stage keeps its name |
| ControllerBuildIdempotence.StageIndexAppend | pkg/jx/cmd/controller_build.go:198 | appending a step does not move the first stage with an existing title |
| ControllerBuildIdempotence.ApplyContainersPointwise | pkg/jx/cmd/controller_build.go:195-233 | when every container's stage exists, the loop adds no step, edits only the first stage of each title, and leaves it as its containers copied into it in order |
| ControllerBuildIdempotence.ApplyContainersAppend | pkg/jx/cmd/controller_build.go:195-233 | a step appended after the stages the containers use is left alone by the loop |
| ControllerBuildIdempotence.WithStagesHasAll | pkg/jx/cmd/controller_build.go:198 | after GetOrCreateStage for every container, each container has its stage |
| ControllerBuildIdempotence.StagesFirst | pkg/jx/cmd/controller_build.go:195-233 | creating every missing stage first and then copying the containers gives the steps the loop gives |
| ControllerBuildIdempotence.ApplyContainersTwice | pkg/jx/cmd/controller_build.go:195-233 | running the loop over the same init container statuses twice gives the steps of running it once |
| ControllerBuildIdempotence.AggregateTwice | pkg/jx/cmd/controller_build.go:235-309 | the fold over the steps and its final writes, run again on their own result, change nothing |
| ControllerBuildIdempotence.UpdateIdempotent | pkg/jx/cmd/controller_build.go:193-311 | updating an activity a second time with the same pod snapshot and the same environment answers leaves it as the first update did, so the second update reports no change and nothing is written back |
| Strings.LessIrreflexive | pkg/helm/helm_helpers.go:98 | Go's `<` on strings, which DepSorter applies to names, is irreflexive |
| Strings.LessTransitive | pkg/helm/helm_helpers.go:98 | Go's `<` on strings, which DepSorter applies to names, is transitive |
| Strings.LessTotal | pkg/helm/helm_helpers.go:98 | any two different names are ordered one way or the other |
| HelmHelpers.Insert | pkg/helm/helm_helpers.go:113-119 | inserting a dependency into a name-sorted list keeps it sorted and adds exactly that dependency |
| HelmHelpers.SortByName | pkg/helm/helm_helpers.go:119 | sort.Sort(DepSorter) yields a name-sorted permutation of its input |
| HelmHelpers.InsertStable | pkg/helm/helm_helpers.go:119 | inserting a dependency into a name-sorted list puts it after every dependency of the same name, so the dependencies of each name keep their order |
| HelmHelpers.SortByNameStable | pkg/helm/helm_helpers.go:119 | the dependencies of each name come out in their input order, as Go's insertion sort for short lists leaves them (the same chart under two aliases keeps its order) |
| HelmHelpers.IndexOfName | pkg/helm/helm_helpers.go:105-106 | the dependency found is the first one with the app's name, or none when no dependency has it |
| HelmHelpers.Requirements.SetAppVersion | pkg/helm/helm_helpers.go:101-120 | the dependencies become WithAppVersion of the old ones |
| HelmHelpers.Requirements.RemoveApplication | pkg/helm/helm_helpers.go:123-132 | the dependencies and the result become WithoutApp of the old ones |
| HelmHelpersProperties.SetAppVersionInPlace | pkg/helm/helm_helpers.go:105-111 | when the app is present, only its first entry changes: version, repository and alias are set, every other field and every other entry is kept, and nothing is re-sorted |
| HelmHelpersProperties.SetAppVersionAppends | pkg/helm/helm_helpers.go:113-119 | when the app is absent, the result is sorted by name and is the old list plus exactly the new dependency |
| HelmHelpersProperties.SetAppVersionEffect | pkg/helm/helm_helpers.go:101-120 | afterwards the first entry named after the app carries the given version, repository and alias |
| HelmHelpersProperties.SetAppVersionIdempotent | pkg/helm/helm_helpers.go:101-120 | setting the same app version twice is setting it once |
| HelmHelpersProperties.RemoveApplicationRule | pkg/helm/helm_helpers.go:123-132 | true exactly when some dependency has the name; then the first such is removed, the rest is sorted and otherwise the same; else the list is unchanged |
| HelmHelpersProperties.RemoveUndoesAdd | pkg/helm/helm_helpers.go:101-132 | removing an app just added to a list without it reports true and gives back the same dependencies |
| HelmHelpers.SubdirProbes | pkg/helm/helm_helpers.go:172-183 | at most one probe per directory entry, for the entries that are directories |
| HelmHelpers.FirstExistingAppend | pkg/helm/helm_helpers.go:159-197 | probing two runs of candidates in turn is probing the first, and only if nothing was found there the second |
| HelmHelpers.Probe | pkg/helm/helm_helpers.go:159-167 | the probe loop stops at the first candidate that exists or whose test errs |
| HelmHelpers.FindFileName | pkg/helm/helm_helpers.go:154-199 | findFileName is FindFileNameSpec: env/FILE, then FILE, then every sub-directory's FILE, then the two directories' existence |
| HelmHelpers.SubdirCandidates | pkg/helm/helm_helpers.go:172-177 | the candidates are FILE inside each sub-directory of the listing, in listing order, plain files skipped |
| HelmHelpersProperties.FirstExistingSound | pkg/helm/helm_helpers.go:159-197 | a name found is the answer of a probe whose test reported that the path exists |
| HelmHelpersProperties.FindFileNameSound | pkg/helm/helm_helpers.go:154-199 | a file name found comes from one of the candidates and its test reported existence |
| HelmHelpersProperties.FindFileNamePrefersEnv | pkg/helm/helm_helpers.go:155-166 | when DIR/env/FILE exists, it is the answer |
| HelmHelpersProperties.FindFileNameNothing | pkg/helm/helm_helpers.go:198 | when no path exists and the directory can be read, the error is "Could not deduce the default requirements.yaml file name" |
| HelmHelpersProperties.RepoChartIsRemote | pkg/helm/helm_helpers.go:443 | a chart named REPO/CHART is fetched, not copied |
| HelmHelpersProperties.NestedPathIsLocal | pkg/helm/helm_helpers.go:443 | a chart name with two slashes is treated as a local path |
| HelmHelpers.UnknownZeroValue | pkg/helm/helm_helpers.go:666-672 | the value is never empty, and a non-empty value is kept |
| HelmHelpers.WriteRow | pkg/helm/helm_helpers.go:644-658 | each row appends one table line to the README and nothing else |
| HelmHelpers.GenerateReadmeForChart | pkg/helm/helm_helpers.go:639-664 | the README built step by step is the specification Readme |
| HelmHelpersProperties.ReadmeTitle | pkg/helm/helm_helpers.go:642 | the README starts with "# NAME" (or "unknown") and the metadata table header |
| HelmHelpersProperties.ReadmeHasVersionRow | pkg/helm/helm_helpers.go:644-646 | a non-empty version gets its table row |
| HelmHelpersProperties.ReadmeHasReleaseNotesRow | pkg/helm/helm_helpers.go:656-658 | a non-empty release notes URL gets its table row |
| HelmHelpersProperties.ReadmeEndsWithApp | pkg/helm/helm_helpers.go:660-662 | a non-empty app README is appended last under "## App README.MD" |
| HelmHelpers.EntryWrite | pkg/helm/helm_helpers.go:678-689 | an entry without "=" writes nothing; otherwise the path is the text before the first "=" and PATH=VALUE rebuilds the entry, and the value is the boolean false exactly when its text is "false" |
| HelmHelpers.Writes | pkg/helm/helm_helpers.go:677-691 | at most one write per entry |
| HelmHelpers.WritesSnoc | pkg/helm/helm_helpers.go:677 | the entries are written in order |
| HelmHelpers.SetValuesToMap | pkg/helm/helm_helpers.go:675-693 | the map is the empty map with the entries' writes applied in order |
| HelmHelpersProperties.WritesAppend | pkg/helm/helm_helpers.go:677-691 | the writes of two runs of entries are the writes of each, one after the other |
| HelmHelpersProperties.WritesSkipPlain | pkg/helm/helm_helpers.go:679 | entries without "=" write nothing |
| HelmHelpersProperties.EntryWriteFalse | pkg/helm/helm_helpers.go:684-685 | "a.b=false" writes the boolean false at a.b |
| HelmHelpersProperties.EntryWriteFirstEquals | pkg/helm/helm_helpers.go:678 | "a=b=c" writes the string "b=c" at a: only the first "=" splits |
| HelmHelpers.DecorateWithCredentials | pkg/helm/helm_helpers.go:599-635 | without a repository or a vault nothing happens; a read error is wrapped; an empty username or password is filled from the stored credentials of the repository; credentials passed in are written back, and a write error is wrapped |
| HelmHelpers.WithAppVersion | pkg/helm/helm_helpers.go:101-120 | an existing dependency is updated in place (same length); otherwise the new dependency is added and the list sorted by name, a permutation of the old list plus the new entry |
| HelmHelpers.WithoutApp | pkg/helm/helm_helpers.go:123-132 | reports a removal exactly when the application is a dependency; without one the list is unchanged, with one it is sorted by name and one shorter |
| HelmHelpers.FindFileNameSpec | pkg/helm/helm_helpers.go:154-199 | the file in the environment chart directory wins when it exists; when none of the top-level probes exists a directory-read error is returned as is |
| BranchProtection.WithContexts | pkg/prow/config/branch_protection.go:53 | writing a repository's contexts back leaves it with a policy holding exactly those contexts |
| BranchProtection.BranchProtectionConfig.AddRepoToBranchProtection | pkg/prow/config/branch_protection.go:11-55 | the section and the error become AddRepo of the old section, whose effect on any section AddRepoEffect, AddRepoFrame and AddRepoKeepsRepos state |
| BranchProtection.BranchProtectionConfig.RemoveRepoFromBranchProtection | pkg/prow/config/branch_protection.go:58-73 | the section and the error become RemoveRepo of the old section |
| BranchProtection.AllContexts | pkg/prow/config/branch_protection.go:76-92 | contexts are found only for a repository that has a policy, and are its policy's contexts |
| BranchProtection.UserContexts | pkg/prow/config/branch_protection.go:100-104 | the filter keeps exactly the contexts other than the serverless-jenkins and promotion-build ones |
| BranchProtection.GetBranchProtectionContexts | pkg/prow/config/branch_protection.go:94-106 | the result is the repository's contexts, or none, without the two jx-managed contexts, and no error |
| BranchProtection.AddRepo | pkg/prow/config/branch_protection.go:11-55 | the section is always marked tested with an org map; a repo-name error is returned; on success the org and repo have a protection policy |
| BranchProtection.RemoveRepo | pkg/prow/config/branch_protection.go:58-73 | a failure leaves the section unchanged; on success the repo is no longer among its org's repos |
| BranchProtectionProperties.AddCreatesEntries | pkg/prow/config/branch_protection.go:12-35 | ProtectTested is always set; once the repository spec parses, the org and repository entries exist unless a nil map or pointer panic ended the call |
| BranchProtectionProperties.AddRepoEffect | pkg/prow/config/branch_protection.go:20-54 | on any section, an org with a nil repos map panics and a repository with a nil RequiredStatusChecks panics, both leaving the orgs as they were; otherwise the edit succeeds exactly for a known kind and the contexts become NextContexts of the existing ones (the managed context added at most once, the existing contexts kept in order, Protection appending the passed context while compliance-check is absent); an unknown kind returns "unknown Prow config kind <kind>" with the existing contexts kept, now non-nil |
| BranchProtectionProperties.AddRepoFrame | pkg/prow/config/branch_protection.go:13-24 | every org other than the repository's is kept, and no other org is added |
| BranchProtectionProperties.AddRepoKeepsRepos | pkg/prow/config/branch_protection.go:25-54 | within the org every other repository is kept and no other is added, and an existing policy keeps its strict setting |
| BranchProtectionProperties.AddUnknownKind | pkg/prow/config/branch_protection.go:50-51 | an unknown kind fails with "unknown Prow config kind KIND" after the entries were created, with empty contexts |
| BranchProtectionProperties.AddToEmpty | pkg/prow/config/branch_protection.go:11-55 | adding to an empty section registers the repository with the single context its kind calls for |
| BranchProtectionProperties.ManagedContextAddedOnce | pkg/prow/config/branch_protection.go:38-45 | the Application and Environment kinds append their managed context only when absent, keep the earlier contexts in order, and a repeat changes nothing |
| BranchProtectionProperties.ProtectionDuplicates | pkg/prow/config/branch_protection.go:46-49 | the Protection kind tests for the compliance check but appends the given context, so adding it twice lists it twice |
| BranchProtectionProperties.AddApplicationIdempotent | pkg/prow/config/branch_protection.go:11-55 | a successful Application add repeated leaves the section as it was |
| BranchProtectionProperties.RemoveRule | pkg/prow/config/branch_protection.go:58-73 | without orgs it fails with "no orgs in BranchProtection object"; a failure changes nothing; a success deletes exactly that repository of that org and keeps everything else |
| BranchProtectionProperties.RemoveAbsentIsNoOp | pkg/prow/config/branch_protection.go:71 | removing a repository that is not there leaves the section unchanged |
| BranchProtectionProperties.UserContextsAppend | pkg/prow/config/branch_protection.go:100-104 | the filter works context by context, keeping their order |
| BranchProtectionProperties.UserContextsKeepsOthers | pkg/prow/config/branch_protection.go:100-104 | contexts that are not jx-managed are all kept |
| BranchProtectionProperties.MissingReadsEmpty | pkg/prow/config/branch_protection.go:77-91 | a missing org, repository map or repository reads as no contexts |
| Deprecation.GetRemovalDate | pkg/cmd/deprecation/deprecated.go:123-129 | a command outside the table has no removal date; a listed one has its entry's date |
| Deprecation.GetReplacement | pkg/cmd/deprecation/deprecated.go:132-138 | a command outside the table has no replacement; a listed one has its entry's replacement |
| Deprecation.NamesTo | pkg/cmd/deprecation/deprecated.go:158-167 | every command reached from the root has a non-empty name path |
| Deprecation.CommandPath | pkg/cmd/deprecation/deprecated.go:158-167 | the path of a top-level command is its own name; a deeper path is at least as long as the command's name |
| Deprecation.DeprecationMessage | pkg/cmd/deprecation/deprecated.go:140-156 | without a date the message opens with "it will be soon removed. "; extra info ends it after a space; with neither replacement nor info it ends in a space |
| Deprecation.DeprecateCommands | pkg/cmd/deprecation/deprecated.go:109-120 | every command keeps its name and its number of children; a command whose path is in the table gets that entry's message, any other keeps its deprecation text; each child is processed with the parent's path |
| DeprecationProperties.RootPath | pkg/cmd/deprecation/deprecated.go:158-167 | the root command's path is "jx" |
| DeprecationProperties.PathBelowRoot | pkg/cmd/deprecation/deprecated.go:158-167 | below the root, a command's path is its names after "jx" separated by single spaces, so it matches the table's keys |
| DeprecationProperties.JoinNoLeadingJx | pkg/cmd/deprecation/deprecated.go:167 | a path whose first name is not "jx" has no "jx " prefix to trim |
| DeprecationProperties.JoinSnoc | pkg/cmd/deprecation/deprecated.go:162-167 | a child's path is its parent's path, a space and its own name |
| DeprecationProperties.IstioPath | pkg/cmd/deprecation/deprecated.go:158-167 | the path of jx create addon istio is "create addon istio" |
| DeprecationProperties.AllRemovedOnSameDate | pkg/cmd/deprecation/deprecated.go:12-98 | every deprecated command is removed on Sep 1 2020 |
| DeprecationProperties.MessageShape | pkg/cmd/deprecation/deprecated.go:140-156 | the message starts with the removal-date sentence and a space, ends with the info when there is one, and is only that sentence and the space when there is neither replacement nor info |
| DeprecationProperties.MessageRecommends | pkg/cmd/deprecation/deprecated.go:148-150 | a replacement is recommended in the message |
| DeprecationProperties.CreateVaultMessage | pkg/cmd/deprecation/deprecated.go:38-41 | create vault's message is the date sentence, two spaces and "This commands will have no replacement." |
| DeprecationProperties.IstioReplacement | pkg/cmd/deprecation/deprecated.go:74-77 | create addon istio is replaced by "jx add app jx-app-istio" and removed on Sep 1 2020 |
| DeprecationProperties.RelabelEveryNode | pkg/cmd/deprecation/deprecated.go:109-120 | the walk visits every command of the tree, keeps names and sub-command counts, and labels each command by its full path |
| DeprecationProperties.DeprecateEveryNode | pkg/cmd/deprecation/deprecated.go:109-120 | every command whose path is in the table gets its deprecation message, and every other command keeps its Deprecated text |
| DeprecationProperties.RelabelAddsNothing | pkg/cmd/deprecation/deprecated.go:109-120 | the walk adds no command |
| Common.MaxCalls | pkg/jx/cmd/common.go:521-529 | the loop makes at least one call, and at least `attempts` |
| Common.Retry | pkg/jx/cmd/common.go:520-536 | retry calls until the first success or until the attempts are used up, failing with "after N attempts, last error: E"; it logs "retrying after error:E" once per retried failure |
| Common.QuietStep | pkg/jx/cmd/common.go:557-568 | every retried failure logs one line, a dot or the message |
| Common.RetryQuiet | pkg/jx/cmd/common.go:538-571 | retryQuiet makes the same calls with the same result as retry, and logs QuietLog |
| CommonProperties.RetryResultUnique | pkg/jx/cmd/common.go:520-571 | the number of calls and the result are determined by the attempts and the calls' outcomes, so retry and retryQuiet agree |
| CommonProperties.RetrySucceedsIff | pkg/jx/cmd/common.go:521-535 | the retry succeeds exactly when one of the first MaxCalls calls succeeds |
| CommonProperties.RetryNoAttempts | pkg/jx/cmd/common.go:527-535 | with no attempts allowed, one failed call ends it with "after N attempts, last error: E" |
| CommonProperties.QuietRepeatedError | pkg/jx/cmd/common.go:557-568 | a repeated error is logged once, then as one dot per repetition |
| CommonProperties.QuietLinesAreMessages | pkg/jx/cmd/common.go:557-567 | every non-dot line retryQuiet logs is "retrying after error: E" for some failed call |
| Common.JobName | pkg/jx/cmd/common.go:765-779 | the job name is OWNER/REPO/BRANCH when all three are set, else JOB_NAME |
| CommonProperties.JobNameSplits | pkg/jx/cmd/common.go:770-771 | a job name built from three slash-free parts splits back into them |
| CommonProperties.JobNameFallsBack | pkg/jx/cmd/common.go:774-778 | without an owner the job name is JOB_NAME |
| Common.BuildNumber | pkg/jx/cmd/common.go:781-795 | the build number is the first of JX_BUILD_NUMBER, BUILD_NUMBER, BUILD_ID that is set, and "" exactly when none is |
| Common.ImagePullSecrets | pkg/jx/cmd/common.go:329-332 | every pull secret is a non-empty, space-free word |
| CommonProperties.PullSecretsRoundTrip | pkg/jx/cmd/common.go:329-332 | space-separated secret names are read back as the same names in order |
| CommonProperties.FieldsCons | pkg/jx/cmd/common.go:329-332 | a secret name followed by a space and the rest reads back as that name followed by the names of the rest |
| CommonProperties.PullSecretsExample | pkg/jx/cmd/common.go:330 | "foo, bar, baz" gives "foo,", "bar," and "baz": commas are not separators |
| Common.GetServer | pkg/jx/cmd/common.go:363 | the server found by URL is a configured server with that URL, and none is found exactly when no server has it |
| Common.GetServerByName | pkg/jx/cmd/common.go:376 | the server found by name is a configured server with that name, and none is found exactly when no server has it |
| Common.ServerURLs | pkg/jx/cmd/common.go:368 | the URLs offered in the invalid-option error are the servers' URLs, in order |
| Common.ServerNames | pkg/jx/cmd/common.go:379 | the names offered are the servers' names, in order |
| CommonProperties.UnknownURLIsInvalid | pkg/jx/cmd/common.go:362-369 | an unknown --url is an invalid option, unless servers are created lazily, when it is created |
| CommonProperties.KnownURLWins | pkg/jx/cmd/common.go:362-370 | a known --url chooses the first server with that URL |
| CommonProperties.FirstByURL | pkg/jx/cmd/common.go:363 | the lookup by URL finds the first server with that URL |
| CommonProperties.CurrentServerIgnoredOutsideBatch | pkg/jx/cmd/common.go:382-393 | outside batch mode the current server does not matter when at most one server is configured |
| CommonProperties.SingleServerChosen | pkg/jx/cmd/common.go:391-393 | without flags, the only server is chosen |
| CommonProperties.BatchNeedsAName | pkg/jx/cmd/common.go:394-396 | in batch mode several servers without a usable current server fail with "Multiple servers found. Please specify one via the name option" |
| CommonProperties.NoServersIsError | pkg/jx/cmd/common.go:414-416 | without flags and servers the error is "Could not find a KIND. DESCRIPTION" |
| CommonProperties.FoundServerIsConfigured | pkg/jx/cmd/common.go:359-418 | without lazy creation, the server found is always a configured one |
| Common.CommonOptions.SetDevNamespace | pkg/jx/cmd/common.go:129-133 | both namespaces become the given one and the cached client is dropped |
| Common.CommonOptions.KubeClient | pkg/jx/cmd/common.go:166-177 | a cached client is returned with the current namespace; otherwise the factory is asked, and on success its client and namespace are cached; a factory error changes nothing |
| Common.FindServer | pkg/jx/cmd/common.go:359-418 | a server URL that is configured gives that server; a URL with lazy creation always gives a server; without lazy creation a found server is configured with that URL |
| UpgradePlatform.LastOrAppend | pkg/jx/cmd/upgrade_platform.go:125-135 | the version after scanning two runs of lines is the last version of the second run, else that of the first |
| UpgradePlatform.CurrentVersion | pkg/jx/cmd/upgrade_platform.go:119-136 | the current version is the last version found in the helm list output, or "" |
| UpgradePlatform.ScanLine | pkg/jx/cmd/upgrade_platform.go:126-134 | a line changes the version only through its jenkins-x row's chart fields |
| UpgradePlatform.ScanFields | pkg/jx/cmd/upgrade_platform.go:128-133 | each field from the fifth on that starts with the chart prefix sets the version to the rest of the field |
| UpgradePlatform.ReadVersions | pkg/jx/cmd/upgrade_platform.go:102-140 | without a version flag a clone or version-loading error is returned; a helm list error is returned; no installed version fails with "Jenkins X platform helm chart is not installed."; otherwise the target version, the installed version and the clone directory |
| UpgradePlatform.PlanUpgrade | pkg/jx/cmd/upgrade_platform.go:103-275 | the decision Run reaches before its first upgrade call is exactly Planned: the first error in source order, NoSecret, AlreadyInstalled or the assembled upgrade |
| UpgradePlatform.PrepareUpgrade | pkg/jx/cmd/upgrade_platform.go:140-193 | once the versions are read, the team settings, second clone, environment dir, config dir and secret lookup errors come first in that order, then the no-secret and already-installed cases, as Planned states |
| UpgradePlatform.AssembleUpgrade | pkg/jx/cmd/upgrade_platform.go:195-275 | the helm upgrade is to the target version with the --set value, the fixed value files then myvalues.yaml, the temporary files created and those cleaned up, as UpgradePlan states |
| UpgradePlatformProperties.PlannedRules | pkg/jx/cmd/upgrade_platform.go:103-193 | without a version flag a clone or version-loading error is returned; then a helm list error, and "Jenkins X platform helm chart is not installed." when no version is installed; then the team settings error, the wrapped second-clone error, the missing environment directory, the wrapped config-dir error and the wrapped secret-lookup error, all before the versions are compared; a lookup without a secret ends the run without error; the same version without --always-upgrade skips the upgrade; otherwise the upgrade is planned; a plan exists exactly when the versions are read, the run is prepared and the secret lookup succeeded |
| UpgradePlatform.CreatedFiles | pkg/jx/cmd/upgrade_platform.go:199-233 | exactly the missing secrets, admin secrets and config files are written, in that order |
| UpgradePlatform.ValueFiles | pkg/jx/cmd/upgrade_platform.go:235-264 | the value files are in that fixed order, the decrypted secrets replace the cloud secrets only when sops is configured and decryption produced the file, and myvalues.yaml comes last when present |
| UpgradePlatform.RemovedFiles | pkg/jx/cmd/upgrade_platform.go:280-292 | cleanup removes the secrets file, and the config file only when this run created it |
| UpgradePlatform.ActionError | pkg/jx/cmd/upgrade_platform.go:199-292 | every failing call's error ends with ": " and the cause, as errors.Wrap formats it |
| UpgradePlatform.TempFileActions | pkg/jx/cmd/upgrade_platform.go:199-233 | a write happens exactly for each of the secrets, admin secrets and config files that did not exist, and only existence checks and writes are made |
| UpgradePlatform.SecretsActions | pkg/jx/cmd/upgrade_platform.go:235-258 | the cloud secrets file is decrypted exactly when a sops configuration exists |
| UpgradePlatform.CleanupActions | pkg/jx/cmd/upgrade_platform.go:280-292 | the secrets file is removed exactly when cleanup is on, the config file exactly when cleanup is on and this run created it |
| UpgradePlatform.ActionsCalls | pkg/jx/cmd/upgrade_platform.go:199-292 | the calls of an upgrade include the chart upgrade and AppendMyValues, a write exactly for each missing temporary file, the decryption exactly with sops, and the secrets cleanup exactly when cleanup is on |
| UpgradePlatform.ActionsWrites | pkg/jx/cmd/upgrade_platform.go:199-233 | the writes among all the calls of an upgrade are exactly those of the temporary files |
| UpgradePlatform.ActionsDecrypt | pkg/jx/cmd/upgrade_platform.go:235-258 | the cloud secrets are decrypted among all the calls exactly when the sops step decrypts them |
| UpgradePlatform.ActionsCleanup | pkg/jx/cmd/upgrade_platform.go:260-292 | the secrets file is removed among all the calls exactly when the cleanup step removes it, and the chart upgrade and AppendMyValues are always among them |
| UpgradePlatform.Completed | pkg/jx/cmd/upgrade_platform.go:199-292 | the calls before the first failing one all succeed, and the one after them fails |
| UpgradePlatform.Execute | pkg/jx/cmd/upgrade_platform.go:199-292 | the calls are made in order up to the first failure, whose wrapped error is returned; with no failure the result is nil |
| UpgradePlatform.Run | pkg/jx/cmd/upgrade_platform.go:103-294 | a planning error is returned with no call made; NoSecret and AlreadyInstalled return nil with no call made; an upgrade makes its calls in order up to the first failure, returning nil when every call succeeded and that call's wrapped error otherwise |
| UpgradePlatformProperties.CompletedAll | pkg/jx/cmd/upgrade_platform.go:199-292 | every call of the upgrade is made exactly when none of them fails |
| UpgradePlatformProperties.OtherLinesIgnored | pkg/jx/cmd/upgrade_platform.go:127 | lines that are not a jenkins-x row with more than four fields change nothing |
| UpgradePlatformProperties.LastMatchWins | pkg/jx/cmd/upgrade_platform.go:128-133 | a last line whose last field carries the chart prefix decides the version |
| UpgradePlatformProperties.ListedVersionsSound | pkg/jx/cmd/upgrade_platform.go:125-135 | every version listed comes from a jenkins-x row's field, from the fifth on, that starts with the chart prefix |
| UpgradePlatformProperties.LastRowCarries | pkg/jx/cmd/upgrade_platform.go:126-134 | a version found in a line comes from one of its fields |
| UpgradePlatformProperties.RowVersions | pkg/jx/cmd/upgrade_platform.go:127-128 | only a jenkins-x row yields versions, and only from its fields from the fifth on |
| UpgradePlatformProperties.FieldVersionsSound | pkg/jx/cmd/upgrade_platform.go:128-133 | every version comes from one field |
| UpgradeIngress.IsIngressForServices | pkg/jx/cmd/upgrade_ingress.go:314-335 | an ingress qualifies iff there is no service filter or some HTTP path backend of some rule names a filtered service |
| UpgradeIngress.AnyRuleNames | pkg/jx/cmd/upgrade_ingress.go:320-334 | the loop over the rules, skipping rules without HTTP, is true iff some rule's path names a filtered service |
| UpgradeIngress.AnyPathNames | pkg/jx/cmd/upgrade_ingress.go:326-332 | the loop over one rule's paths is true iff some backend service is in the filter |
| UpgradeIngress.IndexIn | pkg/jx/cmd/upgrade_ingress.go:328 | the index found names a filtered service |
| UpgradeIngress.ScanNamespaces | pkg/jx/cmd/upgrade_ingress.go:368-381 | namespaces are listed in order up to the first failed listing, and all of them are listed when none fails |
| UpgradeIngress.CheckNotEmpty | pkg/jx/cmd/upgrade_ingress.go:526-531 | the check fails iff the value is empty, with "<name> config value must not be empty" |
| UpgradeIngress.QuoteTemplate | pkg/jx/cmd/upgrade_ingress.go:447-452 | a non-empty template not starting with a double or single quote is wrapped in double quotes; any other is kept |
| UpgradeIngress.UpgradeIngressOptions.ScanEach | pkg/jx/cmd/upgrade_ingress.go:365-381 | the loop over --namespaces collects the qualifying ingresses and appends each namespace listed to TargetNamespaces, stopping at a failed listing |
| UpgradeIngress.UpgradeIngressOptions.GetExistingIngressRules | pkg/jx/cmd/upgrade_ingress.go:337-421 | the ingresses to delete and the namespaces appended to TargetNamespaces are those of the cluster, --namespaces or current-namespace branch, and a non-empty set needs confirmation outside batch mode |
| UpgradeIngress.UpgradeIngressOptions.ConfirmExposecontrollerConfig | pkg/jx/cmd/upgrade_ingress.go:423-524 | the stored config of the config namespace is loaded with the flag template and domain overriding it, then checked in batch mode or completed by the prompts otherwise |
| UpgradeIngress.UpgradeIngressOptions.LoadIngressConfig | pkg/jx/cmd/upgrade_ingress.go:435-457 | the stored config of the config namespace replaces the current one when it is found, keeping the current non-empty URL template (quoted) and domain |
| UpgradeIngress.UpgradeIngressOptions.CheckBatch | pkg/jx/cmd/upgrade_ingress.go:459-473 | in batch mode the exposer, the domain and, with TLS, the issuer and email must be non-empty, the first empty one failing |
| UpgradeIngress.UpgradeIngressOptions.AskInteractively | pkg/jx/cmd/upgrade_ingress.go:474-521 | the prompts set exposer, domain, the TLS settings unless the domain ends in nip.io, and the URL template, stopping at the first error |
| UpgradeIngress.Collect | pkg/jx/cmd/upgrade_ingress.go:373-379 | the collection loop adds the exposecontroller ingresses that pass the filter, keyed by name |
| UpgradeIngress.UpdateWebHooks | pkg/jx/cmd/upgrade_ingress.go:300-310 | webhooks are updated iff batch mode or the user confirms, and the endpoint changed or --force is set (the guard updateWebHooks checks at upgrade_ingress.go:624-628); errors of the update are ignored |
| UpgradeIngress.ScanFailed | pkg/jx/cmd/upgrade_ingress.go:369-372 | a failed listing ends the scan with "cannot list all ingresses in cluster: " and the error |
| UpgradeIngress.ScanStaysFailed | pkg/jx/cmd/upgrade_ingress.go:368-372 | once a listing fails, later namespaces are not visited |
| UpgradeIngress.AddIngresses | pkg/jx/cmd/upgrade_ingress.go:373-379 | existing keys stay, every qualifying ingress's name becomes a key, and every new key is the name of a qualifying ingress |
| UpgradeIngress.Loaded | pkg/jx/cmd/upgrade_ingress.go:441-457 | with no stored config the flags are used; otherwise email, TLS, exposer and issuer come from the stored config and the domain from the flag when given |
| UpgradeIngress.BatchCheck | pkg/jx/cmd/upgrade_ingress.go:459-473 | batch mode passes exactly when exposer and domain are set and, with TLS, issuer and email are set |
| UpgradeIngressProperties.AddIngressesKeys | pkg/jx/cmd/upgrade_ingress.go:352-358 | a name is collected iff it was already there or some exposecontroller ingress passing the filter has it |
| UpgradeIngressProperties.AddIngressesLastWins | pkg/jx/cmd/upgrade_ingress.go:373-379 | a name maps to the namespace of the last qualifying ingress of that name |
| UpgradeIngressProperties.SameNameCollapses | pkg/jx/cmd/upgrade_ingress.go:391-397 | two qualifying ingresses of the same name in different namespaces leave one entry, the later namespace |
| UpgradeIngressProperties.NoFilterTakesAll | pkg/jx/cmd/upgrade_ingress.go:316-319 | without a service filter every ingress qualifies |
| UpgradeIngressProperties.QuoteIdempotent | pkg/jx/cmd/upgrade_ingress.go:449-451 | quoting a quoted template changes nothing |
| UpgradeIngressProperties.LoadedOverrides | pkg/jx/cmd/upgrade_ingress.go:441-457 | a loaded config takes the stored values with the quoted flag template and the flag domain |
| UpgradeIngressProperties.BatchCheckRule | pkg/jx/cmd/upgrade_ingress.go:459-473 | batch mode passes iff exposer and domain are set, and issuer and email when TLS is on; the first missing one is named in the error |
| UpgradeIngressProperties.IssuerNames | pkg/jx/cmd/upgrade_ingress.go:492-500 | "production" gives letsencrypt-prod and "staging" letsencrypt-staging |
| UpgradeIngressProperties.NipDomainSkipsTLS | pkg/jx/cmd/upgrade_ingress.go:485 | a nip.io domain asks nothing about TLS |
| UpgradeIngressProperties.ScanListsAll | pkg/jx/cmd/upgrade_ingress.go:368-381 | a scan without failures lists every namespace |
| UpgradeIngressProperties.NothingToDelete | pkg/jx/cmd/upgrade_ingress.go:401-403 | with nothing to delete no confirmation is asked |
| StepVerifyEnvironments.ToValidate | pkg/cmd/step/verify/step_verify_environments.go:83-94 | the environments validated are a subsequence of the listed ones, at most as many |
| StepVerifyEnvironments.Run | pkg/cmd/step/verify/step_verify_environments.go:67-105 | a listing error is "failed to load Environments in namespace <ns>"; the environments that qualify are validated in order up to the first failure, whose error is returned; when all pass, the requirements are stored and a store error is wrapped |
| StepVerifyEnvironments.ValidateAll | pkg/cmd/step/verify/step_verify_environments.go:83-94 | the loop validates a prefix of the qualifying environments, all but the last passing; with no failure it validates all of them |
| StepVerifyEnvironments.ToValidateSnoc | pkg/cmd/step/verify/step_verify_environments.go:83-94 | one more environment adds itself to the validations exactly when it qualifies |
| StepVerifyEnvironments.ToValidatePrefix | pkg/cmd/step/verify/step_verify_environments.go:83-86 | the environments qualifying in a prefix of the list are a prefix of those of the whole list |
| StepVerifyEnvironments.ReadEnvironment | pkg/cmd/step/verify/step_verify_environments.go:135-155 | the error list is empty iff both REPO_URL and BASE_CONFIG_REF are set; each variable's "must be specified" message is in it iff that variable is unset, the URL's first when both are; the values read are returned, "" when unset |
| StepVerifyEnvironments.HasEntry | pkg/cmd/step/verify/step_verify_environments.go:207-214 | true iff some entry's name equals the key |
| StepVerifyEnvironments.ModifyPipelineGitEnvVars | pkg/cmd/step/verify/step_verify_environments.go:157-205 | a parameters error is wrapped; without both username and email nothing is written; a project config error is wrapped; otherwise the release pipeline's variables with the git author entries added are saved, and a save error is wrapped |
| StepVerifyEnvironments.CreateEnvironmentHelmValues | pkg/cmd/step/verify/step_verify_environments.go:399-404 | a lookup error gives an empty config with the wrapped error, a missing environment an empty config and no error, and a found one an exposecontroller config |
| StepVerifyEnvironments.AddIfAbsent | pkg/cmd/step/verify/step_verify_environments.go:174-186 | the variables are kept as a prefix, the key is present afterwards, and every key present before still is |
| StepVerifyEnvironments.WithGitAuthor | pkg/cmd/step/verify/step_verify_environments.go:172-188 | the old variables are a prefix, at most two are added, both author variables are present, and nothing changes when both already were |
| StepVerifyEnvironmentsProperties.ValidatedKinds | pkg/cmd/step/verify/step_verify_environments.go:85-86 | an environment qualifies iff it has a source URL and is Permanent, or Development with GitOps on |
| StepVerifyEnvironmentsProperties.ToValidateMembers | pkg/cmd/step/verify/step_verify_environments.go:83-94 | an environment is validated iff it is listed and qualifies |
| StepVerifyEnvironmentsProperties.ToValidateAppend | pkg/cmd/step/verify/step_verify_environments.go:83-94 | the filter distributes over concatenation of environment lists |
| StepVerifyEnvironmentsProperties.GitAuthorPresent | pkg/cmd/step/verify/step_verify_environments.go:174-186 | afterwards both GIT_AUTHOR_NAME and GIT_AUTHOR_EMAIL are present |
| StepVerifyEnvironmentsProperties.GitAuthorKeepsExisting | pkg/cmd/step/verify/step_verify_environments.go:172-188 | existing entries are kept in order and at most two are appended: none when both exist, both, name first, when neither does |
| StepVerifyEnvironmentsProperties.GitAuthorIdempotent | pkg/cmd/step/verify/step_verify_environments.go:174-186 | adding the git author entries twice is adding them once |
| StepVerifyEnvironmentsProperties.HelmValuesSettings | pkg/cmd/step/verify/step_verify_environments.go:405-427 | the domain is the environment's when non-empty, else the global one; the exposer is Ingress and the template the default; TLS gives HTTP "false" and TLSAcme "true", else "true" and "false" |
| StepVerifyEnvironmentsProperties.HelmValuesSecret | pkg/cmd/step/verify/step_verify_environments.go:430-441 | Production follows the TLS production flag; the secret name is set only with TLS, as tls-<domain>-p or -s with every dot replaced by a dash |
| StepVerifyEnvironmentsProperties.SecretNameShape | pkg/cmd/step/verify/step_verify_environments.go:431-436 | the secret name is "tls-" + domain + "-p" in production, else "-s" |
| StepVerifyEnvironmentsProperties.ReadEnvironmentBothMissing | pkg/cmd/step/verify/step_verify_environments.go:138-147 | with both variables unset both errors are combined, URL first |
| UpdateWebhooks.HookUpdates | pkg/jx/cmd/update_webhooks.go:132-158 | a dry run updates nothing; otherwise each update carries the new URL, the org, the repository and, with prow, the hmac secret, at most one per hook |
| UpdateWebhooks.UpdateRepoHook | pkg/jx/cmd/update_webhooks.go:124-160 | a listing error is "unable to list webhooks: <error>" with no updates; otherwise the updates are those of the matching hooks |
| UpdateWebhooks.Run | pkg/jx/cmd/update_webhooks.go:106-121 | a named repository updates only that repository's hooks; otherwise a listing error is "unable to list repositories: <error>", else every repository of the org is updated in order |
| UpdateWebhooksProperties.PreviousUrlWins | pkg/jx/cmd/update_webhooks.go:162-165 | with a previous hook URL, a hook matches iff its URL equals it, whatever the exact-match flag |
| UpdateWebhooksProperties.MatchWithoutPrevious | pkg/jx/cmd/update_webhooks.go:167-171 | without it, a hook matches by equality with the new endpoint under exact matching, else by containing "hook.jx" |
| UpdateWebhooksProperties.OneUpdatePerMatch | pkg/jx/cmd/update_webhooks.go:134-156 | outside a dry run there is exactly one update per matching hook |
| UpdateWebhooksProperties.UpdateContents | pkg/jx/cmd/update_webhooks.go:139-149 | every update names the new URL, the org and the repository, with the hmac secret iff prow is enabled |
| UpdateWebhooksProperties.DryRunUpdatesNothing | pkg/jx/cmd/update_webhooks.go:153-155 | a dry run makes no update call for any repository |
| UpdateWebhooksProperties.UpdatesStayInRepos | pkg/jx/cmd/update_webhooks.go:116-118 | every update is for one of the repositories visited |
| VaultSelector.FirstNamed | pkg/vault/vaultselector.go:47-51 | the index found is the first vault of that name, or the length when there is none |
| VaultSelector.LastNamed | pkg/vault/vaultselector.go:66-68 | the vault a name maps to is a listed vault of that name, the last one, and none exists iff no vault has the name |
| VaultSelector.Names | pkg/vault/vaultselector.go:66-70 | the names offered are the vaults' names, position by position |
| VaultSelector.SelectVault | pkg/vault/vaultselector.go:65-77 | a pick error is returned; otherwise the vault is the one the picked name maps to, or none |
| VaultSelector.SelectStep | pkg/vault/vaultselector.go:67-70 | one more vault becomes the map entry of its name, replacing an earlier one, and its name is appended to the list |
| VaultSelector.GetVault | pkg/vault/vaultselector.go:39-63 | a listing error is returned; a name selects the first vault of that name, else "vault '<name>' not found in namespace '<ns>'"; without a name no vault is "no vaults found in namespace '<ns>'", one vault is returned and several are picked from |
| VaultSelector.FirstNamedIs | pkg/vault/vaultselector.go:47-51 | the first index of a name is unique |
| VaultSelectorProperties.SingleVaultNeedsNoPick | pkg/vault/vaultselector.go:58-62 | a single vault is found by its own name both ways |
| VaultSelectorProperties.PickedNameFound | pkg/vault/vaultselector.go:66-76 | every name offered maps back to a vault of that name |
| VaultSelectorProperties.DistinctPick | pkg/vault/vaultselector.go:66-76 | with distinct names the picked name gives back exactly its vault |
| Vault.GcpServiceAccountSecretName | pkg/vault/vault.go:89-91 | the secret name is the vault name followed by "-gcp-sa" |
| Vault.AuthServiceAccountName | pkg/vault/vault.go:200-202 | the service account name is the vault name followed by "-auth-sa" |
| Vault.SecretsPrefix | pkg/vault/vault.go:98-100 | an empty secrets path prefix becomes the default one |
| Vault.CreateVault | pkg/vault/vault.go:94-188 | a policy encoding error is "encoding the polcies for secret path: <error>" and nothing is created; otherwise the outcome is that of creating the resource |
| Vault.GetVaults | pkg/vault/vault.go:205-228 | a listing error is "listing vaults in namespace '<ns>': <error>"; otherwise there is one vault per listed resource, in order |
| VaultProperties.CreatedResource | pkg/vault/vault.go:112-184 | the resource has the name and namespace, size 2, api_addr http://<name>.<ns>:8200, the bucket, the unseal and credentials settings, the auth role bound to the service account and its namespace, and the encoded rule |
| VaultProperties.EmptyPrefixDefaults | pkg/vault/vault.go:98-100 | an empty prefix creates the same resource as the default prefix |
| VaultProperties.VaultOfFields | pkg/vault/vault.go:212-225 | each vault has the listed name, the namespace, the derived auth service account and the service URL, or "" when it cannot be found |
| VaultProperties.AuthNameExample | pkg/vault/vault.go:200-202 | "myVault" gives "myVault-auth-sa" |
| VaultProperties.DerivedNamesDiffer | pkg/vault/vault.go:200-202 | the two derived names of a vault never coincide |
| Gcloud.VaultBucketName | pkg/cloud/gke/gcloud.go:33-35 | the bucket name is the vault name followed by "-bucket" |
| Gcloud.VaultServiceAccountName | pkg/cloud/gke/gcloud.go:37-39 | the service account name is the vault name followed by "-sa" |
| Gcloud.GetRegionFromZone | pkg/cloud/gke/gcloud.go:138-140 | the region is the zone without its last two characters |
| Gcloud.WithProject | pkg/cloud/gke/gcloud.go:45-48 | the project option is appended only for a non-empty project id |
| Gcloud.BucketExists | pkg/cloud/gke/gcloud.go:41-60 | one gsutil ls is issued; its error is returned, else whether the output contains gs://<bucket> |
| Gcloud.CreateBucket | pkg/cloud/gke/gcloud.go:62-83 | one gsutil mb is issued and the outcome is its success |
| Gcloud.DeleteInBucket | pkg/cloud/gke/gcloud.go:100-136 | a bucket that is not found issues nothing more and passes; otherwise the removal is issued on gs://<bucket> and the outcome is its success |
| Gcloud.FindServiceAccount | pkg/cloud/gke/gcloud.go:142-164 | the account is found iff the listing succeeds with an output other than "Listed 0 items." |
| Gcloud.CheckPermission | pkg/cloud/gke/gcloud.go:443-464 | without a project id nothing is issued and the error is "cannot check permission without a projectId"; otherwise the listing's error, else whether its output contains the permission |
| Gcloud.Bindings | pkg/cloud/gke/gcloud.go:204-224 | one policy binding command is issued per role, in order, up to the first failure, and all of them when none fails |
| Gcloud.RunBindings | pkg/cloud/gke/gcloud.go:204-224 | the role loop issues exactly the binding commands of the specification |
| Gcloud.GetOrCreateServiceAccount | pkg/cloud/gke/gcloud.go:166-258 | without a project id the error is "cannot get/create a service account without a projectId" and nothing runs; otherwise after the lookup a missing account is created as AccountCreation says, and its error is returned with the commands issued so far; an existing account issues nothing more; then the key is downloaded exactly when its file is missing, a failing download returns its error, and the result is otherwise <dir>/<account>.key.json |
| Gcloud.CreateServiceAccount | pkg/cloud/gke/gcloud.go:172-225 | the commands issued and the result are exactly AccountCreation's |
| GcloudProperties.AccountCreationCases | pkg/cloud/gke/gcloud.go:172-225 | a permission-check error or a missing setIamPolicy permission is returned after the check alone; with the permission the account is created, a failing create returns its error before any binding, and otherwise the result is the role bindings', with every role bound when it is nil; no key is downloaded |
| Gcloud.DeleteServiceAccount | pkg/cloud/gke/gcloud.go:260-303 | an account that is not found passes after the lookup; otherwise every role binding is removed, stopping at a failure, then the account is deleted |
| Gcloud.GetEnabledApis | pkg/cloud/gke/gcloud.go:305-335 | one services list command is issued; its error is returned, else the API names of the output lines |
| Gcloud.ApiNamesStaysFailed | pkg/cloud/gke/gcloud.go:326-332 | once a blank line ends the scan, later lines change nothing |
| Gcloud.CollectToEnable | pkg/cloud/gke/gcloud.go:343-350 | the loop keeps exactly the specification's APIs to enable |
| Gcloud.EnableApis | pkg/cloud/gke/gcloud.go:337-375 | a listing error is returned; nothing to enable issues nothing more; otherwise one services enable command with the missing APIs is issued and the outcome is its success |
| Gcloud.Login | pkg/cloud/gke/gcloud.go:377-421 | a key file that does not exist fails with "Unable to locate service account <path>" before any command; an existing key file issues exactly gcloud auth activate-service-account --key-file <path>, and no key without --skip-login issues exactly gcloud auth login --brief, each failing iff that command fails; no key with --skip-login issues nothing; so at most one login command is issued |
| Gcloud.Retry | pkg/cloud/gke/gcloud.go:423-437 | fn is called until it succeeds, stops or the attempts run out, with sleeps doubling from the first; a stop returns its error, running out the last error |
| Gcloud.CreateKmsKeyring | pkg/cloud/gke/gcloud.go:467-495 | an empty name fails with "provided keyring name is empty" before any command; an existing keyring passes; otherwise it is created and a creation error is wrapped |
| Gcloud.CreateKmsKey | pkg/cloud/gke/gcloud.go:521-547 | an existing key passes after the describe; otherwise it is created and a creation error is wrapped with the key and keyring names |
| Gcloud.ApiNames | pkg/cloud/gke/gcloud.go:325-334 | the parse fails (index out of range) exactly when some non-header line has no fields; otherwise at most one name per line |
| Gcloud.ToEnable | pkg/cloud/gke/gcloud.go:343-350 | every API to enable was requested and its googleapis.com name is not among the enabled ones |
| Gcloud.SleepsDouble | pkg/cloud/gke/gcloud.go:430-433 | the i-th sleep between retries is the first sleep times 2 to the i |
| GcloudProperties.RegionExample | pkg/cloud/gke/gcloud.go:138-140 | us-central1-a is in region us-central1 |
| GcloudProperties.ProjectOption | pkg/cloud/gke/gcloud.go:45-48 | the project option adds two arguments, the id last, and keeps the others as they were |
| GcloudProperties.CreateBucketArgs | pkg/cloud/gke/gcloud.go:64-71 | the bucket command starts with mb -l <location> and ends with gs://<bucket> |
| GcloudProperties.EmptyProjectRunsNothing | pkg/cloud/gke/gcloud.go:444-446 | without a project id no permission check is issued and it fails |
| GcloudProperties.RetryStopsEarly | pkg/cloud/gke/gcloud.go:424-428 | a first call that succeeds or stops is the only call |
| GcloudProperties.RetryExhausts | pkg/cloud/gke/gcloud.go:430-434 | a function that always fails is called the maximum number of times, with doubling sleeps, and its last error is returned |
| GcloudProperties.ApiNamesHeaderOnly | pkg/cloud/gke/gcloud.go:327-329 | header lines give no API names |
| GcloudProperties.ApiNamesAppend | pkg/cloud/gke/gcloud.go:330-331 | another line adds its first field |
| GcloudProperties.ApiNamesBlankLine | pkg/cloud/gke/gcloud.go:330-331 | a blank line indexes an empty field list and panics |
| GcloudProperties.ToEnableMembers | pkg/cloud/gke/gcloud.go:345-350 | an API is enabled iff it is requested and its googleapis.com name is not enabled yet |
| GcloudProperties.AllEnabledNothingToDo | pkg/cloud/gke/gcloud.go:352-355 | when every requested API is enabled there is nothing to enable |
| GcloudProperties.EmptyKeyringRunsNothing | pkg/cloud/gke/gcloud.go:468-470 | an empty keyring name issues no command |
| StepChangelog.FullCommitMessageText | pkg/jx/cmd/step_changelog.go:684-700 | the text is the message followed by each non-empty parent message, separated by a newline unless the text so far ends in one |
| StepChangelog.ToV1Labels | pkg/jx/cmd/step_changelog.go:670-680 | the loop, starting from an empty slice, yields exactly the conversion Labels: one issue label per git label, in order, with its URL, name and colour |
| StepChangelog.Labels | pkg/jx/cmd/step_changelog.go:670-680 | the conversion keeps the labels' number and order and their URL, name and colour |
| StepChangelog.RegexFor | pkg/jx/cmd/step_changelog.go:569-577 | the JIRA pattern is used iff the tracker is a JIRA tracker, else the GitHub one |
| StepChangelog.TrimAll | pkg/jx/cmd/step_changelog.go:591 | each candidate loses one leading "#" |
| StepChangelog.Summarize | pkg/jx/cmd/step_changelog.go:604-657 | as written, the summary fails exactly when resolving the author or the assignees fails; otherwise it carries the candidate as ID, the issue's URL, title, body, creation time, labels and state ("" when unset), the resolved author, the resolved assignees, and as closer the resolved author whenever the issue has a ClosedBy user (line 621), else the empty user |
| StepChangelog.SummarizeIntended | pkg/jx/cmd/step_changelog.go:617-628 | the corrected summary fails exactly when resolving the author, the ClosedBy user or the assignees fails, and its closer is the resolved ClosedBy user |
| StepChangelog.LookupStep | pkg/jx/cmd/step_changelog.go:591-663 | a name already found changes nothing; a new name is added to the found names and sent to the tracker once; its ID is recorded exactly when the tracker returns an issue and the summary succeeds, the summary then going to the pull requests or the issues by IsPullRequest; a failing summary ends the lookup with its error |
| StepChangelog.ChangelogState.LookupOne | pkg/jx/cmd/step_changelog.go:591-663 | one candidate updates the found names, the names sent to the tracker, the issue IDs and the issue or pull request lists exactly as LookupStep, and changes no commit |
| StepChangelog.ChangelogState.AddIssuesAndPullRequests | pkg/jx/cmd/step_changelog.go:562-667 | the new state is CommitLookup of the old: without an issue-capable provider nothing changes; otherwise every candidate of every match of the chosen pattern in the full commit text goes through LookupStep in order, stopping at the first user resolution error |
| StepChangelog.ChangelogState.AddCommit | pkg/jx/cmd/step_changelog.go:525-560 | the new state is WithCommit of the old one |
| StepChangelog.ChangelogState.AddCommits | pkg/jx/cmd/step_changelog.go:363-370 | the new state is AddedCommits of the old one over the kept commits: the whole state, not only the commit list, is that of addCommit applied to each kept commit in order |
| StepChangelog.WithCommit | pkg/jx/cmd/step_changelog.go:525-560 | one commit summary is appended after the earlier ones, with the commit's message and SHA, an empty URL, branch master and the resolved author and committer (the empty user when resolution fails); without an issue-capable provider nothing else changes and the summary has no issue IDs |
| StepChangelog.AddedCommits | pkg/jx/cmd/step_changelog.go:363-370 | one summary per kept commit is appended, in order, with its SHA and message, and the earlier summaries are kept |
| StepChangelog.Included | pkg/jx/cmd/step_changelog.go:366 | the commits kept are a subsequence of all commits |
| StepChangelog.LookupAllStaysFailed | pkg/jx/cmd/step_changelog.go:608-611 | after a resolution error the remaining candidates are not visited |
| StepChangelog.ReleaseVersion | pkg/jx/cmd/step_changelog.go:327-330 | an empty --version falls back to the chart version template, so the version is never empty |
| StepChangelog.CleanVersion | pkg/jx/cmd/step_changelog.go:435 | a leading "v" is dropped, any other version is kept |
| StepChangelog.ReleaseNotesURL | pkg/jx/cmd/step_changelog.go:393-400 | the release notes URL is the release's HTML URL, else its URL, else <https URL>/releases/tag/<version> |
| StepChangelog.AppName | pkg/jx/cmd/step_changelog.go:450-459 | the app name is the git repository's name, else the spec name, else the release's Spec.GitRepository, which holds that same repository name (line 349) |
| StepChangelog.ClosedByAsWritten | pkg/jx/cmd/step_changelog.go:617-628 | as written: no ClosedBy user gives the empty user; otherwise the closer is whatever resolving the issue's author gives |
| StepChangelog.ClosedBy | pkg/jx/cmd/step_changelog.go:617-628 | corrected: the closer is what resolving the ClosedBy user gives, the empty user when there is none |
| StepChangelog.LookupAll | pkg/jx/cmd/step_changelog.go:589-663 | once a lookup has failed the remaining candidates change nothing; what the loop records is stated by LookedUpOnce, AllCandidatesFound and IdsAreFoundIssues |
| StepChangelogProperties.FullTextStartsWithMessage | pkg/jx/cmd/step_changelog.go:685 | the full text starts with the commit's own message |
| StepChangelogProperties.FullTextEmptyParents | pkg/jx/cmd/step_changelog.go:688 | empty parent messages add nothing |
| StepChangelogProperties.FullTextSeparator | pkg/jx/cmd/step_changelog.go:688-694 | a newline is inserted before a parent message unless the text already ends in one |
| StepChangelogProperties.IncludedCommits | pkg/jx/cmd/step_changelog.go:366 | without --include-merge-commits only commits with at most one parent are kept, all of them are, and with it every commit is |
| StepChangelogProperties.LookedUpOnce | pkg/jx/cmd/step_changelog.go:592-593 | each issue name is looked up at most once, and only names not found before |
| StepChangelogProperties.AllCandidatesFound | pkg/jx/cmd/step_changelog.go:592-593 | without an error every candidate is recorded as found |
| StepChangelogProperties.IdsAreFoundIssues | pkg/jx/cmd/step_changelog.go:594-662 | an ID is added only for a candidate the tracker finds, with exactly one issue or pull request per ID, earlier entries kept |
| StepChangelogProperties.RunLooksUpOnce | pkg/jx/cmd/step_changelog.go:592-593 | across the whole commit loop of a run every name sent to the tracker is recorded as found, is sent at most once, and was not in FoundIssueNames when the loop started |
| StepChangelogProperties.FreshRunLooksUpOnce | pkg/jx/cmd/step_changelog.go:592-593 | starting from the empty run state, no name is sent to the tracker twice |
| StepChangelogProperties.GitHubRepeatLookedUpOnce | pkg/jx/cmd/step_changelog.go:589-593 | the four candidates "12" that a repeated "#12" gives are sent to the tracker once |
| StepChangelogProperties.GitHubRepeatCandidates | pkg/jx/cmd/step_changelog.go:589-591 | "#12" mentioned twice gives two [whole match, group] pairs, hence four candidates "12" |
| StepChangelogProperties.JiraBothLookedUp | pkg/jx/cmd/step_changelog.go:589-591 | every group of a JIRA match, the whole key and the number, is a candidate |
| StepChangelogProperties.ReleaseNotesURLNonEmpty | pkg/jx/cmd/step_changelog.go:397-399 | with a repository URL the release notes URL is never empty |
| StepChangelogProperties.AppNameNeverRepository | pkg/jx/cmd/step_changelog.go:454-459 | the spec name is a non-empty template, so the git repository fallback is never reached |
| StepChangelogProperties.CleanVersionOnce | pkg/jx/cmd/step_changelog.go:435 | v1.2.3 and 1.2.3 both give 1.2.3 |
| StepChangelogProperties.ClosedByRecordsAuthor | pkg/jx/cmd/step_changelog.go:617-628 | for an issue opened by alice and closed by bob the code records alice as the closer, the corrected lookup bob |
| StepChangelogProperties.SummariesDifferOnlyInCloser | pkg/jx/cmd/step_changelog.go:617-628 | the as-written and corrected summaries are equal when the issue has no ClosedBy user or was closed by its author; when both succeed they agree in every field but the closer; the as-written one succeeds whenever the corrected one does |
| AddApp.GitOpsViolation | pkg/jx/cmd/add_app.go:130-147 | under GitOps the first offending option is reported in the order release, helm-update, namespace, values, set, and none is reported iff no release, helm update on, no namespace, no values and no set values; --alias is never one |
| AddApp.WithApp | pkg/jx/cmd/add_app.go:313-339 | afterwards the app with that alias is a dependency; the requirements are unchanged iff it already was, else it is appended with the alias, repository and version |
| AddApp.Requirements.AddApp | pkg/jx/cmd/add_app.go:315-337 | the found-flag loop leaves the dependencies as the specification says |
| AddApp.BranchName | pkg/jx/cmd/add_app.go:340 | the branch is exactly add-app-, the app name, a dash and the version, position by position |
| AddApp.PRTitle | pkg/jx/cmd/add_app.go:341 | the title is exactly "Add ", the app name, a space and the version, position by position |
| AddApp.Message | pkg/jx/cmd/add_app.go:342 | the commit message is the pull request title with "app " inserted after "Add " |
| AddApp.FlattenSetValues | pkg/jx/cmd/add_app.go:369-372 | every --set argument is split at commas, in order |
| AddApp.AddAppOptions.Validate | pkg/jx/cmd/add_app.go:124-170 | the repository defaults to the team's apps repository; GitOps option conflicts and --alias without GitOps are the first errors; then anything but exactly one argument shows help and a missing repository is "must specify a repository"; there is no error iff none of these holds |
| AddApp.AddAppOptions.InstallApp | pkg/jx/cmd/add_app.go:172-303 | a chart version error is returned; the version defaults to the chart's; under GitOps a pull request adds the dependency; otherwise a schema without --values supplies the generated values file and the chart is installed with the split set values |
| AddApp.SplitSetValues | pkg/jx/cmd/add_app.go:369-372 | splitting on commas yields at least one value per flag and no value holds a comma |
| AddAppProperties.WithAppIdempotent | pkg/jx/cmd/add_app.go:315-330 | adding an app already present changes nothing, whatever the version |
| AddAppProperties.OtherAliasAdded | pkg/jx/cmd/add_app.go:317 | the same app under another alias is added again |
| AddAppProperties.WithAppKeepsOrder | pkg/jx/cmd/add_app.go:331-336 | existing dependencies keep their positions |
| AddAppProperties.SetValuesHaveNoCommas | pkg/jx/cmd/add_app.go:370-372 | no set value passed on contains a comma |
| Strings.SplitWithoutSeparator | pkg/jx/cmd/add_app.go:371 | a value without a comma is not split |
| AddAppProperties.SetValuesWithoutCommas | pkg/jx/cmd/add_app.go:370-372 | set values without commas are passed as given |
| AddAppProperties.SetValueRoundTrip | pkg/jx/cmd/add_app.go:371 | joining the parts of a split value with commas gives the value back |
| AddAppProperties.SetValuesExample | pkg/jx/cmd/add_app.go:370-372 | "a,b" and "c" give a, b and c |
| AddAppProperties.SplitAt | pkg/jx/cmd/add_app.go:371 | a value with one comma splits into the two sides |
| AddAppProperties.PullRequestNames | pkg/jx/cmd/add_app.go:340-341 | jx-app-jacoco 0.0.1 gives branch add-app-jx-app-jacoco-0.0.1 and title "Add jx-app-jacoco 0.0.1" |
| AddAppProperties.GitOpsAllowsAlias | pkg/jx/cmd/add_app.go:130-146 | --alias is allowed under GitOps, the all-empty options pass, and helm update off is the first conflict after the release |
| AddAppProperties.GitOpsRefusesDefaultNamespace | pkg/jx/cmd/add_app.go:91-138 | with every flag at the default addFlags gives it (--namespace is kube.DefaultNamespace, "jx"), a GitOps environment reports --namespace as the conflict |
| CreateQuickstart.AddOrganisations | pkg/cmd/create/create_quickstart.go:126-144 | the loop over --organisations appends exactly the GitHub locations of the specification |
| CreateQuickstart.Find | pkg/cmd/create/create_quickstart.go:128-134 | the inner search is true iff some location is on github.com with that owner |
| CreateQuickstart.GroupLocations | pkg/cmd/create/create_quickstart.go:146-154 | the map built is the specification's grouping of the locations by git URL and owner |
| CreateQuickstart.LocationKind | pkg/cmd/create/create_quickstart.go:334-337 | a location's kind is its git kind, or GitHub when that is empty |
| CreateQuickstart.CreateQuickstartOptions.NameProject | pkg/cmd/create/create_quickstart.go:168-193 | owner and repository come from the import options; interactively the entered name, else the repository, names the project, an empty one being "No project name"; in batch mode --project-name, else the repository, and neither is the missing project-name option |
| CreateQuickstart.IsMLProjectSet | pkg/cmd/create/create_quickstart.go:352-387 | a quickstart is an ML project set iff its name starts with ML- and its projectset file is fetched and contains "Tail" |
| CreateQuickstart.DownloadTarget | pkg/cmd/create/create_quickstart.go:257-263 | the target directory is <dir>/<name>, and the download fails iff the quickstart has no zip URL, with "quickstart <id> does not have a download zip URL" |
| CreateQuickstart.ChartsFolder | pkg/cmd/create/create_quickstart.go:212-219 | "" without a quickstart; when the last slash of the name is past index 0, exactly the part after it (and it holds no slash); otherwise the whole name |
| CreateQuickstart.WithOrganisations | pkg/cmd/create/create_quickstart.go:126-144 | the configured locations are kept as a prefix, at most one is added per organisation, and every organisation has a GitHub location afterwards |
| CreateQuickstartProperties.OrganisationsKeepLocations | pkg/cmd/create/create_quickstart.go:135-143 | the team's locations are kept, in order |
| CreateQuickstartProperties.OrganisationsCovered | pkg/cmd/create/create_quickstart.go:127-144 | afterwards every --organisation has a GitHub location |
| CreateQuickstartProperties.ConfiguredOrganisationNotAdded | pkg/cmd/create/create_quickstart.go:129-134 | an organisation already configured is not added |
| CreateQuickstartProperties.RepeatedOrganisationAddedOnce | pkg/cmd/create/create_quickstart.go:127-144 | an organisation given twice is added once |
| CreateQuickstartProperties.GroupedCovers | pkg/cmd/create/create_quickstart.go:147-154 | every location is in the map under its git URL and owner |
| CreateQuickstartProperties.GroupedFromLocations | pkg/cmd/create/create_quickstart.go:147-154 | every entry of the map is a location with that git URL and owner |
| CreateQuickstartProperties.LaterLocationWins | pkg/cmd/create/create_quickstart.go:153 | a later location of the same git URL and owner replaces the earlier one, and the others stay |
| CreateQuickstartProperties.ChartsFolderExamples | pkg/cmd/create/create_quickstart.go:216-219 | owner/app gives app, and /app stays /app because its slash is at index 0 |
| CreateQuickstartProperties.ChartsFolderHasNoSlash | pkg/cmd/create/create_quickstart.go:216-219 | when the last slash is past the start, the folder has no slash |
| CreateQuickstartProperties.OrdinaryWithoutPrefix | pkg/cmd/create/create_quickstart.go:353-355 | a name without the ML- prefix is never an ML project set, whatever the fetch would give |
| CommonTeamSettings.WithDefaults | pkg/jx/cmd/common_team_settings.go:40-46 | an empty build pack URL becomes JenkinsBuildPackURL and an empty ref "2.1"; every other setting is kept |
| CommonTeamSettings.TeamSettings.ApplyDefaults | pkg/jx/cmd/common_team_settings.go:41-46 | the two assignments change the team settings in place to their defaulted value |
| CommonTeamSettings.LoadTeamSettings | pkg/jx/cmd/common_team_settings.go:22-48 | client, CRD registration and environment lookup errors are returned with their messages, a missing environment is "No Development environment found for namespace <ns>", and otherwise the environment's own settings object is defaulted in place and returned |
| CommonTeamSettings.TeamBranchPatterns | pkg/jx/cmd/common_team_settings.go:51-71 | a settings error is returned; each pattern is the team's, or its default when empty |
| CommonTeamSettings.TeamHelmBin | pkg/jx/cmd/common_team_settings.go:74-86 | a settings error is returned together with "helm"; otherwise the team's helm binary, or "helm" when it is empty |
| CommonTeamSettingsProperties.DefaultsIdempotent | pkg/jx/cmd/common_team_settings.go:41-46 | defaulting twice is defaulting once |
| CommonTeamSettingsProperties.DefaultsFillBuildPack | pkg/jx/cmd/common_team_settings.go:41-46 | with a non-empty JenkinsBuildPackURL the settings always name a build pack and a ref |
| CommonTeamSettingsProperties.DefaultsKeepConfigured | pkg/jx/cmd/common_team_settings.go:41-46 | settings that name a build pack and a ref are left alone |
| GetBuildLogs.LastJenkinsBuild | pkg/jx/cmd/get_build_logs.go:160-205 | a client error is returned; a job that is missing or has no URL is "No Job exists yet called <name>"; a positive build number fetches that build, otherwise the last build; a fetch error is returned and a build without URL is "No build found for name <name>" with " number <n>" for a given number; success is a build with a URL from the right call |
| GetBuildLogs.RunJenkins | pkg/jx/cmd/get_build_logs.go:116-157 | outside batch mode without arguments a job map error is returned, no jobs is "No pipelines have been built!", and otherwise the user is offered the sorted distinct job names with the first master job as default: a pick error is returned, and a picked name's last build is the result or its error; with an argument (or in batch mode without one, "No pipeline chosen") the first argument's build is fetched the same way; a result always names a job of the map and a build with a URL |
| GetBuildLogs.BuildInfos | pkg/jx/cmd/get_build_logs.go:214-223 | the loop keeps exactly the specification's build infos |
| GetBuildLogs.Kept | pkg/jx/cmd/get_build_logs.go:214-223 | at most one build info per pod |
| GetBuildLogs.LabelBuilds | pkg/jx/cmd/get_build_logs.go:229-242 | one "<pipeline> #<build>" name per build in order, the map from names to builds, and the last master build as the default |
| GetBuildLogs.LabelSnoc | pkg/jx/cmd/get_build_logs.go:233-242 | one more build maps its label to itself, and becomes the default exactly when it is on master |
| GetBuildLogs.ProwBuildLog | pkg/jx/cmd/get_build_logs.go:207-271 | a pod listing error is returned; no matching build is "No knative builds have been triggered which match the current filter!"; the chosen name (the argument, or the user's pick among the build labels with the last master build offered) must exist, have a pod and have init containers, each failure with its own message, and the log is that of the pod's last init container; a pick error is returned |
| GetBuildLogsProperties.KeptMatch | pkg/jx/cmd/get_build_logs.go:215-222 | every kept build info comes from a pod with init containers and matches the filter |
| GetBuildLogsProperties.BuildMapLabels | pkg/jx/cmd/get_build_logs.go:234-238 | every build's name is in the map, and every entry is a listed build under its own name |
| GetBuildLogsProperties.LaterBuildWins | pkg/jx/cmd/get_build_logs.go:237 | a later build with the same name replaces the earlier one |
| GetBuildLogsProperties.LastMasterIsLast | pkg/jx/cmd/get_build_logs.go:239-241 | the default is "" iff no build is on master, and otherwise the name of the last master build |
| GetBuildLogsProperties.MissingJob | pkg/jx/cmd/get_build_logs.go:175-177 | a name missing from the job map behaves like a job without URL |
| GetBuildLogsProperties.BuildNumberChoosesCall | pkg/jx/cmd/get_build_logs.go:180-184 | a positive build number never asks for the last build, and otherwise the numbered build is never fetched |
| PipelineNames.Insert | pkg/jx/cmd/stop_pipeline.go:78 | insertion adds exactly the new name |
| PipelineNames.InsertSorted | pkg/jx/cmd/stop_pipeline.go:78 | inserting into a sorted list keeps it sorted |
| PipelineNames.Sort | pkg/jx/cmd/stop_pipeline.go:78 | sorting is a permutation of the names |
| PipelineNames.SortSorted | pkg/jx/cmd/stop_pipeline.go:78 | the sorted names are in ascending byte order |
| PipelineNames.FirstMaster | pkg/jx/cmd/stop_pipeline.go:81-87 | the default is "" iff no name ends in /master, and otherwise the first name in order that does |
| PipelineNames.DefaultName | pkg/jx/cmd/get_build_logs.go:132-138 | the loop with its break finds the specification's default name |
| PipelineNames.SortedKeys | pkg/jx/cmd/get_build_logs.go:123-127 | the names collected from the job map and sorted are ascending, distinct and exactly the map's keys |
| PipelineNames.SortedNamesUnique | pkg/jx/cmd/stop_pipeline.go:74-78 | two sorted lists without duplicates that hold the same names are equal, so the names offered do not depend on map order |
| StopPipeline.StopJob | pkg/jx/cmd/stop_pipeline.go:103-121 | a client error is returned; a positive --build is stopped as given; otherwise the last build is fetched, its error returned and a number of zero or less is "No build available for <name>"; a missing job is the zero job; any build stopped is positive |
| StopPipeline.StopAll | pkg/jx/cmd/stop_pipeline.go:94-99 | at most one stop per argument |
| StopPipeline.StopPipelineOptions.StopJobs | pkg/jx/cmd/stop_pipeline.go:94-99 | the loop over the arguments makes the specification's stops, ending at the first error |
| StopPipeline.StopPipelineOptions.Run | pkg/jx/cmd/stop_pipeline.go:67-101 | a job map error is returned; the jobs are stored; arguments are stopped in order; without arguments the user picks among the sorted, distinct job names with the first on master as default, and a pick error is returned |
| StopPipeline.StopAllStaysFailed | pkg/jx/cmd/stop_pipeline.go:95-97 | after a failure the later arguments are not visited |
| StopPipelineProperties.PositiveBuildAsGiven | pkg/jx/cmd/stop_pipeline.go:109-110 | a positive --build is stopped without asking for the last build |
| StopPipelineProperties.AllStoppedInOrder | pkg/jx/cmd/stop_pipeline.go:94-99 | when every stop succeeds each argument's job is stopped, in argument order |
| StopPipelineProperties.NoBuildStops | pkg/jx/cmd/stop_pipeline.go:115-118 | a job whose last build number is not positive fails and stops nothing, and later arguments are not visited |
| CreateClusterGKETerraform.ProjectIds | pkg/jx/cmd/create_cluster_gke_terraform.go:470-478 | at most one project id per line, each non-empty and without blanks |
| CreateClusterGKETerraform.ParseProjects | pkg/jx/cmd/create_cluster_gke_terraform.go:470-478 | the loop over the listing gives the specification's project ids or its panic |
| CreateClusterGKETerraform.ProjectIdsStaysFailed | pkg/jx/cmd/create_cluster_gke_terraform.go:476-477 | once a blank line panics, later lines change nothing |
| CreateClusterGKETerraform.GetGoogleProjectId | pkg/jx/cmd/create_cluster_gke_terraform.go:464-519 | one projects list command is issued and its error returned; no project fails with the prompt's error, the not-implemented message or the declined message; one project is used; several are chosen from, an empty choice failing; a returned id is never empty |
| CreateClusterGKETerraform.ResolveProjectId | pkg/jx/cmd/create_cluster_gke_terraform.go:153-164 | --project-id is used as given, else the project is looked up; then config set project is issued for the project and its error returned |
| CreateClusterGKETerraform.ServiceAccountName | pkg/jx/cmd/create_cluster_gke_terraform.go:229 | the service account name is "jx-" followed by the cluster name |
| CreateClusterGKETerraform.BindRoles | pkg/jx/cmd/create_cluster_gke_terraform.go:272-286 | one binding command per role, in order, up to the first failure, and all of them when none fails |
| CreateClusterGKETerraform.AssignRoles | pkg/jx/cmd/create_cluster_gke_terraform.go:272-286 | the role loop issues the specification's commands and returns its error |
| CreateClusterGKETerraform.EnsureServiceAccount | pkg/jx/cmd/create_cluster_gke_terraform.go:228-292 | a listing error is returned; an existing account needs nothing; a missing one needs setIamPolicy in the testable permissions, else the missing-role error, and is then created and bound to the five required roles; the create command is issued iff the listing is "Listed 0 items." and the permission is there |
| CreateClusterGKETerraform.LabelParts | pkg/jx/cmd/create_cluster_gke_terraform.go:405-409 | the last label part is created-with=terraform,created-on=<timestamp> |
| CreateClusterGKETerraform.ClusterLabels | pkg/jx/cmd/create_cluster_gke_terraform.go:386-410 | the labels passed to update-labels are the lower-cased join of the parts, and the command is gcloud container clusters update <cluster> --update-labels=<labels> |
| CreateClusterGKETerraform.LabelJoin | pkg/jx/cmd/create_cluster_gke_terraform.go:393-409 | the labels are --labels, then created-by=<user> when there is a user, then the creation labels, each joined by a comma only when something precedes it |
| CreateClusterGKETerraformProperties.ProjectIdsOk | pkg/jx/cmd/create_cluster_gke_terraform.go:472-478 | the listing parses iff every line other than a header line has a field |
| CreateClusterGKETerraformProperties.ProjectIdsAppend | pkg/jx/cmd/create_cluster_gke_terraform.go:476-477 | another line adds its first field |
| CreateClusterGKETerraformProperties.ProjectIdsHeaderOnly | pkg/jx/cmd/create_cluster_gke_terraform.go:473-475 | header lines give no project |
| CreateClusterGKETerraformProperties.EmptyListingPanics | pkg/jx/cmd/create_cluster_gke_terraform.go:470-477 | an empty listing splits into one blank line, which panics before the no-project prompt |
| CreateClusterGKETerraformProperties.AllRolesBound | pkg/jx/cmd/create_cluster_gke_terraform.go:272-286 | when every binding succeeds the roles are all bound |
| CreateClusterGKETerraformProperties.FirstBindingFailure | pkg/jx/cmd/create_cluster_gke_terraform.go:282-285 | a failing first binding is the only one issued and its error is returned |
| CreateClusterGKETerraformProperties.LabelsWithoutUser | pkg/jx/cmd/create_cluster_gke_terraform.go:405-409 | without --labels and a user only the creation labels remain |
| CreateClusterGKETerraformProperties.LabelsOrder | pkg/jx/cmd/create_cluster_gke_terraform.go:393-409 | with both, the labels are --labels, created-by and the creation labels, in that order |
| CreateClusterGKETerraformProperties.LabelsLowerCase | pkg/jx/cmd/create_cluster_gke_terraform.go:410 | the labels passed on have no upper-case letter |
| CreateClusterGKETerraform.BindRolesStaysFailed | pkg/jx/cmd/create_cluster_gke_terraform.go:282-285 | once a binding fails, later roles are not bound |

## Left out

- Go panics (a nil map assignment or nil dereference in the prow configuration, `fields[0]` on a blank line, an index out of range) are modelled as error outcomes carrying the runtime's message, not as aborts of the process.
- Concurrency is not modelled, because its point is timing. This covers the informer, the list-watch and the controller goroutine of `jx controller build`, and the certificate-watching goroutine and channels of `jx upgrade ingress` (pkg/jx/cmd/upgrade_ingress.go:173-211, 243-274).
- Wall-clock retries and `time.Sleep` are not modelled: only attempt counts are, and the gcloud sleep durations appear as plain numbers. This includes the 20 second `util.Retry` of the controller and `RetryUntilTrueOrTimeout` with its relatives in common.go.
- The clone, commit, push, file writes and pod-log fetch behind `generateBuildLogURL` are outside the model; the log publisher is an oracle that yields the stored URL or "". The clone error check there compares `err != err` and so never fires.
- External clients: Kubernetes, Jenkins, Vault and its operator, gcloud, gsutil, terraform, kubectl, helm, HTTP and the git providers. Each is an input: a result value, a function from a command line to its output, or a listing such as the `helm list` text.
- Interactive prompts (survey, `util.Pick*`, `util.Confirm`) are oracle functions or results.
- Foreign libraries are uninterpreted: YAML (un)marshalling, Go templates, the regular-expression engines (match lists are inputs), `util.SetMapValueViaPath`, `util.CombineMapTrees`, `util.GetRemoteAndRepo`, `sanitizeLabel` and `util.ColorInfo`.
- `util.CombineErrors` formatting and Go's `%q` quoting are not modelled character for character, and the `os.Setenv` errors of `modifyPipelineGitEnvVars` are not modelled.
- Errors while creating the jx client and loading the requirements file are not modelled; these values are inputs.
- In `jx update webhooks`, the errors of fetching the webhook endpoint, of `isProw` and of the hmac secret are not modelled. The `UpdateWebHook` results are ignored, as the source ignores them.
- Most of `jx upgrade ingress` Run is outside the model, because it is client calls in sequence:
  - `SaveAsConfigMap` and `ensureCertmanagerSetup`;
  - `CleanServiceAnnotations` and `AnnotateExposedServicesWithCertManager`;
  - the loop that deletes the collected ingresses;
  - `createIngressRules`;
  - the `UpdateJenkinsURL` of `updateResources`.
- Gcloud.GetRegionFromZone: requires a zone of at least two characters, where the source's slice panics on shorter zones.
- The readiness retry of gcloud `Login` is not modelled.
- `UserDetails` resolution in `jx step changelog` is an oracle function. `util.UrlJoin` is modelled as a "/" join.
- In `jx get build logs`:
  - the `--wait` retry of `getLastJenkinsBuild` is not modelled;
  - the dispatch on the webhook engine and the errors of creating clients are not modelled;
  - `SortBuildPodInfos` is an oracle ordering;
  - tailing the log is output: the model returns what would be tailed.
- In `jx add app`:
  - inspecting the chart, its schema, secrets and generated values are inputs;
  - the errors of creating the pull request and of installing the chart are not modelled;
  - `ensureHelm` and `OnAppInstall` are not modelled;
  - the flag names behind `optionRelease` and `optionNamespace` are declared elsewhere in the package and are taken to be "release" and "namespace".
- `gits.GitHubURL` and `gits.KindGitHub` are declared outside the modelled files and are taken to be "https://github.com" and "github".
- In `jx create quickstart`, the download, unzip and import of the project are not modelled. Neither are the provider calls of `LoadQuickstartsFromMap` or the `PostDraftPack` callback.
- Several constants are declared outside the modelled files and are parameters:
  - `JenkinsBuildPackURL` and the default branch patterns;
  - `CLUSTER_LIST_HEADER`;
  - the build label keys;
  - `jxChartPrefix`;
  - `ExposeDefaultURLTemplate`;
  - `DefaultSecretsPathPrefix`.
- In `jx create cluster gke terraform`:
  - downloading the service-account key, `terraform init/plan/apply` and the kubectl steps are not modelled;
  - the zone, machine type and node count prompts are not modelled;
  - the `os/user` lookup and the clock are not modelled: the sanitized user name and the timestamp are parameters.
- `Common.ServerFlags.IsEmpty` is a predicate with no contract of its own; its meaning shows in the rows about `findServer`.
- pkg/jx/cmd/common.go:303 takes four results from `TeamHelmBin`, while pkg/jx/cmd/common_team_settings.go:74 returns two. Each file is modelled on its own terms, and the caller's use is not modelled.
- AddApp: the cobra flag defaults of add_app.go:91 and 99-118 are not applied; `Validate` takes the option values as given. With those defaults, --namespace is kube.DefaultNamespace ("jx"; pkg/kube is not part of this model), so a GitOps environment refuses a plain `jx add app` with the --namespace error at add_app.go:138 unless the flag is set to "". `GitOpsRefusesDefaultNamespace` states this.
- StepChangelog.ClosedByAsWritten: when an issue has a ClosedBy user but no User, step_changelog.go:621 still calls `resolver.Resolve` with the nil user; the model gives empty user details without consulting the resolver, since what Resolve does with nil is not part of this model.
- pkg/jx/cmd/add_app.go:175 calls `InspectChart` with a different arity from the one in pkg/helm/helm_helpers.go. The chart inspection is an input of `AddApp`.
- `filepath.Join` is modelled without `Clean`. `strings.Title` and `strings.ToLower` are modelled on ASCII letters only.
- The YAML edits of `ModifyDevEnvironment` and `storeRequirementsInTeamSettings` are not modelled.
- The helpers whose source is not among the modelled files are given an assumed meaning:
  - `StorageLocation.IsEmpty` is taken to mean both URLs are empty;
  - `GetOrCreateStage` is the first stage step with that name, else a fresh stage appended;
  - `GetServer` and `GetServerByName` return the first server with that URL or name.
- Deprecation: the recursive `cmd.Deprecated` assignment of pkg/cmd/deprecation/deprecated.go:109-120 changes the cobra commands in place; the model builds a new command tree with the same shape instead, so aliasing between commands is not captured.
- In `jx upgrade platform`:
  - the `UpdateRepo` and dev-namespace errors at the start of `Run` are not modelled;
  - defaulting the exposecontroller domain in the helm values configuration is not modelled, because the upgrade call does not read it;
  - the clone is one oracle answer, so a second clone gives what the first gave;
  - the log lines are not modelled.
- HelmHelpers: `Dependencies` is a list of values, so the nil entries a Go `[]*Dependency` may hold (which `SetAppVersion` and `RemoveApplication` would dereference) are not modelled.
- HelmHelpers.SortByName: the model is an insertion sort at every length, which keeps dependencies with equal names in input order (SortByNameStable). Go's `sort.Sort` runs a plain insertion sort only on short lists: up to 6 elements before Go 1.19, up to 12 since. Before Go 1.19, lists of 7 to 12 elements get a gap-6 shell pass first, and longer lists are quicksorted; either can reorder dependencies with equal names, which the model does not capture.
- In `jx create cluster gke terraform`, the random `randomdata.SillyName` cluster name used when `--cluster-name` is empty is not modelled: the cluster name is a parameter.
- ControllerBuildIdempotence.UpdateIdempotent: holds for the same answers from the environment; a log publisher that answers differently on a re-run could produce a different logs URL.

## Findings

| source | as written | input that shows it | evidently intended | confidence | as-written member | corrected member |
|---|---|---|---|---|---|---|
| pkg/jx/cmd/step_changelog.go:617-628 | when an issue has a ClosedBy user, the changelog's closedBy field is resolved from `issue.User`, the author (line 621); the lookup pipeline (Summarize, LookupStep, the ChangelogState methods) follows this | an issue opened by alice and closed by bob records alice as the closer | resolve `issue.ClosedBy` | not executed | StepChangelog.ClosedByAsWritten (counterexample StepChangelogProperties.ClosedByRecordsAuthor) | StepChangelog.SummarizeIntended (StepChangelogProperties.SummariesDifferOnlyInCloser) |
