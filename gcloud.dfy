/**
 * The gcloud / gsutil wrappers of pkg/cloud/gke/gcloud.go: the derived
 * names, the command lines they run, the guards that refuse empty
 * arguments, the parsing of `gcloud services list`, and the recursive retry.
 * The command runner (util.Command.RunWithoutRetry) is a function from a
 * command line to its output or error; each operation also returns the
 * commands it ran, in order.
 */
module Gcloud {
  import opened Wrappers
  import opened Strings

  const KmsLocation := "global"

  /** A command line: the program and its arguments. */
  datatype Command = Command(name: string, args: seq<string>)

  /** The runner: what a command prints, or its error. */
  type Runner = Command -> Result<string>

  /** A value together with the commands run to obtain it. */
  datatype Ran<T> = Ran(value: T, issued: seq<Command>)

  function Gsutil(args: seq<string>): Command { Command("gsutil", args) }
  function GcloudCmd(args: seq<string>): Command { Command("gcloud", args) }

  /** Go's message for indexing an empty slice, which is how a blank listing line ends the program. */
  const EmptyIndexPanic := "runtime error: index out of range [0] with length 0"

  // ---------------------------------------------------------------------------
  // Names
  // ---------------------------------------------------------------------------

  function VaultBucketName(vaultName: string): (r: string)
    ensures HasPrefix(r, vaultName) && HasSuffix(r, "-bucket") && |r| == |vaultName| + 7
  {
    vaultName + "-bucket"
  }

  function VaultServiceAccountName(vaultName: string): (r: string)
    ensures HasPrefix(r, vaultName) && HasSuffix(r, "-sa") && |r| == |vaultName| + 3
  {
    vaultName + "-sa"
  }

  /** GetRegionFromZone: the zone without its last two characters; shorter zones make the slice panic. */
  function GetRegionFromZone(zone: string): (r: string)
    requires |zone| >= 2
    ensures |r| == |zone| - 2 && HasPrefix(zone, r)
  {
    zone[..|zone| - 2]
  }

  function ServiceAccountEmail(serviceAccount: string, projectId: string): string
  {
    serviceAccount + "@" + projectId + ".iam.gserviceaccount.com"
  }

  function FullBucketName(bucketName: string): string
  {
    "gs://" + bucketName
  }

  // ---------------------------------------------------------------------------
  // Argument construction
  // ---------------------------------------------------------------------------

  /** The project option appended to an argument list, only for a non-empty project id. */
  function WithProject(args: seq<string>, flag: string, projectId: string): (r: seq<string>)
    ensures projectId == "" ==> r == args
    ensures projectId != "" ==> r == args + [flag, projectId]
  {
    if projectId != "" then args + [flag, projectId] else args
  }

  function BucketExistsCommand(projectId: string): Command
  {
    Gsutil(WithProject(["ls"], "-p", projectId))
  }

  function CreateBucketCommand(projectId: string, bucketName: string, location: string): Command
  {
    Gsutil(WithProject(["mb", "-l", location], "-p", projectId) + [FullBucketName(bucketName)])
  }

  function EnabledApisCommand(projectId: string): Command
  {
    GcloudCmd(WithProject(["services", "list", "--enabled"], "--project", projectId))
  }

  function EnableApisCommand(projectId: string, apis: seq<string>): Command
  {
    GcloudCmd(WithProject(["services", "enable"] + apis, "--project", projectId))
  }

  // ---------------------------------------------------------------------------
  // Buckets
  // ---------------------------------------------------------------------------

  /** BucketExists: the listing of the project's buckets mentions gs://<bucket>. */
  function BucketExists(projectId: string, bucketName: string, gcloud: Runner): (r: Ran<Result<bool>>)
    ensures r.issued == [BucketExistsCommand(projectId)]
    ensures var out := gcloud(BucketExistsCommand(projectId));
            r.value == if out.Err? then Err(out.msg) else Ok(Contains(out.value, FullBucketName(bucketName)))
  {
    var cmd := BucketExistsCommand(projectId);
    var out := gcloud(cmd);
    Ran(if out.Err? then Err(out.msg) else Ok(Contains(out.value, FullBucketName(bucketName))), [cmd])
  }

  function CreateBucket(projectId: string, bucketName: string, location: string, gcloud: Runner): (r: Ran<Outcome>)
    ensures r.issued == [CreateBucketCommand(projectId, bucketName, location)]
    ensures r.value.Pass? <==> gcloud(CreateBucketCommand(projectId, bucketName, location)).Ok?
  {
    var cmd := CreateBucketCommand(projectId, bucketName, location);
    var out := gcloud(cmd);
    Ran(if out.Err? then Fail(out.msg) else Pass, [cmd])
  }

  function FindBucketCommand(bucketName: string): Command
  {
    Gsutil(["list", "-b", FullBucketName(bucketName)])
  }

  /** FindBucket: a bucket is found when listing it succeeds. */
  function FindBucket(bucketName: string, gcloud: Runner): bool
  {
    gcloud(FindBucketCommand(bucketName)).Ok?
  }

  /**
   * DeleteAllObjectsInBucket (`remove` = ["-m", "rm", "-r"]) and DeleteBucket
   * (`remove` = ["rb"]): nothing happens for a bucket that is not found.
   */
  function DeleteInBucket(bucketName: string, remove: seq<string>, gcloud: Runner): (r: Ran<Outcome>)
    ensures !FindBucket(bucketName, gcloud) ==> r == Ran(Pass, [FindBucketCommand(bucketName)])
    ensures FindBucket(bucketName, gcloud) ==>
              var cmd := Gsutil(remove + [FullBucketName(bucketName)]);
              r.issued == [FindBucketCommand(bucketName), cmd] && (r.value.Pass? <==> gcloud(cmd).Ok?)
  {
    if !FindBucket(bucketName, gcloud) then Ran(Pass, [FindBucketCommand(bucketName)])
    else
      var cmd := Gsutil(remove + [FullBucketName(bucketName)]);
      var out := gcloud(cmd);
      Ran(if out.Err? then Fail(out.msg) else Pass, [FindBucketCommand(bucketName), cmd])
  }

  // ---------------------------------------------------------------------------
  // Service accounts and permissions
  // ---------------------------------------------------------------------------

  function FindServiceAccountCommand(serviceAccount: string, projectId: string): Command
  {
    GcloudCmd(["iam", "service-accounts", "list", "--filter", serviceAccount, "--project", projectId])
  }

  /** FindServiceAccount: the listing succeeds and does not print "Listed 0 items.". */
  function FindServiceAccount(serviceAccount: string, projectId: string, gcloud: Runner): (r: bool)
    ensures var out := gcloud(FindServiceAccountCommand(serviceAccount, projectId));
            r <==> out.Ok? && out.value != "Listed 0 items."
  {
    var out := gcloud(FindServiceAccountCommand(serviceAccount, projectId));
    out.Ok? && out.value != "Listed 0 items."
  }

  function CheckPermissionCommand(perm: string, projectId: string): Command
  {
    GcloudCmd(["iam", "list-testable-permissions", "//cloudresourcemanager.googleapis.com/projects/" + projectId, "--filter", perm])
  }

  /** CheckPermission: refuses an empty project id before running anything; otherwise the output mentions `perm`. */
  function CheckPermission(perm: string, projectId: string, gcloud: Runner): (r: Ran<Result<bool>>)
    ensures projectId == "" ==> r == Ran(Err("cannot check permission without a projectId"), [])
    ensures projectId != "" ==>
              var out := gcloud(CheckPermissionCommand(perm, projectId));
              r.issued == [CheckPermissionCommand(perm, projectId)] &&
              r.value == if out.Err? then Err(out.msg) else Ok(Contains(out.value, perm))
  {
    if projectId == "" then Ran(Err("cannot check permission without a projectId"), [])
    else
      var cmd := CheckPermissionCommand(perm, projectId);
      var out := gcloud(cmd);
      Ran(if out.Err? then Err(out.msg) else Ok(Contains(out.value, perm)), [cmd])
  }

  const SetIamPolicy := "resourcemanager.projects.setIamPolicy"
  const NoPermission := "User does not have the required role 'resourcemanager.projects.setIamPolicy' to configure a service account"

  function BindingCommand(verb: string, serviceAccount: string, projectId: string, role: string): Command
  {
    GcloudCmd(["projects", verb, projectId, "--member", "serviceAccount:" + ServiceAccountEmail(serviceAccount, projectId),
               "--role", role, "--project", projectId])
  }

  const NoProjectId := "cannot get/create a service account without a projectId"
  const AddBinding := "add-iam-policy-binding"
  const RemoveBinding := "remove-iam-policy-binding"

  /** The role loop: one binding command per role, in order, stopping after the first that fails. */
  function Bindings(verb: string, serviceAccount: string, projectId: string, roles: seq<string>, gcloud: Runner): (r: Ran<Outcome>)
    ensures |r.issued| <= |roles|
    ensures r.value.Pass? ==> |r.issued| == |roles|
    ensures forall k :: 0 <= k < |r.issued| ==> r.issued[k] == BindingCommand(verb, serviceAccount, projectId, roles[k])
  {
    if roles == [] then Ran(Pass, [])
    else
      var cmd := BindingCommand(verb, serviceAccount, projectId, roles[0]);
      var out := gcloud(cmd);
      if out.Err? then Ran(Fail(out.msg), [cmd])
      else
        var rest := Bindings(verb, serviceAccount, projectId, roles[1..], gcloud);
        Ran(rest.value, [cmd] + rest.issued)
  }

  lemma AppendAssoc(a: seq<Command>, b: seq<Command>, c: seq<Command>)
    ensures a + (b + c) == (a + b) + c
  {
  }

  /** The for loops over roles in GetOrCreateServiceAccount and DeleteServiceAccount. */
  method RunBindings(verb: string, serviceAccount: string, projectId: string, roles: seq<string>, gcloud: Runner)
    returns (err: Outcome, issued: seq<Command>)
    ensures Ran(err, issued) == Bindings(verb, serviceAccount, projectId, roles, gcloud)
  {
    issued := [];
    var i := 0;
    while i < |roles|
      invariant 0 <= i <= |roles|
      invariant Bindings(verb, serviceAccount, projectId, roles, gcloud) ==
                var rest := Bindings(verb, serviceAccount, projectId, roles[i..], gcloud);
                Ran(rest.value, issued + rest.issued)
    {
      var cmd := BindingCommand(verb, serviceAccount, projectId, roles[i]);
      var out := gcloud(cmd);
      assert roles[i..][1..] == roles[i + 1..];
      if out.Err? {
        return Fail(out.msg), issued + [cmd];
      }
      AppendAssoc(issued, [cmd], Bindings(verb, serviceAccount, projectId, roles[i + 1..], gcloud).issued);
      issued := issued + [cmd];
      i := i + 1;
    }
    assert issued + [] == issued;
    err := Pass;
  }

  function KeyPath(clusterConfigDir: string, serviceAccount: string): string
  {
    PathJoin([clusterConfigDir, serviceAccount + ".key.json"])
  }

  function CreateServiceAccountCommand(serviceAccount: string, projectId: string): Command
  {
    GcloudCmd(["iam", "service-accounts", "create", serviceAccount, "--project", projectId])
  }

  function CreateKeyCommand(keyPath: string, serviceAccount: string, projectId: string): Command
  {
    GcloudCmd(["iam", "service-accounts", "keys", "create", keyPath, "--iam-account",
               ServiceAccountEmail(serviceAccount, projectId), "--project", projectId])
  }

  /**
   * The branch of GetOrCreateServiceAccount for an account that is not
   * found: the permission check, then the create command, then the role
   * bindings, stopping at the first error.
   */
  function AccountCreation(serviceAccount: string, projectId: string, roles: seq<string>, gcloud: Runner): Ran<Outcome>
  {
    var perm := CheckPermission(SetIamPolicy, projectId, gcloud);
    var create := CreateServiceAccountCommand(serviceAccount, projectId);
    if perm.value.Err? then Ran(Fail(perm.value.msg), perm.issued)
    else if !perm.value.value then Ran(Fail(NoPermission), perm.issued)
    else if gcloud(create).Err? then Ran(Fail(gcloud(create).msg), perm.issued + [create])
    else
      var bound := Bindings(AddBinding, serviceAccount, projectId, roles, gcloud);
      Ran(bound.value, perm.issued + [create] + bound.issued)
  }

  /**
   * GetOrCreateServiceAccount. `keyExists` stands for the os.Stat test of
   * the key file. After the lookup, a missing account is created as
   * AccountCreation says, and its error is returned; then the key is
   * downloaded only when its file does not exist yet, and a failing
   * download's error is returned; otherwise the result is the key path.
   */
  method GetOrCreateServiceAccount(serviceAccount: string, projectId: string, clusterConfigDir: string, roles: seq<string>,
                                   gcloud: Runner, keyExists: string -> bool)
    returns (r: Result<string>, issued: seq<Command>)
    ensures projectId == "" ==> r == Err(NoProjectId) && issued == []
    ensures projectId != "" ==>
              var find := FindServiceAccountCommand(serviceAccount, projectId);
              var keyPath := KeyPath(clusterConfigDir, serviceAccount);
              var createKey := CreateKeyCommand(keyPath, serviceAccount, projectId);
              var made := if FindServiceAccount(serviceAccount, projectId, gcloud) then Ran(Pass, [])
                          else AccountCreation(serviceAccount, projectId, roles, gcloud);
              && (made.value.Fail? ==> r == Err(made.value.msg) && issued == [find] + made.issued)
              && (made.value.Pass? && keyExists(keyPath) ==> r == Ok(keyPath) && issued == [find] + made.issued)
              && (made.value.Pass? && !keyExists(keyPath) ==>
                    && issued == [find] + made.issued + [createKey]
                    && (gcloud(createKey).Err? ==> r == Err(gcloud(createKey).msg))
                    && (gcloud(createKey).Ok? ==> r == Ok(keyPath)))
    ensures r.Ok? ==> r.value == KeyPath(clusterConfigDir, serviceAccount)
  {
    if projectId == "" {
      return Err(NoProjectId), [];
    }
    issued := [FindServiceAccountCommand(serviceAccount, projectId)];
    var keyPath := KeyPath(clusterConfigDir, serviceAccount);
    var createKey := CreateKeyCommand(keyPath, serviceAccount, projectId);
    var found := FindServiceAccount(serviceAccount, projectId, gcloud);
    if !found {
      var err, created := CreateServiceAccount(serviceAccount, projectId, roles, gcloud);
      issued := issued + created;
      if err.Fail? {
        return Err(err.msg), issued;
      }
    } else {
      assert issued == issued + [];
    }
    if !keyExists(keyPath) {
      issued := issued + [createKey];
      var out := gcloud(createKey);
      if out.Err? {
        return Err(out.msg), issued;
      }
    }
    r := Ok(keyPath);
  }

  /** The branch of GetOrCreateServiceAccount for an account that is not found. */
  method CreateServiceAccount(serviceAccount: string, projectId: string, roles: seq<string>, gcloud: Runner)
    returns (err: Outcome, issued: seq<Command>)
    requires projectId != ""
    ensures Ran(err, issued) == AccountCreation(serviceAccount, projectId, roles, gcloud)
  {
    var perm := CheckPermission(SetIamPolicy, projectId, gcloud);
    issued := perm.issued;
    if perm.value.Err? {
      return Fail(perm.value.msg), issued;
    }
    if !perm.value.value {
      return Fail(NoPermission), issued;
    }
    var create := CreateServiceAccountCommand(serviceAccount, projectId);
    issued := issued + [create];
    var out := gcloud(create);
    if out.Err? {
      return Fail(out.msg), issued;
    }
    var bound;
    err, bound := RunBindings(AddBinding, serviceAccount, projectId, roles, gcloud);
    issued := issued + bound;
  }

  function DeleteServiceAccountCommand(serviceAccount: string, projectId: string): Command
  {
    GcloudCmd(["iam", "service-accounts", "delete", ServiceAccountEmail(serviceAccount, projectId), "--project", projectId])
  }

  /** DeleteServiceAccount: nothing to do for an account that is not found; roles are removed before the account. */
  method DeleteServiceAccount(serviceAccount: string, projectId: string, roles: seq<string>, gcloud: Runner)
    returns (err: Outcome, issued: seq<Command>)
    ensures !FindServiceAccount(serviceAccount, projectId, gcloud) ==>
              err == Pass && issued == [FindServiceAccountCommand(serviceAccount, projectId)]
    ensures FindServiceAccount(serviceAccount, projectId, gcloud) ==>
              var b := Bindings(RemoveBinding, serviceAccount, projectId, roles, gcloud);
              var del := DeleteServiceAccountCommand(serviceAccount, projectId);
              if b.value.Fail? then err == b.value && issued == [FindServiceAccountCommand(serviceAccount, projectId)] + b.issued
              else issued == [FindServiceAccountCommand(serviceAccount, projectId)] + b.issued + [del] &&
                   (err.Pass? <==> gcloud(del).Ok?)
  {
    issued := [FindServiceAccountCommand(serviceAccount, projectId)];
    if !FindServiceAccount(serviceAccount, projectId, gcloud) {
      return Pass, issued;
    }
    var failed, bound := RunBindings(RemoveBinding, serviceAccount, projectId, roles, gcloud);
    issued := issued + bound;
    if failed.Fail? {
      return failed, issued;
    }
    var del := DeleteServiceAccountCommand(serviceAccount, projectId);
    issued := issued + [del];
    var out := gcloud(del);
    if out.Err? {
      return Fail(out.msg), issued;
    }
    err := Pass;
  }

  // ---------------------------------------------------------------------------
  // Enabled APIs
  // ---------------------------------------------------------------------------

  /**
   * The parsing loop of GetEnabledApis: lines containing "NAME" are skipped,
   * every other line gives its first field. A line with no field (a blank
   * line) makes `fields[0]` panic.
   */
  function ApiNames(lines: seq<string>): (r: Result<seq<string>>)
    ensures r.Ok? ==> |r.value| <= |lines|
    ensures r.Err? ==> r.msg == EmptyIndexPanic
    ensures r.Err? <==> exists i :: 0 <= i < |lines| && !Contains(lines[i], "NAME") && Fields(lines[i]) == []
  {
    if lines == [] then Ok([])
    else
      var rest := ApiNames(lines[..|lines| - 1]);
      var l := lines[|lines| - 1];
      if rest.Err? then rest
      else if Contains(l, "NAME") then rest
      else
        var fields := Fields(l);
        if fields == [] then Err(EmptyIndexPanic) else Ok(rest.value + [fields[0]])
  }

  /** GetEnabledApis: lists the enabled services and keeps their names. */
  method GetEnabledApis(projectId: string, gcloud: Runner) returns (r: Result<seq<string>>, issued: seq<Command>)
    ensures issued == [EnabledApisCommand(projectId)]
    ensures var out := gcloud(EnabledApisCommand(projectId));
            r == if out.Err? then Err(out.msg) else ApiNames(Split(out.value, '\n'))
  {
    var cmd := EnabledApisCommand(projectId);
    issued := [cmd];
    var out := gcloud(cmd);
    if out.Err? {
      return Err(out.msg), issued;
    }
    var lines := Split(out.value, '\n');
    var apis: seq<string> := [];
    var i := 0;
    while i < |lines|
      invariant 0 <= i <= |lines|
      invariant ApiNames(lines[..i]) == Ok(apis)
    {
      assert lines[..i + 1][..i] == lines[..i];
      var l := lines[i];
      if !Contains(l, "NAME") {
        var fields := Fields(l);
        if fields == [] {
          ApiNamesStaysFailed(lines, i + 1);
          return Err(EmptyIndexPanic), issued;
        }
        apis := apis + [fields[0]];
      }
      i := i + 1;
    }
    assert lines[..i] == lines;
    r := Ok(apis);
  }

  /** Once a prefix of the lines fails, so do all lines. */
  lemma {:induction false} ApiNamesStaysFailed(lines: seq<string>, k: nat)
    requires k <= |lines|
    requires ApiNames(lines[..k]).Err?
    ensures ApiNames(lines) == ApiNames(lines[..k])
    decreases |lines| - k
  {
    if k < |lines| {
      assert lines[..k + 1][..k] == lines[..k];
      ApiNamesStaysFailed(lines, k + 1);
    } else {
      assert lines[..k] == lines;
    }
  }

  /** The apis EnableApis still has to enable: those whose "<api>.googleapis.com" is not enabled, in order. */
  function ToEnable(apis: seq<string>, enabled: seq<string>): (r: seq<string>)
    ensures |r| <= |apis|
    ensures forall i :: 0 <= i < |r| ==> r[i] in apis && r[i] + ".googleapis.com" !in enabled
  {
    if apis == [] then []
    else
      var rest := ToEnable(apis[..|apis| - 1], enabled);
      var api := apis[|apis| - 1];
      if api + ".googleapis.com" in enabled then rest else rest + [api]
  }

  /** The loop of EnableApis that collects toEnableArray. */
  method CollectToEnable(apis: seq<string>, enabled: seq<string>) returns (toEnable: seq<string>)
    ensures toEnable == ToEnable(apis, enabled)
  {
    toEnable := [];
    var i := 0;
    while i < |apis|
      invariant 0 <= i <= |apis|
      invariant toEnable == ToEnable(apis[..i], enabled)
    {
      assert apis[..i + 1][..i] == apis[..i];
      if apis[i] + ".googleapis.com" !in enabled {
        toEnable := toEnable + [apis[i]];
      }
      i := i + 1;
    }
    assert apis[..i] == apis;
  }

  /** EnableApis: one `services enable` for the missing apis, and none when nothing is missing. */
  method EnableApis(projectId: string, apis: seq<string>, gcloud: Runner) returns (err: Outcome, issued: seq<Command>)
    ensures var out := gcloud(EnabledApisCommand(projectId));
            var enabled := if out.Err? then Err(out.msg) else ApiNames(Split(out.value, '\n'));
            (enabled.Err? ==> err == Fail(enabled.msg) && issued == [EnabledApisCommand(projectId)]) &&
            (enabled.Ok? && ToEnable(apis, enabled.value) == [] ==> err == Pass && issued == [EnabledApisCommand(projectId)]) &&
            (enabled.Ok? && ToEnable(apis, enabled.value) != [] ==>
               var cmd := EnableApisCommand(projectId, ToEnable(apis, enabled.value));
               issued == [EnabledApisCommand(projectId), cmd] && (err.Pass? <==> gcloud(cmd).Ok?))
  {
    var enabled;
    enabled, issued := GetEnabledApis(projectId, gcloud);
    if enabled.Err? {
      return Fail(enabled.msg), issued;
    }
    var toEnable := CollectToEnable(apis, enabled.value);
    if |toEnable| == 0 {
      return Pass, issued;
    }
    var cmd := EnableApisCommand(projectId, toEnable);
    issued := issued + [cmd];
    var out := gcloud(cmd);
    if out.Err? {
      return Fail(out.msg), issued;
    }
    err := Pass;
  }

  // ---------------------------------------------------------------------------
  // Login and the retry helper
  // ---------------------------------------------------------------------------

  /** gcloud auth activate-service-account --key-file PATH. */
  function ActivateServiceAccountCommand(keyPath: string): Command
  {
    GcloudCmd(["auth", "activate-service-account", "--key-file", keyPath])
  }

  /** gcloud auth login --brief. */
  function LoginCommand(): Command
  {
    GcloudCmd(["auth", "login", "--brief"])
  }

  /**
   * Login. `fileExists` stands for the os.Stat test. The readiness retry after
   * activating a service account is left out: its result is discarded.
   */
  function Login(serviceAccountKeyPath: string, skipLogin: bool, fileExists: string -> bool, gcloud: Runner): (r: Ran<Outcome>)
    ensures serviceAccountKeyPath != "" && !fileExists(serviceAccountKeyPath) ==>
              r == Ran(Fail("Unable to locate service account " + serviceAccountKeyPath), [])
    ensures serviceAccountKeyPath != "" && fileExists(serviceAccountKeyPath) ==>
              var cmd := ActivateServiceAccountCommand(serviceAccountKeyPath);
              r.issued == [cmd] && (r.value.Pass? <==> gcloud(cmd).Ok?)
    ensures serviceAccountKeyPath == "" && !skipLogin ==>
              r.issued == [LoginCommand()] && (r.value.Pass? <==> gcloud(LoginCommand()).Ok?)
    ensures serviceAccountKeyPath == "" && skipLogin ==> r == Ran(Pass, [])
    ensures |r.issued| <= 1
  {
    if serviceAccountKeyPath != "" then
      if !fileExists(serviceAccountKeyPath) then Ran(Fail("Unable to locate service account " + serviceAccountKeyPath), [])
      else
        var cmd := ActivateServiceAccountCommand(serviceAccountKeyPath);
        var out := gcloud(cmd);
        Ran(if out.Err? then Fail(out.msg) else Pass, [cmd])
    else if !skipLogin then
      var cmd := LoginCommand();
      var out := gcloud(cmd);
      Ran(if out.Err? then Fail(out.msg) else Pass, [cmd])
    else Ran(Pass, [])
  }

  /** What one call of the retried function returns: nil, an error, or an error wrapped in `stop`. */
  datatype Attempt = Done | Failed(msg: string) | Stopped(msg: string)

  /** The outcome of retry, the number of calls made and the sleeps between them. */
  datatype RetryRun = RetryRun(err: Outcome, calls: nat, sleeps: seq<int>)

  function Pow2(n: nat): (p: nat)
    ensures p >= 1
  {
    if n == 0 then 1 else 2 * Pow2(n - 1)
  }

  function MaxCalls(attempts: int): nat
  {
    if attempts > 1 then attempts else 1
  }

  /**
   * retry(attempts, sleep, fn), the calls of `fn` numbered from `first`:
   * call number `first + i` returns fn(first + i).
   */
  function Retry(attempts: int, sleep: int, fn: nat -> Attempt, first: nat): (r: RetryRun)
    ensures 1 <= r.calls <= MaxCalls(attempts)
    ensures |r.sleeps| == r.calls - 1
    ensures r.sleeps == Sleeps(sleep, r.calls - 1)
    ensures forall j :: first <= j < first + r.calls - 1 ==> fn(j).Failed?
    ensures var last := fn(first + r.calls - 1);
            (last.Done? ==> r.err == Pass) &&
            (last.Stopped? ==> r.err == Fail(last.msg)) &&
            (last.Failed? ==> r.err == Fail(last.msg) && r.calls == MaxCalls(attempts))
    decreases if attempts > 0 then attempts else 0
  {
    match fn(first)
    case Done => RetryRun(Pass, 1, [])
    case Stopped(m) => RetryRun(Fail(m), 1, [])
    case Failed(m) =>
      if attempts - 1 > 0 then
        var rest := Retry(attempts - 1, 2 * sleep, fn, first + 1);
        var r := RetryRun(rest.err, rest.calls + 1, [sleep] + rest.sleeps);
        assert first + r.calls - 1 == (first + 1) + rest.calls - 1;
        r
      else RetryRun(Fail(m), 1, [])
  }

  /** The sleeps between `n` + 1 calls: `sleep` first, then twice as long each time. */
  function Sleeps(sleep: int, n: nat): (s: seq<int>)
    ensures |s| == n
    decreases n
  {
    if n == 0 then [] else [sleep] + Sleeps(2 * sleep, n - 1)
  }

  /** The `i`-th sleep is `sleep` times 2 to the `i`. */
  lemma {:induction false} SleepsDouble(sleep: int, n: nat)
    ensures forall i :: 0 <= i < n ==> Sleeps(sleep, n)[i] == sleep * Pow2(i)
    decreases n
  {
    if n > 0 {
      SleepsDouble(2 * sleep, n - 1);
      var s := Sleeps(sleep, n);
      forall i | 0 <= i < n
        ensures s[i] == sleep * Pow2(i)
      {
        if i == 0 {
          assert Pow2(0) == 1;
        } else {
          assert s[i] == Sleeps(2 * sleep, n - 1)[i - 1] == 2 * sleep * Pow2(i - 1);
          DoubleSleep(sleep, i);
        }
      }
    }
  }

  lemma DoubleSleep(sleep: int, i: nat)
    requires i > 0
    ensures 2 * sleep * Pow2(i - 1) == sleep * Pow2(i)
  {
    assert Pow2(i) == 2 * Pow2(i - 1);
  }

  // ---------------------------------------------------------------------------
  // KMS
  // ---------------------------------------------------------------------------

  function KeyringCommand(verb: string, keyringName: string, projectId: string): Command
  {
    GcloudCmd(["kms", "keyrings", verb, keyringName, "--location", KmsLocation, "--project", projectId])
  }

  /** CreateKmsKeyring: an empty name is refused before any command; an existing keyring is left alone. */
  function CreateKmsKeyring(keyringName: string, projectId: string, gcloud: Runner): (r: Ran<Outcome>)
    ensures keyringName == "" ==> r == Ran(Fail("provided keyring name is empty"), [])
    ensures keyringName != "" && gcloud(KeyringCommand("describe", keyringName, projectId)).Ok? ==>
              r == Ran(Pass, [KeyringCommand("describe", keyringName, projectId)])
    ensures keyringName != "" && gcloud(KeyringCommand("describe", keyringName, projectId)).Err? ==>
              var create := gcloud(KeyringCommand("create", keyringName, projectId));
              r.issued == [KeyringCommand("describe", keyringName, projectId), KeyringCommand("create", keyringName, projectId)] &&
              r.value == if create.Err? then Fail("creating kms keyring: " + create.msg) else Pass
  {
    if keyringName == "" then Ran(Fail("provided keyring name is empty"), [])
    else
      var describe := KeyringCommand("describe", keyringName, projectId);
      if gcloud(describe).Ok? then Ran(Pass, [describe])
      else
        var cmd := KeyringCommand("create", keyringName, projectId);
        var out := gcloud(cmd);
        Ran(if out.Err? then Fail("creating kms keyring: " + out.msg) else Pass, [describe, cmd])
  }

  function KeyCommand(verb: string, keyName: string, keyringName: string, projectId: string): Command
  {
    GcloudCmd(["kms", "keys", verb, keyName, "--location", KmsLocation, "--keyring", keyringName] +
              (if verb == "create" then ["--purpose", "encryption"] else []) + ["--project", projectId])
  }

  /** CreateKmsKey: an existing key is left alone; there is no empty-name guard here. */
  function CreateKmsKey(keyName: string, keyringName: string, projectId: string, gcloud: Runner): (r: Ran<Outcome>)
    ensures gcloud(KeyCommand("describe", keyName, keyringName, projectId)).Ok? ==>
              r == Ran(Pass, [KeyCommand("describe", keyName, keyringName, projectId)])
    ensures gcloud(KeyCommand("describe", keyName, keyringName, projectId)).Err? ==>
              var create := gcloud(KeyCommand("create", keyName, keyringName, projectId));
              r.issued == [KeyCommand("describe", keyName, keyringName, projectId), KeyCommand("create", keyName, keyringName, projectId)] &&
              r.value == if create.Err? then Fail("creating kms key '" + keyName + "' into keyring '" + keyringName + "': " + create.msg) else Pass
  {
    var describe := KeyCommand("describe", keyName, keyringName, projectId);
    if gcloud(describe).Ok? then Ran(Pass, [describe])
    else
      var cmd := KeyCommand("create", keyName, keyringName, projectId);
      var out := gcloud(cmd);
      Ran(if out.Err? then Fail("creating kms key '" + keyName + "' into keyring '" + keyringName + "': " + out.msg) else Pass,
          [describe, cmd])
  }
}

module GcloudProperties {
  import opened Wrappers
  import opened Strings
  import opened Gcloud

  /** A `gcloud iam service-accounts keys ...` command. */
  predicate IsKeyDownload(c: Command)
  {
    |c.args| >= 3 && c.args[0] == "iam" && c.args[2] == "keys"
  }

  /**
   * Creating a missing account: a permission-check error or a missing
   * setIamPolicy permission is returned before the account is created; with
   * the permission the account is created, a failing create returns its
   * error before any role is bound, and otherwise the result is that of the
   * role bindings, all of them made when it is nil. No key is downloaded.
   */
  lemma AccountCreationCases(serviceAccount: string, projectId: string, roles: seq<string>, gcloud: Runner)
    requires projectId != ""
    ensures var c := AccountCreation(serviceAccount, projectId, roles, gcloud);
            var check := CheckPermissionCommand(SetIamPolicy, projectId);
            var perm := gcloud(check);
            var create := CreateServiceAccountCommand(serviceAccount, projectId);
            var bound := Bindings(AddBinding, serviceAccount, projectId, roles, gcloud);
            && (perm.Err? ==> c == Ran(Fail(perm.msg), [check]))
            && (perm.Ok? && !Contains(perm.value, SetIamPolicy) ==> c == Ran(Fail(NoPermission), [check]))
            && (perm.Ok? && Contains(perm.value, SetIamPolicy) && gcloud(create).Err? ==>
                  c == Ran(Fail(gcloud(create).msg), [check, create]))
            && (perm.Ok? && Contains(perm.value, SetIamPolicy) && gcloud(create).Ok? ==>
                  c.value == bound.value && c.issued == [check, create] + bound.issued
                  && (c.value.Pass? ==> |c.issued| == |roles| + 2))
            && (forall k :: 0 <= k < |c.issued| ==> !IsKeyDownload(c.issued[k]))
  {
    var c := AccountCreation(serviceAccount, projectId, roles, gcloud);
    var check := CheckPermissionCommand(SetIamPolicy, projectId);
    var create := CreateServiceAccountCommand(serviceAccount, projectId);
    var bound := Bindings(AddBinding, serviceAccount, projectId, roles, gcloud);
    assert [check] + [create] == [check, create];
    forall k | 0 <= k < |c.issued|
      ensures !IsKeyDownload(c.issued[k])
    {
      if k >= 2 {
        assert c.issued[k] == bound.issued[k - 2];
      }
    }
  }

  /** us-central1-a lies in the region us-central1. */
  lemma RegionExample()
    ensures GetRegionFromZone("us-central1-a") == "us-central1"
  {
  }

  /** The project option is present exactly when a project id is given. */
  lemma ProjectOption(args: seq<string>, flag: string, projectId: string)
    ensures |WithProject(args, flag, projectId)| == |args| + (if projectId == "" then 0 else 2)
    ensures projectId != "" ==> WithProject(args, flag, projectId)[|args| + 1] == projectId
    ensures WithProject(args, flag, projectId)[..|args|] == args
  {
  }

  /** The bucket to create is always the last argument, after the optional project. */
  lemma CreateBucketArgs(projectId: string, bucketName: string, location: string)
    ensures var a := CreateBucketCommand(projectId, bucketName, location).args;
            a[..3] == ["mb", "-l", location] && a[|a| - 1] == "gs://" + bucketName &&
            |a| == (if projectId == "" then 4 else 6)
  {
  }

  /** An empty project id is refused without running anything, by both guarded operations. */
  lemma EmptyProjectRunsNothing(perm: string, gcloud: Runner)
    ensures CheckPermission(perm, "", gcloud).issued == []
    ensures CheckPermission(perm, "", gcloud).value.Err?
  {
  }

  /** retry never calls more than max(attempts, 1) times, and a success or a stop ends it at once. */
  lemma RetryStopsEarly(attempts: int, sleep: int, fn: nat -> Attempt)
    requires fn(0).Done? || fn(0).Stopped?
    ensures Retry(attempts, sleep, fn, 0).calls == 1
    ensures fn(0).Stopped? ==> Retry(attempts, sleep, fn, 0).err == Fail(fn(0).msg)
  {
  }

  /** A function that always fails plainly is called exactly max(attempts, 1) times, with the sleep doubling each round. */
  lemma RetryExhausts(attempts: int, sleep: int, fn: nat -> Attempt)
    requires forall i :: fn(i).Failed?
    ensures var r := Retry(attempts, sleep, fn, 0);
            r.calls == MaxCalls(attempts) && r.err == Fail(fn(MaxCalls(attempts) - 1).msg) &&
            forall i :: 0 <= i < MaxCalls(attempts) - 1 ==> r.sleeps[i] == sleep * Pow2(i)
  {
    SleepsDouble(sleep, MaxCalls(attempts) - 1);
  }

  /** Each enabled-api name comes from a listed line, in order, and header lines give none. */
  lemma {:induction false} ApiNamesHeaderOnly(lines: seq<string>)
    requires forall i :: 0 <= i < |lines| ==> Contains(lines[i], "NAME")
    ensures ApiNames(lines) == Ok([])
  {
    if lines != [] {
      ApiNamesHeaderOnly(lines[..|lines| - 1]);
    }
  }

  /** A listing line after the header contributes its first field. */
  lemma ApiNamesAppend(lines: seq<string>, l: string)
    requires ApiNames(lines).Ok? && !Contains(l, "NAME") && !AllSpace(l)
    ensures ApiNames(lines + [l]) == Ok(ApiNames(lines).value + [Fields(l)[0]])
  {
    assert (lines + [l])[..|lines|] == lines;
  }

  /** A blank line in the listing ends the parse with the index panic. */
  lemma ApiNamesBlankLine(lines: seq<string>, l: string)
    requires ApiNames(lines).Ok? && AllSpace(l) && !Contains(l, "NAME")
    ensures ApiNames(lines + [l]) == Err(EmptyIndexPanic)
  {
    assert (lines + [l])[..|lines|] == lines;
  }

  /** The apis to enable are exactly the requested ones not yet enabled. */
  lemma {:induction false} ToEnableMembers(apis: seq<string>, enabled: seq<string>, a: string)
    ensures a in ToEnable(apis, enabled) <==> a in apis && a + ".googleapis.com" !in enabled
  {
    if apis != [] {
      var init := apis[..|apis| - 1];
      ToEnableMembers(init, enabled, a);
      assert apis == init + [apis[|apis| - 1]];
    }
  }

  /** When every requested api is already enabled nothing is left to enable. */
  lemma {:induction false} AllEnabledNothingToDo(apis: seq<string>, enabled: seq<string>)
    requires forall i :: 0 <= i < |apis| ==> apis[i] + ".googleapis.com" in enabled
    ensures ToEnable(apis, enabled) == []
  {
    if apis != [] {
      AllEnabledNothingToDo(apis[..|apis| - 1], enabled);
    }
  }

  /** An empty keyring name is refused before any command runs. */
  lemma EmptyKeyringRunsNothing(projectId: string, gcloud: Runner)
    ensures CreateKmsKeyring("", projectId, gcloud).issued == []
  {
  }
}
