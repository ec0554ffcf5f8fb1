/**
 * `jx upgrade platform`: reading the installed platform version from the
 * `helm list` output, deciding whether to upgrade, and the value files,
 * values and temporary files of the helm upgrade.
 */
module UpgradePlatform {
  import opened Wrappers
  import opened Strings

  const NotInstalled := "Jenkins X platform helm chart is not installed."
  const PlatformRelease := "jenkins-x"
  const CloneFailed := "failed to clone the jx cloud environments repo: "
  const ConfigDirFailed := "failed to create a temporary config dir for Git credentials: "
  const SecretLookupFailed := "failed to get the jx secret resource: "
  const EnvDirPrefix := "cloud environment dir "
  const NotFoundSuffix := " not found"

  /** The last element of `s`, or `d` when `s` is empty. */
  function LastOr(s: seq<string>, d: string): string
  {
    if s == [] then d else s[|s| - 1]
  }

  lemma LastOrAppend(a: seq<string>, b: seq<string>, d: string)
    ensures LastOr(a + b, d) == LastOr(b, LastOr(a, d))
  {
  }

  /** The version a trimmed field carries, when it starts with the chart prefix. */
  function FieldVersion(field: string, chartPrefix: string): seq<string>
  {
    var f := TrimSpace(field);
    if HasPrefix(f, chartPrefix) then [TrimPrefix(f, chartPrefix)] else []
  }

  /** The versions carried by the given fields, in order. */
  function FieldVersions(fields: seq<string>, chartPrefix: string): seq<string>
  {
    if fields == [] then []
    else FieldVersions(fields[..|fields| - 1], chartPrefix) + FieldVersion(fields[|fields| - 1], chartPrefix)
  }

  /** A `helm list` row of the jenkins-x release: more than four tab-separated fields, the first one "jenkins-x". */
  predicate PlatformRow(fields: seq<string>)
  {
    |fields| > 4 && TrimSpace(fields[0]) == PlatformRelease
  }

  /** The versions one line of `helm list` carries: only a platform row counts, from its fifth field on. */
  function LineVersions(line: string, chartPrefix: string): seq<string>
  {
    var fields := Split(line, '\t');
    if PlatformRow(fields) then FieldVersions(fields[4..], chartPrefix) else []
  }

  /** Every version the given lines carry, in order. */
  function ListedVersions(lines: seq<string>, chartPrefix: string): seq<string>
  {
    if lines == [] then []
    else ListedVersions(lines[..|lines| - 1], chartPrefix) + LineVersions(lines[|lines| - 1], chartPrefix)
  }

  /** The nested loop of Run over the `helm list` output: the last version found wins. */
  method CurrentVersion(output: string, chartPrefix: string) returns (currentVersion: string)
    ensures currentVersion == LastOr(ListedVersions(Split(output, '\n'), chartPrefix), "")
  {
    var lines := Split(output, '\n');
    currentVersion := "";
    var i := 0;
    while i < |lines|
      invariant 0 <= i <= |lines|
      invariant currentVersion == LastOr(ListedVersions(lines[..i], chartPrefix), "")
    {
      assert lines[..i + 1][..i] == lines[..i];
      LastOrAppend(ListedVersions(lines[..i], chartPrefix), LineVersions(lines[i], chartPrefix), "");
      currentVersion := ScanLine(lines[i], chartPrefix, currentVersion);
      i := i + 1;
    }
    assert lines[..i] == lines;
  }

  /** The body of the outer loop: only a platform row is scanned. */
  method ScanLine(line: string, chartPrefix: string, before: string) returns (currentVersion: string)
    ensures currentVersion == LastOr(LineVersions(line, chartPrefix), before)
  {
    currentVersion := before;
    var fields := Split(line, '\t');
    if |fields| > 4 && TrimSpace(fields[0]) == PlatformRelease {
      currentVersion := ScanFields(fields[4..], chartPrefix, before);
    }
  }

  /** The inner loop, over the fields from the fifth on, starting from the version found so far. */
  method ScanFields(fields: seq<string>, chartPrefix: string, before: string) returns (currentVersion: string)
    ensures currentVersion == LastOr(FieldVersions(fields, chartPrefix), before)
  {
    currentVersion := before;
    var j := 0;
    while j < |fields|
      invariant 0 <= j <= |fields|
      invariant currentVersion == LastOr(FieldVersions(fields[..j], chartPrefix), before)
    {
      assert fields[..j + 1][..j] == fields[..j];
      LastOrAppend(FieldVersions(fields[..j], chartPrefix), FieldVersion(fields[j], chartPrefix), before);
      var f := TrimSpace(fields[j]);
      if HasPrefix(f, chartPrefix) {
        currentVersion := TrimPrefix(f, chartPrefix);
      }
      j := j + 1;
    }
    assert fields[..j] == fields;
  }

  /** The file names Run works with, whose values are defined outside this file. */
  datatype FileNames = FileNames(
    gitSecrets: string, adminSecrets: string, extraValues: string,
    cloudEnvValues: string, cloudEnvSecrets: string, cloudEnvSopsConfig: string)

  /**
   * What Run learns from outside: the flags, and the answers of git, helm,
   * the team settings, the file system and the cluster. `wrkDir` and
   * `kubeProvider` are what the clone and the team settings give when they
   * succeed, `configDir` what util.ConfigDir gives; whether each temporary
   * file existed, whether a sops configuration and a decrypted secrets file
   * are present, and the myvalues.yaml that AppendMyValues finds, if any.
   * `secret` is the lookup of the install secret: an error, or whether a
   * secret came back.
   */
  datatype UpgradeInputs = UpgradeInputs(
    targetVersion: string, alwaysUpgrade: bool, setFlag: string, cleanupTempFiles: bool,
    chartPrefix: string, names: FileNames, listCharts: Result<string>,
    cloneError: Option<string>, loadedVersion: Result<string>, teamSettingsError: Option<string>,
    wrkDirExists: bool, configDirError: Option<string>, secret: Result<bool>,
    wrkDir: string, kubeProvider: string, configDir: string,
    secretsExisted: bool, adminExisted: bool, configExisted: bool,
    sopsExists: bool, decryptedExists: bool, myValues: Option<string>)

  /**
   * What Run does once the versions are known: nothing because the secret
   * lookup gave no secret, nothing because the version is installed, or a
   * helm upgrade to `version` with the given `--set` values and value
   * files, after creating `created` from the install secret and followed by
   * the removal of `removed`.
   */
  datatype Plan =
    | NoSecret
    | AlreadyInstalled
    | Upgrade(version: string, values: seq<string>, valueFiles: seq<string>, created: seq<string>, removed: seq<string>)

  function MakefileDir(p: UpgradeInputs): string
  {
    PathJoin([p.wrkDir, "env-" + ToLower(p.kubeProvider)])
  }

  function SecretsFile(p: UpgradeInputs): string { PathJoin([p.configDir, p.names.gitSecrets]) }
  function AdminSecretsFile(p: UpgradeInputs): string { PathJoin([p.configDir, p.names.adminSecrets]) }
  function ConfigFile(p: UpgradeInputs): string { PathJoin([p.configDir, p.names.extraValues]) }
  function CloudValuesFile(p: UpgradeInputs): string { PathJoin([MakefileDir(p), p.names.cloudEnvValues]) }
  function CloudSecretsFile(p: UpgradeInputs): string { PathJoin([MakefileDir(p), p.names.cloudEnvSecrets]) }
  function SopsFile(p: UpgradeInputs): string { PathJoin([MakefileDir(p), p.names.cloudEnvSopsConfig]) }
  function DecryptedSecretsFile(p: UpgradeInputs): string { PathJoin([MakefileDir(p), p.names.cloudEnvSecrets + ".dec"]) }

  /** The version to upgrade to is known: given by the flag, or cloned and loaded. */
  predicate TargetKnown(p: UpgradeInputs)
  {
    p.targetVersion != "" || (p.cloneError.None? && p.loadedVersion.Ok?)
  }

  /** The version to upgrade to: the flag, else the version of the cloned environments. */
  function Target(p: UpgradeInputs): string
    requires TargetKnown(p)
  {
    if p.targetVersion != "" then p.targetVersion else p.loadedVersion.value
  }

  /** The platform version the helm list output shows installed, or "". */
  function Installed(p: UpgradeInputs): string
    requires p.listCharts.Ok?
  {
    LastOr(ListedVersions(Split(p.listCharts.value, '\n'), p.chartPrefix), "")
  }

  /**
   * The start of Run: the version to upgrade to (cloning the environments
   * when no version is given), then the installed version, with the
   * directory of the clone when one was made.
   */
  method ReadVersions(p: UpgradeInputs) returns (r: Result<(string, string, string)>)
    ensures p.targetVersion == "" && p.cloneError.Some? ==> r == Err(p.cloneError.value)
    ensures p.targetVersion == "" && p.cloneError.None? && p.loadedVersion.Err? ==> r == Err(p.loadedVersion.msg)
    ensures TargetKnown(p) && p.listCharts.Err? ==> r == Err(p.listCharts.msg)
    ensures TargetKnown(p) && p.listCharts.Ok? && Installed(p) == "" ==> r == Err(NotInstalled)
    ensures r.Ok? <==> TargetKnown(p) && p.listCharts.Ok? && Installed(p) != ""
    ensures r.Ok? ==> r.value == (Target(p), Installed(p), if p.targetVersion == "" then p.wrkDir else "")
  {
    var targetVersion := p.targetVersion;
    var wrkDir := "";
    if targetVersion == "" {
      if p.cloneError.Some? {
        return Err(p.cloneError.value);
      }
      wrkDir := p.wrkDir;
      if p.loadedVersion.Err? {
        return Err(p.loadedVersion.msg);
      }
      targetVersion := p.loadedVersion.value;
    }
    if p.listCharts.Err? {
      return Err(p.listCharts.msg);
    }
    var currentVersion := CurrentVersion(p.listCharts.value, p.chartPrefix);
    if currentVersion == "" {
      return Err(NotInstalled);
    }
    r := Ok((targetVersion, currentVersion, wrkDir));
  }

  /** Both versions are read and a platform version is installed. */
  predicate VersionsRead(p: UpgradeInputs)
  {
    TargetKnown(p) && p.listCharts.Ok? && Installed(p) != ""
  }

  /** The team settings are read, the environments cloned and found, and the temporary config dir made. */
  predicate Prepared(p: UpgradeInputs)
  {
    p.teamSettingsError.None? && p.cloneError.None? && p.wrkDirExists && p.configDirError.None?
  }

  /** The message when the cloned environments have no directory for the provider. */
  function EnvDirMissing(p: UpgradeInputs): string
  {
    EnvDirPrefix + MakefileDir(p) + NotFoundSuffix
  }

  /**
   * The helm upgrade Run assembles: the target version, the --set value,
   * the cloud values, secrets, admin secrets, config and (decrypted) cloud
   * secrets files then myvalues.yaml, the temporary files it writes and
   * those it cleans up.
   */
  function UpgradePlan(p: UpgradeInputs): Plan
    requires TargetKnown(p)
  {
    Upgrade(
      Target(p),
      if p.setFlag != "" then [p.setFlag] else [],
      [CloudValuesFile(p), SecretsFile(p), AdminSecretsFile(p), ConfigFile(p),
       if p.sopsExists && p.decryptedExists then DecryptedSecretsFile(p) else CloudSecretsFile(p)]
      + (if p.myValues.Some? then [p.myValues.value] else []),
      (if p.secretsExisted then [] else [SecretsFile(p)])
      + (if p.adminExisted then [] else [AdminSecretsFile(p)])
      + (if p.configExisted then [] else [ConfigFile(p)]),
      if p.cleanupTempFiles then [SecretsFile(p)] + (if p.configExisted then [] else [ConfigFile(p)]) else [])
  }

  /** The error of reading the versions, in source order. */
  function VersionsError(p: UpgradeInputs): string
    requires !VersionsRead(p)
  {
    if p.targetVersion == "" && p.cloneError.Some? then p.cloneError.value
    else if p.targetVersion == "" && p.loadedVersion.Err? then p.loadedVersion.msg
    else if p.listCharts.Err? then p.listCharts.msg
    else NotInstalled
  }

  /** The error of preparing the upgrade once the versions are read, in source order. */
  function PrepareError(p: UpgradeInputs): string
    requires !Prepared(p) || p.secret.Err?
  {
    if p.teamSettingsError.Some? then p.teamSettingsError.value
    else if p.cloneError.Some? then CloneFailed + p.cloneError.value
    else if !p.wrkDirExists then EnvDirMissing(p)
    else if p.configDirError.Some? then ConfigDirFailed + p.configDirError.value
    else SecretLookupFailed + p.secret.msg
  }

  /**
   * What Run decides before its first call of an upgrade: the first error in
   * source order, or the plan.
   */
  function Planned(p: UpgradeInputs): Result<Plan>
  {
    if !VersionsRead(p) then Err(VersionsError(p))
    else if !Prepared(p) || p.secret.Err? then Err(PrepareError(p))
    else if !p.secret.value then Ok(NoSecret)
    else if Target(p) == Installed(p) && !p.alwaysUpgrade then Ok(AlreadyInstalled)
    else Ok(UpgradePlan(p))
  }

  /** The part of Run that reads the versions and assembles the helm upgrade. */
  method PlanUpgrade(p: UpgradeInputs) returns (r: Result<Plan>)
    ensures r == Planned(p)
  {
    var versions := ReadVersions(p);
    if versions.Err? {
      return Err(versions.msg);
    }
    var (targetVersion, currentVersion, wrkDir) := versions.value;
    r := PrepareUpgrade(p, targetVersion, currentVersion, wrkDir);
  }

  /**
   * The rest of PlanUpgrade once the versions are read: the team settings,
   * the clone when none was made yet, the environment and config
   * directories and the secret, then the decision.
   */
  method PrepareUpgrade(p: UpgradeInputs, targetVersion: string, currentVersion: string, wrkDir: string)
    returns (r: Result<Plan>)
    requires VersionsRead(p) && targetVersion == Target(p) && currentVersion == Installed(p)
    requires wrkDir == "" || p.cloneError.None?
    ensures r == Planned(p)
  {
    if p.teamSettingsError.Some? {
      return Err(p.teamSettingsError.value);
    }
    if wrkDir == "" && p.cloneError.Some? {
      return Err(CloneFailed + p.cloneError.value);
    }
    if !p.wrkDirExists {
      return Err(EnvDirMissing(p));
    }
    if p.configDirError.Some? {
      return Err(ConfigDirFailed + p.configDirError.value);
    }
    if p.secret.Err? {
      return Err(SecretLookupFailed + p.secret.msg);
    }
    if !p.secret.value {
      // errors.Wrap of the nil lookup error is nil: Run ends without an error
      return Ok(NoSecret);
    }
    if targetVersion == currentVersion && !p.alwaysUpgrade {
      return Ok(AlreadyInstalled);
    }
    var plan := AssembleUpgrade(p, targetVersion);
    r := Ok(plan);
  }

  /** The helm upgrade's arguments and the temporary files around it. */
  method AssembleUpgrade(p: UpgradeInputs, targetVersion: string) returns (plan: Plan)
    requires TargetKnown(p) && targetVersion == Target(p)
    ensures plan == UpgradePlan(p)
  {
    var created := CreatedFiles(p);
    var valueFiles := ValueFiles(p);
    var values := [];
    if p.setFlag != "" {
      values := values + [p.setFlag];
    }
    var removed := RemovedFiles(p);
    assert values == UpgradePlan(p).values;
    plan := Upgrade(targetVersion, values, valueFiles, created, removed);
  }

  /** The calls Run makes once it has decided to upgrade, each of which can fail. */
  datatype Action =
    | Exists(file: string)
    | Write(file: string)
    | LookFor(file: string)
    | Decrypt(file: string)
    | AppendMyValues
    | UpgradeChart
    | RemoveSecrets(file: string)
    | RemoveConfig(file: string)

  /** What the error of a failing call says before the cause. */
  function ActionContext(a: Action): string
  {
    match a
    case Exists(f) => "unable to determine if " + f + " exist"
    case Write(f) => "failed to write the config file " + f
    case LookFor(f) => "failed to look for " + f
    case Decrypt(f) => "failed to decrypt " + f
    case AppendMyValues => "failed to append the myvalues.yaml file"
    case UpgradeChart => "unable to upgrade helm chart"
    case RemoveSecrets(_) => "failed to cleanup the secrets file"
    case RemoveConfig(_) => "failed to cleanup the config file"
  }

  /** The error Run returns when `a` fails with `msg`. */
  function ActionError(a: Action, msg: string): (r: string)
    ensures HasSuffix(r, ": " + msg)
  {
    var head := ActionContext(a);
    assert (head + ": " + msg)[|head|..] == ": " + msg;
    head + ": " + msg
  }

  /** Check a temporary file, then write it from the secret when it was missing. */
  function Ensure(f: string, existed: bool): seq<Action>
  {
    [Exists(f)] + (if existed then [] else [Write(f)])
  }

  /** The three temporary files, each checked and written when missing. */
  function TempFileActions(p: UpgradeInputs): (r: seq<Action>)
    ensures forall f :: Write(f) in r <==>
              (f == SecretsFile(p) && !p.secretsExisted) || (f == AdminSecretsFile(p) && !p.adminExisted) ||
              (f == ConfigFile(p) && !p.configExisted)
    ensures forall a :: a in r ==> a.Exists? || a.Write?
  {
    Ensure(SecretsFile(p), p.secretsExisted) + Ensure(AdminSecretsFile(p), p.adminExisted)
    + Ensure(ConfigFile(p), p.configExisted)
  }

  /** The sops check, and the decryption when a sops configuration is present. */
  function SecretsActions(p: UpgradeInputs): (r: seq<Action>)
    ensures Decrypt(CloudSecretsFile(p)) in r <==> p.sopsExists
    ensures forall a :: a in r ==> a.LookFor? || a.Decrypt?
  {
    [LookFor(SopsFile(p))] + (if p.sopsExists then [Decrypt(CloudSecretsFile(p)), LookFor(DecryptedSecretsFile(p))] else [])
  }

  /** The cleanup: the secrets file, and the config file when this run created it. */
  function CleanupActions(p: UpgradeInputs): (r: seq<Action>)
    ensures p.cleanupTempFiles <==> RemoveSecrets(SecretsFile(p)) in r
    ensures RemoveConfig(ConfigFile(p)) in r <==> p.cleanupTempFiles && !p.configExisted
    ensures forall a :: a in r ==> a.RemoveSecrets? || a.RemoveConfig?
  {
    if p.cleanupTempFiles
    then [RemoveSecrets(SecretsFile(p))] + (if p.configExisted then [] else [RemoveConfig(ConfigFile(p))])
    else []
  }

  /** The calls of an upgrade, in the order Run makes them. */
  function Actions(p: UpgradeInputs): seq<Action>
  {
    TempFileActions(p) + SecretsActions(p) + [AppendMyValues, UpgradeChart] + CleanupActions(p)
  }

  lemma InConcat(t: seq<Action>, d: seq<Action>, m: seq<Action>, c: seq<Action>)
    ensures forall a :: a in t + d + m + c <==> a in t || a in d || a in m || a in c
  {
  }

  /**
   * The calls of an upgrade include the chart upgrade and AppendMyValues, a
   * write exactly for each missing temporary file, the decryption exactly
   * with sops, and the secrets cleanup exactly when cleanup is on.
   */
  lemma ActionsCalls(p: UpgradeInputs)
    ensures UpgradeChart in Actions(p) && AppendMyValues in Actions(p)
    ensures forall f :: Write(f) in Actions(p) <==>
              (f == SecretsFile(p) && !p.secretsExisted) || (f == AdminSecretsFile(p) && !p.adminExisted) ||
              (f == ConfigFile(p) && !p.configExisted)
    ensures Decrypt(CloudSecretsFile(p)) in Actions(p) <==> p.sopsExists
    ensures p.cleanupTempFiles <==> RemoveSecrets(SecretsFile(p)) in Actions(p)
  {
    ActionsWrites(p);
    ActionsDecrypt(p);
    ActionsCleanup(p);
  }

  /** An upgrade writes exactly the temporary files that did not exist. */
  lemma ActionsWrites(p: UpgradeInputs)
    ensures forall f :: Write(f) in Actions(p) <==> Write(f) in TempFileActions(p)
  {
    var t, d, m, c := TempFileActions(p), SecretsActions(p), [AppendMyValues, UpgradeChart], CleanupActions(p);
    InConcat(t, d, m, c);
    forall f ensures Write(f) in Actions(p) <==> Write(f) in t {
      assert Write(f) !in d && Write(f) !in m && Write(f) !in c;
    }
  }

  /** An upgrade decrypts the cloud secrets exactly with a sops configuration. */
  lemma ActionsDecrypt(p: UpgradeInputs)
    ensures Decrypt(CloudSecretsFile(p)) in Actions(p) <==> Decrypt(CloudSecretsFile(p)) in SecretsActions(p)
  {
    var t, d, m, c := TempFileActions(p), SecretsActions(p), [AppendMyValues, UpgradeChart], CleanupActions(p);
    InConcat(t, d, m, c);
    assert Decrypt(CloudSecretsFile(p)) !in t && Decrypt(CloudSecretsFile(p)) !in c;
  }

  /** An upgrade removes the secrets file exactly when cleanup is on, and always upgrades the chart. */
  lemma ActionsCleanup(p: UpgradeInputs)
    ensures RemoveSecrets(SecretsFile(p)) in Actions(p) <==> RemoveSecrets(SecretsFile(p)) in CleanupActions(p)
    ensures UpgradeChart in Actions(p) && AppendMyValues in Actions(p)
  {
    var t, d, m, c := TempFileActions(p), SecretsActions(p), [AppendMyValues, UpgradeChart], CleanupActions(p);
    InConcat(t, d, m, c);
    assert RemoveSecrets(SecretsFile(p)) !in t && RemoveSecrets(SecretsFile(p)) !in d;
  }

  /** The number of actions before the first that fails, or all of them. */
  function Completed(actions: seq<Action>, fails: Action -> Option<string>): (n: nat)
    ensures n <= |actions|
    ensures forall i :: 0 <= i < n ==> fails(actions[i]).None?
    ensures n < |actions| ==> fails(actions[n]).Some?
  {
    if actions == [] then 0
    else if fails(actions[0]).Some? then 0
    else 1 + Completed(actions[1..], fails)
  }

  /**
   * The calls of the upgrade one after another, stopping at the first that
   * fails: the calls made and Run's result.
   */
  method Execute(actions: seq<Action>, fails: Action -> Option<string>) returns (done: seq<Action>, err: Outcome)
    ensures var n := Completed(actions, fails);
            done == actions[..n] &&
            (n == |actions| ==> err == Pass) &&
            (n < |actions| ==> err == Fail(ActionError(actions[n], fails(actions[n]).value)))
  {
    done := [];
    var i := 0;
    while i < |actions|
      invariant 0 <= i <= |actions|
      invariant forall k :: 0 <= k < i ==> fails(actions[k]).None?
      invariant Completed(actions[i..], fails) + i == Completed(actions, fails)
      invariant done == actions[..i]
    {
      assert actions[i..][1..] == actions[i + 1..];
      var failure := fails(actions[i]);
      if failure.Some? {
        return done, Fail(ActionError(actions[i], failure.value));
      }
      done := done + [actions[i]];
      i := i + 1;
    }
    err := Pass;
  }

  /**
   * Run as a whole: the plan, and for an upgrade its calls until the first
   * failure. The calls made are returned with the result.
   */
  method Run(p: UpgradeInputs, fails: Action -> Option<string>) returns (done: seq<Action>, err: Outcome)
    ensures Planned(p).Err? ==> done == [] && err == Fail(Planned(p).msg)
    ensures Planned(p).Ok? && !Planned(p).value.Upgrade? ==> done == [] && err == Pass
    ensures Planned(p).Ok? && Planned(p).value.Upgrade? ==>
              var n := Completed(Actions(p), fails);
              && done == Actions(p)[..n]
              && (n == |Actions(p)| ==> err == Pass)
              && (n < |Actions(p)| ==> err == Fail(ActionError(Actions(p)[n], fails(Actions(p)[n]).value)))
  {
    var plan := PlanUpgrade(p);
    if plan.Err? {
      return [], Fail(plan.msg);
    }
    if !plan.value.Upgrade? {
      return [], Pass;
    }
    var actions := Actions(p);
    done, err := Execute(actions, fails);
  }

  /** The temporary files written from the install secret: those that did not exist yet. */
  method CreatedFiles(p: UpgradeInputs) returns (created: seq<string>)
    ensures created ==
              (if p.secretsExisted then [] else [SecretsFile(p)])
              + (if p.adminExisted then [] else [AdminSecretsFile(p)])
              + (if p.configExisted then [] else [ConfigFile(p)])
  {
    created := [];
    if !p.secretsExisted {
      created := created + [SecretsFile(p)];
    }
    if !p.adminExisted {
      created := created + [AdminSecretsFile(p)];
    }
    if !p.configExisted {
      created := created + [ConfigFile(p)];
    }
  }

  /** The value files in the order helm applies them; the decrypted secrets replace the encrypted ones. */
  method ValueFiles(p: UpgradeInputs) returns (valueFiles: seq<string>)
    ensures valueFiles ==
              [CloudValuesFile(p), SecretsFile(p), AdminSecretsFile(p), ConfigFile(p),
               if p.sopsExists && p.decryptedExists then DecryptedSecretsFile(p) else CloudSecretsFile(p)]
              + (if p.myValues.Some? then [p.myValues.value] else [])
  {
    var cloudSecrets := CloudSecretsFile(p);
    if p.sopsExists && p.decryptedExists {
      cloudSecrets := DecryptedSecretsFile(p);
    }
    valueFiles := [CloudValuesFile(p), SecretsFile(p), AdminSecretsFile(p), ConfigFile(p), cloudSecrets];
    if p.myValues.Some? {
      valueFiles := valueFiles + [p.myValues.value];
    }
  }

  /** The files removed after the upgrade: the secrets file always, the config file only if Run created it. */
  method RemovedFiles(p: UpgradeInputs) returns (removed: seq<string>)
    ensures removed ==
              (if p.cleanupTempFiles then [SecretsFile(p)] + (if p.configExisted then [] else [ConfigFile(p)]) else [])
  {
    removed := [];
    if p.cleanupTempFiles {
      removed := removed + [SecretsFile(p)];
      if !p.configExisted {
        removed := removed + [ConfigFile(p)];
      }
    }
  }
}

module UpgradePlatformProperties {
  import opened Wrappers
  import opened Strings
  import opened UpgradePlatform

  /**
   * Run's decision in source order: the version errors, then the team
   * settings, second clone, environment directory, config dir and secret
   * lookup errors, all before the versions are compared; a lookup without a
   * secret ends the run without error; the same version without
   * --always-upgrade skips the upgrade.
   */
  lemma PlannedRules(p: UpgradeInputs)
    ensures p.targetVersion == "" && p.cloneError.Some? ==> Planned(p) == Err(p.cloneError.value)
    ensures p.targetVersion == "" && p.cloneError.None? && p.loadedVersion.Err? ==> Planned(p) == Err(p.loadedVersion.msg)
    ensures TargetKnown(p) && p.listCharts.Err? ==> Planned(p) == Err(p.listCharts.msg)
    ensures TargetKnown(p) && p.listCharts.Ok? && Installed(p) == "" ==> Planned(p) == Err(NotInstalled)
    ensures VersionsRead(p) && p.teamSettingsError.Some? ==> Planned(p) == Err(p.teamSettingsError.value)
    ensures VersionsRead(p) && p.teamSettingsError.None? && p.targetVersion != "" && p.cloneError.Some? ==>
              Planned(p) == Err(CloneFailed + p.cloneError.value)
    ensures VersionsRead(p) && p.teamSettingsError.None? && p.cloneError.None? && !p.wrkDirExists ==>
              Planned(p) == Err(EnvDirMissing(p))
    ensures VersionsRead(p) && p.teamSettingsError.None? && p.cloneError.None? && p.wrkDirExists && p.configDirError.Some? ==>
              Planned(p) == Err(ConfigDirFailed + p.configDirError.value)
    ensures VersionsRead(p) && Prepared(p) && p.secret.Err? ==> Planned(p) == Err(SecretLookupFailed + p.secret.msg)
    ensures VersionsRead(p) && Prepared(p) && p.secret == Ok(false) ==> Planned(p) == Ok(NoSecret)
    ensures VersionsRead(p) && Prepared(p) && p.secret == Ok(true) && Target(p) == Installed(p) && !p.alwaysUpgrade ==>
              Planned(p) == Ok(AlreadyInstalled)
    ensures VersionsRead(p) && Prepared(p) && p.secret == Ok(true) && (Target(p) != Installed(p) || p.alwaysUpgrade) ==>
              Planned(p) == Ok(UpgradePlan(p))
    ensures Planned(p).Ok? <==> VersionsRead(p) && Prepared(p) && p.secret.Ok?
  {
  }


  /** Every call of an upgrade is made exactly when none of them fails. */
  lemma {:induction false} CompletedAll(actions: seq<Action>, fails: Action -> Option<string>)
    ensures Completed(actions, fails) == |actions| <==> forall a :: a in actions ==> fails(a).None?
  {
    if actions != [] {
      CompletedAll(actions[1..], fails);
      assert forall a :: a in actions <==> a == actions[0] || a in actions[1..];
    }
  }

  /** A line that is not a platform row adds no version. */
  lemma OtherLinesIgnored(lines: seq<string>, line: string, chartPrefix: string)
    requires !PlatformRow(Split(line, '\t'))
    ensures ListedVersions(lines + [line], chartPrefix) == ListedVersions(lines, chartPrefix)
  {
    assert (lines + [line])[..|lines|] == lines;
  }

  /** A last line whose last field carries the prefix decides the version, whatever came before. */
  lemma LastMatchWins(lines: seq<string>, line: string, chartPrefix: string)
    requires PlatformRow(Split(line, '\t'))
    requires var fields := Split(line, '\t'); HasPrefix(TrimSpace(fields[|fields| - 1]), chartPrefix)
    ensures var fields := Split(line, '\t');
            LastOr(ListedVersions(lines + [line], chartPrefix), "") == TrimPrefix(TrimSpace(fields[|fields| - 1]), chartPrefix)
  {
    assert (lines + [line])[..|lines|] == lines;
    var fields := Split(line, '\t');
    var rest := fields[4..];
    assert rest[|rest| - 1] == fields[|fields| - 1];
  }

  /**
   * `line` is a platform row and its field `4 + j` (counting from 0) carries
   * the chart prefix, with `v` what follows the prefix once trimmed.
   */
  predicate Carries(line: string, j: nat, chartPrefix: string, v: string)
  {
    var fields := Split(line, '\t');
    PlatformRow(fields) && j < |fields[4..]| && v in FieldVersion(fields[4..][j], chartPrefix)
  }

  /** Every version found is carried by field `j` of line `i`. */
  lemma {:induction false} ListedVersionsSound(lines: seq<string>, chartPrefix: string, k: nat) returns (i: nat, j: nat)
    requires k < |ListedVersions(lines, chartPrefix)|
    ensures i < |lines| && Carries(lines[i], j, chartPrefix, ListedVersions(lines, chartPrefix)[k])
  {
    var front := lines[..|lines| - 1];
    var last := lines[|lines| - 1];
    var a, b := ListedVersions(front, chartPrefix), LineVersions(last, chartPrefix);
    assert ListedVersions(lines, chartPrefix) == a + b;
    if k < |a| {
      i, j := ListedVersionsSound(front, chartPrefix, k);
      assert front[i] == lines[i];
      assert (a + b)[k] == a[k];
    } else {
      i := |lines| - 1;
      j := LastRowCarries(last, chartPrefix, k - |a|);
      assert (a + b)[k] == b[k - |a|];
    }
  }

  lemma LastRowCarries(line: string, chartPrefix: string, m: nat) returns (j: nat)
    requires m < |LineVersions(line, chartPrefix)|
    ensures Carries(line, j, chartPrefix, LineVersions(line, chartPrefix)[m])
  {
    RowVersions(line, chartPrefix, m);
    j := FieldVersionsSound(Split(line, '\t')[4..], chartPrefix, m);
  }

  lemma RowVersions(line: string, chartPrefix: string, m: nat)
    requires m < |LineVersions(line, chartPrefix)|
    ensures PlatformRow(Split(line, '\t'))
    ensures LineVersions(line, chartPrefix) == FieldVersions(Split(line, '\t')[4..], chartPrefix)
  {
  }

  lemma {:induction false} FieldVersionsSound(fields: seq<string>, chartPrefix: string, m: nat) returns (j: nat)
    requires m < |FieldVersions(fields, chartPrefix)|
    ensures j < |fields| && FieldVersions(fields, chartPrefix)[m] in FieldVersion(fields[j], chartPrefix)
  {
    var front := fields[..|fields| - 1];
    if m < |FieldVersions(front, chartPrefix)| {
      j := FieldVersionsSound(front, chartPrefix, m);
      assert front[j] == fields[j];
    } else {
      j := |fields| - 1;
    }
  }
}
