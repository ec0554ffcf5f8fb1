/**
 * `jx step verify environments` (pkg/cmd/step/verify/step_verify_environments.go):
 * which environments get their git repository validated, the process
 * environment it reads, the GIT_AUTHOR_* entries it adds to the release
 * pipeline, and the exposecontroller helm values it derives per environment.
 * Kubernetes, git and file access are results passed in.
 */
module StepVerifyEnvironments {
  import opened Wrappers
  import opened Strings

  // ---------------------------------------------------------------------------
  // Choosing the environments to validate (Run)
  // ---------------------------------------------------------------------------

  /** v1.EnvironmentKindType: only Permanent and Development matter here. */
  datatype EnvironmentKind = Permanent | Development | OtherKind(kind: string)

  datatype Environment = Environment(name: string, kind: EnvironmentKind, sourceURL: string)

  /** The test inside Run's loop deciding whether an environment's repository is validated. */
  predicate Validated(env: Environment, gitOps: bool)
  {
    env.sourceURL != "" && (env.kind == Permanent || (env.kind == Development && gitOps))
  }

  /** The environments Run validates, in the order of `names`. */
  function ToValidate(envs: seq<Environment>, gitOps: bool): (r: seq<Environment>)
    ensures |r| <= |envs|
  {
    if envs == [] then []
    else
      var rest := ToValidate(envs[..|envs| - 1], gitOps);
      var e := envs[|envs| - 1];
      if Validated(e, gitOps) then rest + [e] else rest
  }

  function LoadError(ns: string, msg: string): Outcome
  {
    Fail("failed to load Environments in namespace " + ns + ": " + msg)
  }

  const StoreErrorText := "there was a problem saving the current state of the requirements.yaml file in TeamSettings in the dev environment"

  /**
   * Run after the client and the requirements are loaded: validates the
   * chosen environments in order, stopping at the first failure, then stores
   * the requirements in the team settings. `validate` stands for
   * validateGitRepository and `store` for storeRequirementsInTeamSettings'
   * ModifyDevEnvironment call.
   */
  method Run(ns: string, envs: Result<seq<Environment>>, gitOps: bool, validate: Environment -> Outcome, store: Outcome)
    returns (err: Outcome, validated: seq<Environment>)
    ensures envs.Err? ==> err == LoadError(ns, envs.msg) && validated == []
    ensures envs.Ok? ==> validated <= ToValidate(envs.value, gitOps)
    ensures envs.Ok? ==> forall k :: 0 <= k < |validated| - 1 ==> validate(validated[k]).Pass?
    ensures envs.Ok? && validated != [] && validate(validated[|validated| - 1]).Fail? ==>
              err == validate(validated[|validated| - 1])
    ensures envs.Ok? && AllPass(validated, validate) ==>
              validated == ToValidate(envs.value, gitOps) &&
              err == (if store.Pass? then Pass else Fail(StoreErrorText + ": " + store.msg))
  {
    if envs.Err? {
      return LoadError(ns, envs.msg), [];
    }
    var failed;
    failed, validated := ValidateAll(envs.value, gitOps, validate);
    if failed.Fail? {
      return failed, validated;
    }
    if store.Fail? {
      return Fail(StoreErrorText + ": " + store.msg), validated;
    }
    err := Pass;
  }

  predicate AllPass(envs: seq<Environment>, validate: Environment -> Outcome)
  {
    forall k :: 0 <= k < |envs| ==> validate(envs[k]).Pass?
  }

  /** Run's loop over the environment names. */
  method ValidateAll(names: seq<Environment>, gitOps: bool, validate: Environment -> Outcome)
    returns (err: Outcome, validated: seq<Environment>)
    ensures validated <= ToValidate(names, gitOps)
    ensures forall k :: 0 <= k < |validated| - 1 ==> validate(validated[k]).Pass?
    ensures err.Fail? ==> |validated| > 0 && err == validate(validated[|validated| - 1])
    ensures err.Pass? ==> validated == ToValidate(names, gitOps) && AllPass(validated, validate)
  {
    validated := [];
    err := Pass;
    var i := 0;
    while i < |names|
      invariant 0 <= i <= |names|
      invariant validated == ToValidate(names[..i], gitOps)
      invariant AllPass(validated, validate) && err.Pass?
    {
      var env := names[i];
      ToValidateSnoc(names, i, gitOps);
      if Validated(env, gitOps) {
        var before := validated;
        validated := validated + [env];
        err := validate(env);
        if err.Fail? {
          ToValidatePrefix(names, i + 1, gitOps);
          AllPassBeforeLast(before, env, validate);
          return;
        }
        AllPassSnoc(before, env, validate);
      }
      i := i + 1;
    }
    assert names[..i] == names;
  }

  lemma AllPassSnoc(envs: seq<Environment>, env: Environment, validate: Environment -> Outcome)
    requires AllPass(envs, validate) && validate(env).Pass?
    ensures AllPass(envs + [env], validate)
  {
  }

  lemma AllPassBeforeLast(envs: seq<Environment>, env: Environment, validate: Environment -> Outcome)
    requires AllPass(envs, validate)
    ensures forall k :: 0 <= k < |envs + [env]| - 1 ==> validate((envs + [env])[k]).Pass?
  {
  }

  /** One more environment adds its validation, when it is validated at all. */
  lemma ToValidateSnoc(envs: seq<Environment>, i: nat, gitOps: bool)
    requires i < |envs|
    ensures ToValidate(envs[..i + 1], gitOps) ==
              if Validated(envs[i], gitOps) then ToValidate(envs[..i], gitOps) + [envs[i]] else ToValidate(envs[..i], gitOps)
  {
    assert envs[..i + 1][..i] == envs[..i];
  }

  /** The validations of a prefix of the environments are a prefix of all validations. */
  lemma {:induction false} ToValidatePrefix(envs: seq<Environment>, k: nat, gitOps: bool)
    requires k <= |envs|
    ensures ToValidate(envs[..k], gitOps) <= ToValidate(envs, gitOps)
    decreases |envs| - k
  {
    if k < |envs| {
      ToValidatePrefix(envs[..|envs| - 1], k, gitOps);
      assert envs[..|envs| - 1][..k] == envs[..k];
    } else {
      assert envs[..k] == envs;
    }
  }

  // ---------------------------------------------------------------------------
  // readEnvironment
  // ---------------------------------------------------------------------------

  const ConfigRepoURLEnvKey := "REPO_URL"
  const ConfigRepoRefEnvKey := "BASE_CONFIG_REF"

  function MustBeSpecified(key: string): string
  {
    "the environment variable " + key + " must be specified"
  }

  /**
   * readEnvironment, with os.LookupEnv as `lookup`. The third component lists
   * the two possible errors in order; util.CombineErrors gives nil exactly
   * when it is empty.
   */
  function ReadEnvironment(lookup: string -> Option<string>): (r: (string, string, seq<string>))
    ensures r.2 == [] <==> lookup(ConfigRepoURLEnvKey).Some? && lookup(ConfigRepoRefEnvKey).Some?
    ensures MustBeSpecified(ConfigRepoURLEnvKey) in r.2 <==> lookup(ConfigRepoURLEnvKey).None?
    ensures MustBeSpecified(ConfigRepoRefEnvKey) in r.2 <==> lookup(ConfigRepoRefEnvKey).None?
    ensures r.0 == lookup(ConfigRepoURLEnvKey).GetOr("") && r.1 == lookup(ConfigRepoRefEnvKey).GetOr("")
    ensures |r.2| <= 2 && (|r.2| == 2 ==> r.2[0] == MustBeSpecified(ConfigRepoURLEnvKey))
  {
    var url := lookup(ConfigRepoURLEnvKey);
    var ref := lookup(ConfigRepoRefEnvKey);
    var urlErr := if url.None? then [MustBeSpecified(ConfigRepoURLEnvKey)] else [];
    var refErr := if ref.None? then [MustBeSpecified(ConfigRepoRefEnvKey)] else [];
    assert MustBeSpecified(ConfigRepoURLEnvKey) != MustBeSpecified(ConfigRepoRefEnvKey) by {
      assert MustBeSpecified(ConfigRepoURLEnvKey)[25] != MustBeSpecified(ConfigRepoRefEnvKey)[25];
    }
    (url.GetOr(""), ref.GetOr(""), urlErr + refErr)
  }

  // ---------------------------------------------------------------------------
  // modifyPipelineGitEnvVars
  // ---------------------------------------------------------------------------

  datatype EnvVar = EnvVar(name: string, value: string)

  const GitAuthorName := "GIT_AUTHOR_NAME"
  const GitAuthorEmail := "GIT_AUTHOR_EMAIL"

  /** envVarsHasEntry: some entry is named `key`. */
  predicate HasEntry(envVars: seq<EnvVar>, key: string)
    ensures HasEntry(envVars, key) <==> exists i :: 0 <= i < |envVars| && envVars[i].name == key
  {
    if envVars == [] then false
    else envVars[0].name == key || HasEntry(envVars[1..], key)
  }

  function AddIfAbsent(envVars: seq<EnvVar>, key: string, value: string): (r: seq<EnvVar>)
    ensures envVars <= r && HasEntry(r, key)
    ensures forall k :: HasEntry(envVars, k) ==> HasEntry(r, k)
  {
    if HasEntry(envVars, key) then envVars
    else
      var r := envVars + [EnvVar(key, value)];
      assert r[|envVars|].name == key;
      assert forall i :: 0 <= i < |envVars| ==> r[i] == envVars[i];
      r
  }

  /** The release pipeline's environment after the two guarded appends. */
  function WithGitAuthor(envVars: seq<EnvVar>, username: string, email: string): (r: seq<EnvVar>)
    ensures envVars <= r && |r| <= |envVars| + 2
    ensures HasEntry(r, GitAuthorName) && HasEntry(r, GitAuthorEmail)
    ensures HasEntry(envVars, GitAuthorName) && HasEntry(envVars, GitAuthorEmail) ==> r == envVars
  {
    AddIfAbsent(AddIfAbsent(envVars, GitAuthorName, username), GitAuthorEmail, email)
  }

  /** What the step writes: the project file's new pipeline environment, if any is saved. */
  datatype GitEnvOutcome = GitEnvOutcome(err: Outcome, saved: Option<seq<EnvVar>>)

  /**
   * modifyPipelineGitEnvVars. `params` is the pipeline user's (username,
   * email) read from the parameters values file, `project` the release
   * pipeline environment of the loaded project config, `save` the result of
   * writing the project config back.
   */
  method ModifyPipelineGitEnvVars(fileName: string, params: Result<(string, string)>, project: Result<seq<EnvVar>>,
                                  save: seq<EnvVar> -> Outcome)
    returns (r: GitEnvOutcome)
    ensures params.Err? ==> r == GitEnvOutcome(Fail("failed to load parameters values file: " + params.msg), None)
    ensures params.Ok? && (params.value.0 == "" || params.value.1 == "") ==> r == GitEnvOutcome(Pass, None)
    ensures params.Ok? && params.value.0 != "" && params.value.1 != "" && project.Err? ==>
              r == GitEnvOutcome(Fail("failed to load project config file " + fileName + ": " + project.msg), None)
    ensures params.Ok? && params.value.0 != "" && params.value.1 != "" && project.Ok? ==>
              var written := WithGitAuthor(project.value, params.value.0, params.value.1);
              r.saved == Some(written) &&
              r.err == (if save(written).Pass? then Pass else Fail("failed to write to " + fileName + ": " + save(written).msg))
  {
    if params.Err? {
      return GitEnvOutcome(Fail("failed to load parameters values file: " + params.msg), None);
    }
    var username := params.value.0;
    var email := params.value.1;
    if username != "" && email != "" {
      if project.Err? {
        return GitEnvOutcome(Fail("failed to load project config file " + fileName + ": " + project.msg), None);
      }
      var envVars := project.value;
      if !HasEntry(envVars, GitAuthorName) {
        envVars := envVars + [EnvVar(GitAuthorName, username)];
      }
      if !HasEntry(envVars, GitAuthorEmail) {
        envVars := envVars + [EnvVar(GitAuthorEmail, email)];
      }
      var saved := save(envVars);
      if saved.Fail? {
        return GitEnvOutcome(Fail("failed to write to " + fileName + ": " + saved.msg), Some(envVars));
      }
      return GitEnvOutcome(Pass, Some(envVars));
    }
    return GitEnvOutcome(Pass, None);
  }

  // ---------------------------------------------------------------------------
  // createEnvironmentHelmValues
  // ---------------------------------------------------------------------------

  datatype TLSConfig = TLSConfig(enabled: bool, production: bool)
  datatype Requirements = Requirements(domain: string, tls: TLSConfig)
  /** The environment's own entry of the requirements: only its ingress domain is used. */
  datatype EnvironmentConfig = EnvironmentConfig(domain: string)

  datatype ExposeControllerConfig = ExposeControllerConfig(
    domain: string, exposer: string, http: string, tlsAcme: string, urlTemplate: string, tlsSecretName: string)
  datatype ExposeController = ExposeController(config: ExposeControllerConfig, production: bool)
  /** config.HelmValuesConfig: the zero value has no exposecontroller section. */
  datatype HelmValuesConfig = HelmValuesConfig(exposeController: Option<ExposeController>)

  function LookupError(name: string, msg: string): Outcome
  {
    Fail("looking the configuration of environment \"" + name + "\" in the requirements configuration: " + msg)
  }

  function SecretName(domain: string, production: bool): string
  {
    "tls-" + domain + (if production then "-p" else "-s")
  }

  /**
   * createEnvironmentHelmValues. `envCfg` is requirements.Environment(name):
   * an error, no entry (nil), or the entry. errors.Wrapf of a nil error is
   * nil, so a missing entry gives the empty values with no error.
   * `defaultURLTemplate` stands for config.ExposeDefaultURLTemplate.
   */
  function CreateEnvironmentHelmValues(req: Requirements, name: string, envCfg: Result<Option<EnvironmentConfig>>,
                                       defaultURLTemplate: string): (r: (HelmValuesConfig, Outcome))
    ensures envCfg.Err? ==> r == (HelmValuesConfig(None), LookupError(name, envCfg.msg))
    ensures envCfg == Ok(None) ==> r == (HelmValuesConfig(None), Pass)
    ensures envCfg.Ok? && envCfg.value.Some? ==> r.1 == Pass && r.0.exposeController.Some?
  {
    if envCfg.Err? then (HelmValuesConfig(None), LookupError(name, envCfg.msg))
    else if envCfg.value.None? then (HelmValuesConfig(None), Pass)
    else
      var domain := if envCfg.value.value.domain != "" then envCfg.value.value.domain else req.domain;
      var useHTTP := if req.tls.enabled then "false" else "true";
      var tlsAcme := if req.tls.enabled then "true" else "false";
      var secretName := SecretName(domain, req.tls.production);
      var tlsSecretName := if req.tls.enabled then ReplaceChar(secretName, '.', '-') else "";
      var config := ExposeControllerConfig(domain, "Ingress", useHTTP, tlsAcme, defaultURLTemplate, tlsSecretName);
      (HelmValuesConfig(Some(ExposeController(config, req.tls.production))), Pass)
  }
}

module StepVerifyEnvironmentsProperties {
  import opened Wrappers
  import opened Strings
  import opened StepVerifyEnvironments

  /** Only environments with a source URL are ever validated; Permanent ones always, Development ones under GitOps. */
  lemma ValidatedKinds(env: Environment, gitOps: bool)
    ensures env.sourceURL == "" ==> !Validated(env, gitOps)
    ensures env.sourceURL != "" && env.kind == Permanent ==> Validated(env, gitOps)
    ensures env.sourceURL != "" && env.kind == Development ==> (Validated(env, gitOps) <==> gitOps)
    ensures env.kind.OtherKind? ==> !Validated(env, gitOps)
  {
  }

  /** An environment is validated iff it is listed and passes the test. */
  lemma {:induction false} ToValidateMembers(envs: seq<Environment>, gitOps: bool, e: Environment)
    ensures e in ToValidate(envs, gitOps) <==> e in envs && Validated(e, gitOps)
  {
    if envs != [] {
      var init := envs[..|envs| - 1];
      ToValidateMembers(init, gitOps, e);
      assert envs == init + [envs[|envs| - 1]];
    }
  }

  /** The chosen environments keep their relative order: ToValidate is a filter. */
  lemma {:induction false} ToValidateAppend(a: seq<Environment>, b: seq<Environment>, gitOps: bool)
    ensures ToValidate(a + b, gitOps) == ToValidate(a, gitOps) + ToValidate(b, gitOps)
    decreases |b|
  {
    if b == [] {
      assert a + b == a;
    } else {
      var b' := b[..|b| - 1];
      assert (a + b)[..|a + b| - 1] == a + b';
      ToValidateAppend(a, b', gitOps);
    }
  }

  /** The entries the step adds: both GIT_AUTHOR_* names are present afterwards. */
  lemma GitAuthorPresent(envVars: seq<EnvVar>, username: string, email: string)
    ensures HasEntry(WithGitAuthor(envVars, username, email), GitAuthorName)
    ensures HasEntry(WithGitAuthor(envVars, username, email), GitAuthorEmail)
  {
    var once := AddIfAbsent(envVars, GitAuthorName, username);
    assert HasEntry(once, GitAuthorName) by {
      if !HasEntry(envVars, GitAuthorName) {
        assert once[|envVars|].name == GitAuthorName;
      }
    }
    var twice := AddIfAbsent(once, GitAuthorEmail, email);
    if !HasEntry(once, GitAuthorEmail) {
      assert twice[|once|].name == GitAuthorEmail;
      var i :| 0 <= i < |once| && once[i].name == GitAuthorName;
      assert twice[i].name == GitAuthorName;
    }
  }

  /** Existing entries are kept in place, and at most the two new ones follow, each with the given value. */
  lemma GitAuthorKeepsExisting(envVars: seq<EnvVar>, username: string, email: string)
    ensures var r := WithGitAuthor(envVars, username, email);
            envVars <= r && |r| <= |envVars| + 2
    ensures HasEntry(envVars, GitAuthorName) && HasEntry(envVars, GitAuthorEmail) ==>
              WithGitAuthor(envVars, username, email) == envVars
    ensures !HasEntry(envVars, GitAuthorName) && !HasEntry(envVars, GitAuthorEmail) ==>
              WithGitAuthor(envVars, username, email) == envVars + [EnvVar(GitAuthorName, username), EnvVar(GitAuthorEmail, email)]
  {
    if !HasEntry(envVars, GitAuthorName) && !HasEntry(envVars, GitAuthorEmail) {
      var once := envVars + [EnvVar(GitAuthorName, username)];
      assert once[..|envVars|] == envVars;
    }
  }

  /** Running the step a second time changes nothing. */
  lemma GitAuthorIdempotent(envVars: seq<EnvVar>, username: string, email: string)
    ensures var r := WithGitAuthor(envVars, username, email);
            WithGitAuthor(r, username, email) == r
  {
    GitAuthorPresent(envVars, username, email);
    GitAuthorKeepsExisting(WithGitAuthor(envVars, username, email), username, email);
  }

  /** The exposecontroller settings: domain choice, constant exposer and template, and the TLS switches. */
  lemma HelmValuesSettings(req: Requirements, name: string, ec: EnvironmentConfig, t: string)
    ensures var c := CreateEnvironmentHelmValues(req, name, Ok(Some(ec)), t).0.exposeController.value.config;
            c.domain == (if ec.domain != "" then ec.domain else req.domain) &&
            c.exposer == "Ingress" && c.urlTemplate == t &&
            (req.tls.enabled ==> c.http == "false" && c.tlsAcme == "true") &&
            (!req.tls.enabled ==> c.http == "true" && c.tlsAcme == "false")
  {
  }

  /** The TLS secret: named after the domain with "." turned into "-", set only with TLS on; Production follows the flag. */
  lemma HelmValuesSecret(req: Requirements, name: string, ec: EnvironmentConfig, t: string)
    ensures var x := CreateEnvironmentHelmValues(req, name, Ok(Some(ec)), t).0.exposeController.value;
            var domain := x.config.domain;
            x.production == req.tls.production &&
            (!req.tls.enabled ==> x.config.tlsSecretName == "") &&
            (req.tls.enabled ==>
               x.config.tlsSecretName == ReplaceChar(SecretName(domain, req.tls.production), '.', '-') &&
               '.' !in x.config.tlsSecretName)
  {
    var domain := if ec.domain != "" then ec.domain else req.domain;
    var s := ReplaceChar(SecretName(domain, req.tls.production), '.', '-');
    assert forall i :: 0 <= i < |s| ==> s[i] != '.';
  }

  /** The secret name: "tls-<domain>-p" in production, "tls-<domain>-s" otherwise. */
  lemma SecretNameShape(domain: string, production: bool)
    ensures HasPrefix(SecretName(domain, production), "tls-")
    ensures HasSuffix(SecretName(domain, production), if production then "-p" else "-s")
    ensures |SecretName(domain, production)| == |domain| + 6
  {
  }

  /** readEnvironment reports both missing variables, URL first. */
  lemma ReadEnvironmentBothMissing(lookup: string -> Option<string>)
    requires lookup(ConfigRepoURLEnvKey).None? && lookup(ConfigRepoRefEnvKey).None?
    ensures ReadEnvironment(lookup).2 == [MustBeSpecified(ConfigRepoURLEnvKey), MustBeSpecified(ConfigRepoRefEnvKey)]
  {
  }
}
