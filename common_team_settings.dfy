/**
 * The team settings helpers of pkg/jx/cmd/common_team_settings.go: loading
 * the dev environment's settings with their build pack defaults, and the
 * branch patterns and helm binary derived from them. The jx client, the CRD
 * registration and the dev environment lookup are results passed in;
 * JenkinsBuildPackURL and the two default branch patterns are declared
 * elsewhere in the package and are parameters here.
 */
module CommonTeamSettings {
  import opened Wrappers

  const DefaultBuildPackRef := "2.1"
  const DefaultHelmBin := "helm"

  /** The fields of v1.TeamSettings the helpers read or default. */
  datatype Settings = Settings(buildPackURL: string, buildPackRef: string, branchPatterns: string,
                               forkBranchPatterns: string, helmBinary: string)

  /** The settings once TeamSettings has filled in the build pack defaults. */
  function WithDefaults(s: Settings, jenkinsBuildPackURL: string): (r: Settings)
    ensures r.buildPackURL == (if s.buildPackURL == "" then jenkinsBuildPackURL else s.buildPackURL)
    ensures r.buildPackRef == (if s.buildPackRef == "" then DefaultBuildPackRef else s.buildPackRef)
    ensures r.branchPatterns == s.branchPatterns && r.forkBranchPatterns == s.forkBranchPatterns
    ensures r.helmBinary == s.helmBinary
  {
    var s := if s.buildPackURL == "" then s.(buildPackURL := jenkinsBuildPackURL) else s;
    if s.buildPackRef == "" then s.(buildPackRef := DefaultBuildPackRef) else s
  }

  /** env.Spec.TeamSettings of the dev environment, which TeamSettings changes in place. */
  class TeamSettings {
    var buildPackURL: string
    var buildPackRef: string
    var branchPatterns: string
    var forkBranchPatterns: string
    var helmBinary: string

    constructor (s: Settings)
      ensures Snapshot() == s
    {
      buildPackURL := s.buildPackURL;
      buildPackRef := s.buildPackRef;
      branchPatterns := s.branchPatterns;
      forkBranchPatterns := s.forkBranchPatterns;
      helmBinary := s.helmBinary;
    }

    function Snapshot(): Settings
      reads this
    {
      Settings(buildPackURL, buildPackRef, branchPatterns, forkBranchPatterns, helmBinary)
    }

    /** The two defaulting assignments of TeamSettings. */
    method ApplyDefaults(jenkinsBuildPackURL: string)
      modifies this
      ensures Snapshot() == WithDefaults(old(Snapshot()), jenkinsBuildPackURL)
    {
      if buildPackURL == "" {
        buildPackURL := jenkinsBuildPackURL;
      }
      if buildPackRef == "" {
        buildPackRef := DefaultBuildPackRef;
      }
    }
  }

  /**
   * TeamSettings. `client` is JXClientAndDevNamespace (the dev namespace),
   * `registered` registerEnvironmentCRD and `devEnv` EnsureDevEnvironmentSetup
   * (None for a nil environment), which yields the environment's settings.
   */
  method LoadTeamSettings(client: Result<string>, registered: Outcome, devEnv: Result<Option<TeamSettings>>,
                          jenkinsBuildPackURL: string) returns (r: Result<TeamSettings>)
    modifies if devEnv.Ok? && devEnv.value.Some? then {devEnv.value.value} else {}
    ensures client.Err? ==> r == Err(client.msg)
    ensures client.Ok? && registered.Fail? ==> r == Err("Failed to register Environment CRD: " + registered.msg)
    ensures client.Ok? && registered.Pass? && devEnv.Err? ==>
              r == Err("Failed to setup dev Environment in namespace " + client.value + ": " + devEnv.msg)
    ensures client.Ok? && registered.Pass? && devEnv.Ok? && devEnv.value.None? ==>
              r == Err("No Development environment found for namespace " + client.value)
    ensures client.Ok? && registered.Pass? && devEnv.Ok? && devEnv.value.Some? ==>
              r == Ok(devEnv.value.value) &&
              devEnv.value.value.Snapshot() == WithDefaults(old(devEnv.value.value.Snapshot()), jenkinsBuildPackURL)
    ensures r.Err? && devEnv.Ok? && devEnv.value.Some? ==> unchanged(devEnv.value.value)
  {
    if client.Err? {
      return Err(client.msg);
    }
    var ns := client.value;
    if registered.Fail? {
      return Err("Failed to register Environment CRD: " + registered.msg);
    }
    if devEnv.Err? {
      return Err("Failed to setup dev Environment in namespace " + ns + ": " + devEnv.msg);
    }
    if devEnv.value.None? {
      return Err("No Development environment found for namespace " + ns);
    }
    var teamSettings := devEnv.value.value;
    teamSettings.ApplyDefaults(jenkinsBuildPackURL);
    return Ok(teamSettings);
  }

  datatype BranchPatterns = BranchPatterns(defaultBranchPattern: string, forkBranchPattern: string)

  /** TeamBranchPatterns, given what TeamSettings returned. Each pattern is defaulted on its own. */
  method TeamBranchPatterns(settings: Result<Settings>, defaultBranchPatterns: string, defaultForkBranchPatterns: string)
    returns (r: Result<BranchPatterns>)
    ensures settings.Err? ==> r == Err(settings.msg)
    ensures settings.Ok? ==> r.Ok?
    ensures settings.Ok? && settings.value.branchPatterns != "" ==> r.value.defaultBranchPattern == settings.value.branchPatterns
    ensures settings.Ok? && settings.value.branchPatterns == "" ==> r.value.defaultBranchPattern == defaultBranchPatterns
    ensures settings.Ok? && settings.value.forkBranchPatterns != "" ==> r.value.forkBranchPattern == settings.value.forkBranchPatterns
    ensures settings.Ok? && settings.value.forkBranchPatterns == "" ==> r.value.forkBranchPattern == defaultForkBranchPatterns
  {
    if settings.Err? {
      return Err(settings.msg);
    }
    var branchPatterns := settings.value.branchPatterns;
    if branchPatterns == "" {
      branchPatterns := defaultBranchPatterns;
    }
    var forkBranchPatterns := settings.value.forkBranchPatterns;
    if forkBranchPatterns == "" {
      forkBranchPatterns := defaultForkBranchPatterns;
    }
    return Ok(BranchPatterns(branchPatterns, forkBranchPatterns));
  }

  /** TeamHelmBin: the helm binary with the error of loading the settings, if any. */
  method TeamHelmBin(settings: Result<Settings>) returns (helmBin: string, err: Outcome)
    ensures settings.Err? ==> helmBin == DefaultHelmBin && err == Fail(settings.msg)
    ensures settings.Ok? ==> err == Pass
    ensures settings.Ok? && settings.value.helmBinary != "" ==> helmBin == settings.value.helmBinary
    ensures settings.Ok? && settings.value.helmBinary == "" ==> helmBin == DefaultHelmBin
    ensures helmBin != ""
  {
    helmBin := DefaultHelmBin;
    if settings.Err? {
      return helmBin, Fail(settings.msg);
    }
    helmBin := settings.value.helmBinary;
    if helmBin == "" {
      helmBin := DefaultHelmBin;
    }
    return helmBin, Pass;
  }
}

module CommonTeamSettingsProperties {
  import opened CommonTeamSettings

  /** Applying the defaults twice is applying them once. */
  lemma DefaultsIdempotent(s: Settings, url: string)
    ensures WithDefaults(WithDefaults(s, url), url) == WithDefaults(s, url)
  {
  }

  /** With a non-empty JenkinsBuildPackURL, the settings always name a build pack and a ref. */
  lemma DefaultsFillBuildPack(s: Settings, url: string)
    requires url != ""
    ensures WithDefaults(s, url).buildPackURL != "" && WithDefaults(s, url).buildPackRef != ""
  {
  }

  /** Settings that already name a build pack are left as they were. */
  lemma DefaultsKeepConfigured(s: Settings, url: string)
    requires s.buildPackURL != "" && s.buildPackRef != ""
    ensures WithDefaults(s, url) == s
  {
  }
}
