/**
 * Vault resources (pkg/vault/vault.go): the derived names, the resource
 * CreateVault submits to the vault operator, and the summary GetVaults builds
 * for each listed vault. The operator and Kubernetes clients are results
 * passed in.
 */
module Vault {
  import opened Wrappers
  import opened Strings

  const DefaultNumVaults := 2
  const VaultImage := "vault:0.11.2"
  const BankVaultsImage := "banzaicloud/bank-vaults:latest"
  const GcpServiceAccountEnv := "GOOGLE_APPLICATION_CREDENTIALS"
  const GcpServiceAccountPath := "/etc/gcp/service-account.json"
  const VaultAuthType := "kubernetes"
  const VaultAuthTTL := "1h"
  const VaultAuthSaSuffix := "auth-sa"

  /** The details GetVaults reports for a vault. */
  datatype Vault = Vault(name: string, namespace: string, url: string, authServiceAccountName: string)

  datatype GCPConfig = GCPConfig(projectId: string, kmsKeyring: string, kmsKey: string, kmsLocation: string, gcsBucket: string)

  /** VaultGcpServiceAccountSecretName. */
  function GcpServiceAccountSecretName(vaultName: string): (r: string)
    ensures HasPrefix(r, vaultName) && HasSuffix(r, "-gcp-sa") && |r| == |vaultName| + 7
  {
    vaultName + "-gcp-sa"
  }

  /** VaultAuthServiceAccountName: "<name>-auth-sa". */
  function AuthServiceAccountName(vaultName: string): (r: string)
    ensures HasPrefix(r, vaultName) && HasSuffix(r, "-auth-sa") && |r| == |vaultName| + 8
  {
    vaultName + "-" + VaultAuthSaSuffix
  }

  /** The auth role of the external configuration. */
  datatype VaultRole = VaultRole(boundServiceAccountNames: string, boundServiceAccountNamespaces: string,
                                 name: string, policies: string, ttl: string)

  /** The parts of the v1alpha1.Vault resource that depend on the inputs, plus its fixed sizes and images. */
  datatype VaultResource = VaultResource(
    name: string, namespace: string, size: nat, image: string, bankVaultsImage: string,
    apiAddr: string, storageBucket: string, role: VaultRole, authType: string,
    policyName: string, policyRules: string, unseal: GCPConfig,
    credentialsEnv: string, credentialsPath: string, credentialsSecretName: string)

  function ApiAddr(name: string, ns: string): string
  {
    "http://" + name + "." + ns + ":8200"
  }

  /** The secrets path prefix the policy grants, defaulted when empty. */
  function SecretsPrefix(secretsPathPrefix: string, defaultPrefix: string): (r: string)
    ensures secretsPathPrefix != "" ==> r == secretsPathPrefix
    ensures secretsPathPrefix == "" ==> r == defaultPrefix
  {
    if secretsPathPrefix == "" then defaultPrefix else secretsPathPrefix
  }

  /**
   * CreateVault. `encodeRule` stands for PathRule.String on the rule for a
   * prefix, `create` for the operator's Create call, and `defaultPrefix`,
   * `pathRulesName` for DefaultSecretsPathPrefix and PathRulesName. The
   * second component is the resource submitted, if any.
   */
  function CreateVault(name: string, ns: string, gcpServiceAccountSecretName: string, gcp: GCPConfig,
                       authServiceAccount: string, authServiceAccountNamespace: string, secretsPathPrefix: string,
                       defaultPrefix: string, pathRulesName: string,
                       encodeRule: string -> Result<string>, create: VaultResource -> Outcome): (r: (Outcome, Option<VaultResource>))
    ensures var prefix := SecretsPrefix(secretsPathPrefix, defaultPrefix);
            encodeRule(prefix).Err? ==> r == (Fail("encoding the polcies for secret path: " + encodeRule(prefix).msg), None)
    ensures r.1.Some? ==> r.0 == create(r.1.value)
  {
    var prefix := SecretsPrefix(secretsPathPrefix, defaultPrefix);
    var rule := encodeRule(prefix);
    if rule.Err? then (Fail("encoding the polcies for secret path: " + rule.msg), None)
    else
      var role := VaultRole(authServiceAccount, authServiceAccountNamespace, authServiceAccount, pathRulesName, VaultAuthTTL);
      var v := VaultResource(name, ns, DefaultNumVaults, VaultImage, BankVaultsImage, ApiAddr(name, ns), gcp.gcsBucket,
                             role, VaultAuthType, pathRulesName, rule.value, gcp,
                             GcpServiceAccountEnv, GcpServiceAccountPath, gcpServiceAccountSecretName);
      (create(v), Some(v))
  }

  /** The summary of one listed vault, with "" as URL when the service lookup fails. */
  function VaultOf(vaultName: string, ns: string, findURL: string -> Result<string>): Vault
  {
    var url := findURL(vaultName);
    Vault(vaultName, ns, if url.Ok? then url.value else "", AuthServiceAccountName(vaultName))
  }

  /**
   * GetVaults. `listed` is the operator's list of vault names in `ns`,
   * `findURL` services.FindServiceURL in that namespace.
   */
  method GetVaults(ns: string, listed: Result<seq<string>>, findURL: string -> Result<string>) returns (r: Result<seq<Vault>>)
    ensures listed.Err? ==> r == Err("listing vaults in namespace '" + ns + "': " + listed.msg)
    ensures listed.Ok? ==> r.Ok? && |r.value| == |listed.value|
    ensures listed.Ok? ==> forall i :: 0 <= i < |listed.value| ==> r.value[i] == VaultOf(listed.value[i], ns, findURL)
  {
    if listed.Err? {
      return Err("listing vaults in namespace '" + ns + "': " + listed.msg);
    }
    var items := listed.value;
    var vaults: seq<Vault> := [];
    var i := 0;
    while i < |items|
      invariant 0 <= i <= |items|
      invariant |vaults| == i
      invariant forall k :: 0 <= k < i ==> vaults[k] == VaultOf(items[k], ns, findURL)
    {
      var vaultName := items[i];
      var saName := AuthServiceAccountName(vaultName);
      var found := findURL(vaultName);
      var url := "";
      if found.Ok? {
        url := found.value;
      }
      vaults := vaults + [Vault(vaultName, ns, url, saName)];
      i := i + 1;
    }
    return Ok(vaults);
  }
}

module VaultProperties {
  import opened Wrappers
  import opened Strings
  import opened Vault

  /** The resource CreateVault submits: two instances, the fixed images, and the api address built from name and namespace. */
  lemma CreatedResource(name: string, ns: string, saSecret: string, gcp: GCPConfig, authSA: string, authNS: string,
                        prefix: string, defaultPrefix: string, pathRulesName: string,
                        encodeRule: string -> Result<string>, create: VaultResource -> Outcome)
    requires encodeRule(SecretsPrefix(prefix, defaultPrefix)).Ok?
    ensures var r := CreateVault(name, ns, saSecret, gcp, authSA, authNS, prefix, defaultPrefix, pathRulesName, encodeRule, create);
            r.1.Some? && r.0 == create(r.1.value) &&
            var v := r.1.value;
            v.name == name && v.namespace == ns && v.size == 2 &&
            v.apiAddr == "http://" + name + "." + ns + ":8200" &&
            v.storageBucket == gcp.gcsBucket && v.unseal == gcp && v.credentialsSecretName == saSecret &&
            v.role.name == authSA && v.role.boundServiceAccountNames == authSA && v.role.boundServiceAccountNamespaces == authNS &&
            v.policyRules == encodeRule(SecretsPrefix(prefix, defaultPrefix)).value
  {
  }

  /** The policy is encoded for the given prefix, or for the default one when it is empty. */
  lemma EmptyPrefixDefaults(name: string, ns: string, saSecret: string, gcp: GCPConfig, authSA: string, authNS: string,
                            defaultPrefix: string, pathRulesName: string,
                            encodeRule: string -> Result<string>, create: VaultResource -> Outcome)
    ensures CreateVault(name, ns, saSecret, gcp, authSA, authNS, "", defaultPrefix, pathRulesName, encodeRule, create) ==
            CreateVault(name, ns, saSecret, gcp, authSA, authNS, defaultPrefix, defaultPrefix, pathRulesName, encodeRule, create)
  {
  }

  /** A listed vault keeps its name, is reported in the listing's namespace, and gets the derived auth service account. */
  lemma VaultOfFields(vaultName: string, ns: string, findURL: string -> Result<string>)
    ensures var v := VaultOf(vaultName, ns, findURL);
            v.name == vaultName && v.namespace == ns && v.authServiceAccountName == vaultName + "-auth-sa" &&
            (findURL(vaultName).Err? ==> v.url == "") &&
            (findURL(vaultName).Ok? ==> v.url == findURL(vaultName).value)
  {
  }

  /** The service account of the vault "myVault" is "myVault-auth-sa". */
  lemma AuthNameExample()
    ensures AuthServiceAccountName("myVault") == "myVault-auth-sa"
  {
  }

  /** The name builders never collide for one vault name. */
  lemma DerivedNamesDiffer(vaultName: string)
    ensures GcpServiceAccountSecretName(vaultName) != AuthServiceAccountName(vaultName)
  {
    var a := GcpServiceAccountSecretName(vaultName);
    var b := AuthServiceAccountName(vaultName);
    assert a[|vaultName| + 1] == 'g' && b[|vaultName| + 1] == 'a';
  }
}
