/**
 * The decisions of `jx create cluster gke terraform`
 * (pkg/jx/cmd/create_cluster_gke_terraform.go) that do not depend on the
 * terraform run itself: which Google project the cluster goes in, whether
 * the jx service account is created and given its roles, and the labels put
 * on the new cluster. Every gcloud call goes through a Runner (the
 * command line to its output or error) and is returned in order; the
 * prompts are oracle values. CLUSTER_LIST_HEADER is declared elsewhere in
 * the package and is a parameter; sanitizeLabel and the clock are outside
 * this model, so the sanitized user name and the timestamp are parameters.
 */
module CreateClusterGKETerraform {
  import opened Wrappers
  import opened Strings
  import opened Gcloud

  const RequiredServiceAccountRoles: seq<string> :=
    ["roles/compute.instanceAdmin.v1", "roles/iam.serviceAccountActor", "roles/container.clusterAdmin",
     "roles/container.admin", "roles/container.developer"]

  /** What `gcloud iam service-accounts list` prints when the account is missing. */
  const NoServiceAccounts := "Listed 0 items."
  const SetIamPolicy := "resourcemanager.projects.setIamPolicy"
  const MissingRoleMessage :=
    "User does not have the required role 'resourcemanager.projects.setIamPolicy' to configure a service account"

  const DeclinedMessage := "no google project to create cluster in, please manual create one and rerun this wizard"
  const NotImplementedMessage := "auto creating projects not yet implemented, please manually create one and rerun the wizard"
  const NoProjectMessage := "no Google Cloud Project to create cluster in, please manual create one and rerun this wizard"

  // ---------------------------------------------------------------------------
  // Google project
  // ---------------------------------------------------------------------------

  function ProjectsListCommand(): Command { GcloudCmd(["projects", "list"]) }
  function SetProjectCommand(projectId: string): Command { GcloudCmd(["config", "set", "project", projectId]) }

  /**
   * The loop of getGoogleProjectId over the listing: lines containing the
   * header are skipped, every other line gives its first field. A line with
   * no field makes `fields[0]` panic.
   */
  function ProjectIds(lines: seq<string>, header: string): (r: Result<seq<string>>)
    ensures r.Ok? ==> |r.value| <= |lines|
    ensures r.Ok? ==> forall i :: 0 <= i < |r.value| ==> r.value[i] != "" && NoSpace(r.value[i])
  {
    if lines == [] then Ok([])
    else
      var rest := ProjectIds(lines[..|lines| - 1], header);
      var l := lines[|lines| - 1];
      if rest.Err? then rest
      else if Contains(l, header) then rest
      else
        var fields := Fields(l);
        if fields == [] then Err(EmptyIndexPanic) else Ok(rest.value + [fields[0]])
  }

  /** The parsing loop, proved against ProjectIds. */
  method ParseProjects(lines: seq<string>, header: string) returns (r: Result<seq<string>>)
    ensures r == ProjectIds(lines, header)
  {
    var existingProjects: seq<string> := [];
    var i := 0;
    while i < |lines|
      invariant 0 <= i <= |lines|
      invariant ProjectIds(lines[..i], header) == Ok(existingProjects)
    {
      assert lines[..i + 1][..i] == lines[..i];
      var l := lines[i];
      if !Contains(l, header) {
        var fields := Fields(l);
        if fields == [] {
          ProjectIdsStaysFailed(lines, i + 1, header);
          return Err(EmptyIndexPanic);
        }
        existingProjects := existingProjects + [fields[0]];
      }
      i := i + 1;
    }
    assert lines[..i] == lines;
    r := Ok(existingProjects);
  }

  /** Once a prefix of the lines fails, so do all lines. */
  lemma {:induction false} ProjectIdsStaysFailed(lines: seq<string>, k: nat, header: string)
    requires k <= |lines|
    requires ProjectIds(lines[..k], header).Err?
    ensures ProjectIds(lines, header) == ProjectIds(lines[..k], header)
    decreases |lines| - k
  {
    if k < |lines| {
      assert lines[..k + 1][..k] == lines[..k];
      ProjectIdsStaysFailed(lines, k + 1, header);
    } else {
      assert lines[..k] == lines;
    }
  }

  /**
   * getGoogleProjectId. `confirm` answers the create-one-now question asked
   * when no project exists; `choose` is the selection among several.
   */
  method GetGoogleProjectId(gcloud: Runner, header: string, confirm: Result<bool>, choose: seq<string> -> Result<string>)
    returns (r: Result<string>, issued: seq<Command>)
    ensures issued == [ProjectsListCommand()]
    ensures var out := gcloud(ProjectsListCommand());
            (out.Err? ==> r == Err(out.msg)) &&
            (out.Ok? ==>
               var ids := ProjectIds(Split(out.value, '\n'), header);
               (ids.Err? ==> r == Err(ids.msg)) &&
               (ids.Ok? && |ids.value| == 0 ==>
                  r == Err(if confirm.Err? then confirm.msg else if confirm.value then NotImplementedMessage else DeclinedMessage)) &&
               (ids.Ok? && |ids.value| == 1 ==> r == Ok(ids.value[0])) &&
               (ids.Ok? && |ids.value| > 1 ==>
                  var picked := choose(ids.value);
                  (picked.Err? ==> r == Err(picked.msg)) &&
                  (picked.Ok? && picked.value == "" ==> r == Err(NoProjectMessage)) &&
                  (picked.Ok? && picked.value != "" ==> r == Ok(picked.value))))
    ensures r.Ok? ==> r.value != ""
  {
    issued := [ProjectsListCommand()];
    var out := gcloud(ProjectsListCommand());
    if out.Err? {
      return Err(out.msg), issued;
    }
    var parsed := ParseProjects(Split(out.value, '\n'), header);
    if parsed.Err? {
      return Err(parsed.msg), issued;
    }
    var existingProjects := parsed.value;
    var projectId := "";
    if |existingProjects| == 0 {
      if confirm.Err? {
        return Err(confirm.msg), issued;
      }
      if !confirm.value {
        return Err(DeclinedMessage), issued;
      }
      return Err(NotImplementedMessage), issued;
    } else if |existingProjects| == 1 {
      projectId := existingProjects[0];
    } else {
      var picked := choose(existingProjects);
      if picked.Err? {
        return Err(picked.msg), issued;
      }
      projectId := picked.value;
    }
    if projectId == "" {
      return Err(NoProjectMessage), issued;
    }
    return Ok(projectId), issued;
  }

  /**
   * The start of createClusterGKETerraform: the --project-id flag, else
   * getGoogleProjectId, then `gcloud config set project`.
   */
  method ResolveProjectId(projectFlag: string, gcloud: Runner, header: string, confirm: Result<bool>,
                          choose: seq<string> -> Result<string>)
    returns (r: Result<string>, issued: seq<Command>)
    ensures projectFlag != "" ==>
              issued == [SetProjectCommand(projectFlag)] &&
              r == (var setOut := gcloud(SetProjectCommand(projectFlag)); if setOut.Err? then Err(setOut.msg) else Ok(projectFlag))
    ensures projectFlag == "" ==> |issued| >= 1 && issued[0] == ProjectsListCommand()
    ensures projectFlag == "" && r.Ok? ==> issued == [ProjectsListCommand(), SetProjectCommand(r.value)]
    ensures r.Ok? ==> r.value != "" && issued[|issued| - 1] == SetProjectCommand(r.value)
  {
    var projectId := projectFlag;
    issued := [];
    if projectId == "" {
      var found;
      found, issued := GetGoogleProjectId(gcloud, header, confirm, choose);
      if found.Err? {
        return found, issued;
      }
      projectId := found.value;
    }
    issued := issued + [SetProjectCommand(projectId)];
    var setOut := gcloud(SetProjectCommand(projectId));
    if setOut.Err? {
      return Err(setOut.msg), issued;
    }
    r := Ok(projectId);
  }

  // ---------------------------------------------------------------------------
  // Service account
  // ---------------------------------------------------------------------------

  function ServiceAccountName(clusterName: string): (r: string)
    ensures HasPrefix(r, "jx-") && r[3..] == clusterName
  {
    "jx-" + clusterName
  }

  function ListServiceAccountsCommand(serviceAccount: string): Command
  {
    GcloudCmd(["iam", "service-accounts", "list", "--filter", serviceAccount])
  }

  function TestPermissionsCommand(projectId: string): Command
  {
    GcloudCmd(["iam", "list-testable-permissions", "//cloudresourcemanager.googleapis.com/projects/" + projectId,
               "--filter", SetIamPolicy])
  }

  function CreateServiceAccountCommand(serviceAccount: string): Command
  {
    GcloudCmd(["iam", "service-accounts", "create", serviceAccount])
  }

  function BindRoleCommand(serviceAccount: string, projectId: string, role: string): Command
  {
    GcloudCmd(["projects", "add-iam-policy-binding", projectId, "--member",
               "serviceAccount:" + ServiceAccountEmail(serviceAccount, projectId), "--role", role])
  }

  /** The role loop: one binding per role, in order, ending at the first error. */
  function BindRoles(serviceAccount: string, projectId: string, roles: seq<string>, gcloud: Runner): (r: (seq<Command>, Outcome))
    ensures |r.0| <= |roles|
    ensures forall i :: 0 <= i < |r.0| ==> r.0[i] == BindRoleCommand(serviceAccount, projectId, roles[i])
    ensures r.1.Pass? ==> |r.0| == |roles|
  {
    if roles == [] then ([], Pass)
    else
      var before := BindRoles(serviceAccount, projectId, roles[..|roles| - 1], gcloud);
      if before.1.Fail? then before
      else
        var c := BindRoleCommand(serviceAccount, projectId, roles[|roles| - 1]);
        var out := gcloud(c);
        (before.0 + [c], if out.Err? then Fail(out.msg) else Pass)
  }

  /** Once a binding fails, the later roles are not bound. */
  lemma {:induction false} BindRolesStaysFailed(serviceAccount: string, projectId: string, roles: seq<string>, k: nat,
                                                gcloud: Runner)
    requires k <= |roles|
    requires BindRoles(serviceAccount, projectId, roles[..k], gcloud).1.Fail?
    ensures BindRoles(serviceAccount, projectId, roles, gcloud) == BindRoles(serviceAccount, projectId, roles[..k], gcloud)
    decreases |roles| - k
  {
    if k < |roles| {
      assert roles[..k + 1][..k] == roles[..k];
      BindRolesStaysFailed(serviceAccount, projectId, roles, k + 1, gcloud);
    } else {
      assert roles[..k] == roles;
    }
  }

  /** The loop assigning the roles, proved against BindRoles. */
  method AssignRoles(serviceAccount: string, projectId: string, roles: seq<string>, gcloud: Runner)
    returns (issued: seq<Command>, err: Outcome)
    ensures (issued, err) == BindRoles(serviceAccount, projectId, roles, gcloud)
  {
    issued := [];
    err := Pass;
    var i := 0;
    while i < |roles|
      invariant 0 <= i <= |roles|
      invariant (issued, err) == BindRoles(serviceAccount, projectId, roles[..i], gcloud)
      invariant err.Pass?
    {
      assert roles[..i + 1][..i] == roles[..i];
      var c := BindRoleCommand(serviceAccount, projectId, roles[i]);
      issued := issued + [c];
      var out := gcloud(c);
      if out.Err? {
        err := Fail(out.msg);
        BindRolesStaysFailed(serviceAccount, projectId, roles, i + 1, gcloud);
        return;
      }
      i := i + 1;
    }
    assert roles[..i] == roles;
  }

  /**
   * The service account step of createClusterGKETerraform: the account is
   * created, and given the required roles, only when the listing reports no
   * such account and the caller may set IAM policy on the project.
   */
  method EnsureServiceAccount(clusterName: string, projectId: string, gcloud: Runner)
    returns (err: Outcome, issued: seq<Command>)
    ensures var sa := ServiceAccountName(clusterName);
            var listed := gcloud(ListServiceAccountsCommand(sa));
            var perms := gcloud(TestPermissionsCommand(projectId));
            var created := gcloud(CreateServiceAccountCommand(sa));
            (listed.Err? ==> err == Fail(listed.msg) && issued == [ListServiceAccountsCommand(sa)]) &&
            (listed.Ok? && listed.value != NoServiceAccounts ==> err == Pass && issued == [ListServiceAccountsCommand(sa)]) &&
            (listed == Ok(NoServiceAccounts) ==>
               (perms.Err? ==>
                  err == Fail(perms.msg) && issued == [ListServiceAccountsCommand(sa), TestPermissionsCommand(projectId)]) &&
               (perms.Ok? && !Contains(perms.value, SetIamPolicy) ==>
                  err == Fail(MissingRoleMessage) && issued == [ListServiceAccountsCommand(sa), TestPermissionsCommand(projectId)]) &&
               (perms.Ok? && Contains(perms.value, SetIamPolicy) ==>
                  var prefix := [ListServiceAccountsCommand(sa), TestPermissionsCommand(projectId), CreateServiceAccountCommand(sa)];
                  var bound := BindRoles(sa, projectId, RequiredServiceAccountRoles, gcloud);
                  (created.Err? ==> err == Fail(created.msg) && issued == prefix) &&
                  (created.Ok? ==> issued == prefix + bound.0 && err == bound.1)))
    ensures CreateServiceAccountCommand(ServiceAccountName(clusterName)) in issued <==>
              gcloud(ListServiceAccountsCommand(ServiceAccountName(clusterName))) == Ok(NoServiceAccounts) &&
              gcloud(TestPermissionsCommand(projectId)).Ok? &&
              Contains(gcloud(TestPermissionsCommand(projectId)).value, SetIamPolicy)
  {
    var serviceAccount := ServiceAccountName(clusterName);
    var list := ListServiceAccountsCommand(serviceAccount);
    issued := [list];
    var output := gcloud(list);
    if output.Err? {
      return Fail(output.msg), issued;
    }
    if output.value != NoServiceAccounts {
      return Pass, issued;
    }
    var test := TestPermissionsCommand(projectId);
    issued := issued + [test];
    output := gcloud(test);
    if output.Err? {
      return Fail(output.msg), issued;
    }
    if !Contains(output.value, SetIamPolicy) {
      return Fail(MissingRoleMessage), issued;
    }
    var create := CreateServiceAccountCommand(serviceAccount);
    issued := issued + [create];
    var created := gcloud(create);
    if created.Err? {
      return Fail(created.msg), issued;
    }
    var bindings;
    bindings, err := AssignRoles(serviceAccount, projectId, RequiredServiceAccountRoles, gcloud);
    issued := issued + bindings;
  }

  // ---------------------------------------------------------------------------
  // Cluster labels
  // ---------------------------------------------------------------------------

  /** The label groups put on the cluster, in order; empty groups are not written. */
  function LabelParts(flagLabels: string, username: string, timestamp: string): (r: seq<string>)
    ensures |r| >= 1 && r[|r| - 1] == "created-with=terraform,created-on=" + timestamp
  {
    (if flagLabels != "" then [flagLabels] else []) +
    (if username != "" then ["created-by=" + username] else []) +
    ["created-with=terraform,created-on=" + timestamp]
  }

  /**
   * The label assembly of createClusterGKETerraform. `username` is the
   * sanitized user name; the guard around it always holds at that point,
   * since the user lookup and every earlier step returned on error.
   */
  method ClusterLabels(clusterName: string, flagLabels: string, username: string, timestamp: string)
    returns (labels: string, cmd: Command)
    ensures labels == ToLower(JoinWith(LabelParts(flagLabels, username, timestamp), ","))
    ensures cmd == UpdateLabelsCommand(clusterName, labels)
  {
    var args := ["container", "clusters", "update", clusterName];
    var l := flagLabels;
    if username != "" {
      var sep := "";
      if l != "" {
        sep := ",";
      }
      l := l + sep + ("created-by=" + username);
    }
    var sep := "";
    if l != "" {
      sep := ",";
    }
    l := l + sep + ("created-with=terraform,created-on=" + timestamp);
    LabelJoin(flagLabels, username, timestamp);
    labels := ToLower(l);
    args := args + ["--update-labels=" + labels];
    cmd := GcloudCmd(args);
  }

  /** The step-by-step concatenation is the join of the non-empty groups. */
  lemma LabelJoin(flagLabels: string, username: string, timestamp: string)
    ensures var created := "created-with=terraform,created-on=" + timestamp;
            var withUser := if username == "" then flagLabels
                            else flagLabels + (if flagLabels != "" then "," else "") + ("created-by=" + username);
            JoinWith(LabelParts(flagLabels, username, timestamp), ",") == withUser + (if withUser != "" then "," else "") + created
  {
    var created := "created-with=terraform,created-on=" + timestamp;
    var creator := "created-by=" + username;
    if flagLabels != "" && username != "" {
      assert LabelParts(flagLabels, username, timestamp) == [flagLabels, creator, created];
      JoinWithCons(flagLabels, [creator, created], ",");
      JoinWithCons(creator, [created], ",");
      Regroup(flagLabels, ",", creator, ",", created);
    } else if flagLabels != "" {
      assert LabelParts(flagLabels, username, timestamp) == [flagLabels, created];
      JoinWithCons(flagLabels, [created], ",");
    } else if username != "" {
      assert LabelParts(flagLabels, username, timestamp) == [creator, created];
      JoinWithCons(creator, [created], ",");
    } else {
      assert LabelParts(flagLabels, username, timestamp) == [created];
    }
  }

  lemma Regroup(a: string, b: string, c: string, d: string, e: string)
    ensures a + b + (c + d + e) == a + b + c + d + e
  {
  }

  /** gcloud container clusters update CLUSTER --update-labels=LABELS. */
  function UpdateLabelsCommand(clusterName: string, labels: string): Command
  {
    GcloudCmd(["container", "clusters", "update", clusterName, "--update-labels=" + labels])
  }
}

module CreateClusterGKETerraformProperties {
  import opened Wrappers
  import opened Strings
  import opened Gcloud
  import opened CreateClusterGKETerraform

  /** The listing parses exactly when every line that is not a header names a project. */
  lemma {:induction false} ProjectIdsOk(lines: seq<string>, header: string)
    ensures ProjectIds(lines, header).Ok? <==>
            forall i :: 0 <= i < |lines| && !Contains(lines[i], header) ==> !AllSpace(lines[i])
  {
    if lines != [] {
      var init := lines[..|lines| - 1];
      ProjectIdsOk(init, header);
      assert forall i :: 0 <= i < |init| ==> init[i] == lines[i];
    }
  }

  /** A line that is not a header contributes its first field, after the earlier ones. */
  lemma ProjectIdsAppend(lines: seq<string>, l: string, header: string)
    requires ProjectIds(lines, header).Ok? && !Contains(l, header) && !AllSpace(l)
    ensures ProjectIds(lines + [l], header) == Ok(ProjectIds(lines, header).value + [Fields(l)[0]])
  {
    assert (lines + [l])[..|lines|] == lines;
  }

  /** Header lines give no project. */
  lemma {:induction false} ProjectIdsHeaderOnly(lines: seq<string>, header: string)
    requires forall i :: 0 <= i < |lines| ==> Contains(lines[i], header)
    ensures ProjectIds(lines, header) == Ok([])
  {
    if lines != [] {
      ProjectIdsHeaderOnly(lines[..|lines| - 1], header);
    }
  }

  /** An empty listing is one blank line, which panics before the no-project question is reached. */
  lemma EmptyListingPanics(header: string)
    requires header != ""
    ensures ProjectIds(Split("", '\n'), header) == Err(EmptyIndexPanic)
  {
    assert Split("", '\n') == [""];
    assert !Contains("", header);
    assert ProjectIds([""][..0], header) == Ok([]);
  }

  /** When every binding succeeds, the role step ends without error. */
  lemma {:induction false} AllRolesBound(serviceAccount: string, projectId: string, roles: seq<string>, gcloud: Runner)
    requires forall i :: 0 <= i < |roles| ==> gcloud(BindRoleCommand(serviceAccount, projectId, roles[i])).Ok?
    ensures BindRoles(serviceAccount, projectId, roles, gcloud).1 == Pass
  {
    if roles != [] {
      var init := roles[..|roles| - 1];
      assert forall i :: 0 <= i < |init| ==> init[i] == roles[i];
      AllRolesBound(serviceAccount, projectId, init, gcloud);
    }
  }

  /** The first failing binding ends the step with its error; no later role is bound. */
  lemma FirstBindingFailure(serviceAccount: string, projectId: string, role: string, rest: seq<string>, gcloud: Runner)
    requires gcloud(BindRoleCommand(serviceAccount, projectId, role)).Err?
    ensures BindRoles(serviceAccount, projectId, [role] + rest, gcloud) ==
            ([BindRoleCommand(serviceAccount, projectId, role)],
             Fail(gcloud(BindRoleCommand(serviceAccount, projectId, role)).msg))
  {
    assert ([role] + rest)[..1] == [role];
    assert [role][..0] == [];
    assert BindRoles(serviceAccount, projectId, [role][..0], gcloud) == ([], Pass);
    var c := BindRoleCommand(serviceAccount, projectId, role);
    assert BindRoles(serviceAccount, projectId, [role], gcloud) == ([] + [c], Fail(gcloud(c).msg));
    assert [] + [c] == [c];
    BindRolesStaysFailed(serviceAccount, projectId, [role] + rest, 1, gcloud);
  }

  /** With neither user labels nor a user name, only the created-with group is written. */
  lemma LabelsWithoutUser(timestamp: string)
    ensures JoinWith(LabelParts("", "", timestamp), ",") == "created-with=terraform,created-on=" + timestamp
  {
    LabelJoin("", "", timestamp);
  }

  /** The groups are written user labels first, then the creator, then the creation stamp, comma separated. */
  lemma LabelsOrder(flagLabels: string, username: string, timestamp: string)
    requires flagLabels != "" && username != ""
    ensures var created := "created-with=terraform,created-on=" + timestamp;
            JoinWith(LabelParts(flagLabels, username, timestamp), ",") ==
            flagLabels + "," + "created-by=" + username + "," + created
  {
    LabelJoin(flagLabels, username, timestamp);
  }

  /** The labels passed to gcloud carry no upper-case ASCII letter. */
  lemma LabelsLowerCase(labels: string)
    ensures forall i :: 0 <= i < |ToLower(labels)| ==> !('A' <= ToLower(labels)[i] <= 'Z')
  {
  }
}
