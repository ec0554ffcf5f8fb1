/** The branch-protection section of a prow configuration, and the edits jx makes to it. */
module BranchProtection {
  import opened Wrappers

  /** The kinds of repositories jx registers with prow. */
  const Application := "APPLICATION"
  const Environment := "ENVIRONMENT"
  const Protection := "PROTECTION"

  /** The status contexts jx manages. */
  const ServerlessJenkins := "serverless-jenkins"
  const ComplianceCheck := "compliance-check"
  const PromotionBuild := "promotion-build"

  /** The run-time failures of Go that the edit can run into, modelled as error outcomes. */
  const NilMapPanic := "panic: assignment to entry in nil map"
  const NilPointerPanic := "panic: invalid memory address or nil pointer dereference"

  /** The required status checks of a repository (`contexts` None is a nil slice). */
  datatype ContextPolicy = ContextPolicy(contexts: Option<seq<string>>, strict: Option<bool>)

  /** A repository's policy; `requiredStatusChecks` None is a nil pointer. */
  datatype Repo = Repo(requiredStatusChecks: Option<ContextPolicy>)

  /** An organisation's repositories (None is a nil map). */
  datatype Org = Org(repos: Option<map<string, Repo>>)

  /** A snapshot of the branch-protection section. */
  datatype Section = Section(protectTested: bool, orgs: Option<map<string, Org>>)

  /** A freshly created repository entry: an empty required-status-checks policy. */
  const NewRepo := Repo(Some(ContextPolicy(None, None)))

  /** The new contexts for a kind, or None for an unknown kind. */
  function NextContexts(contexts: seq<string>, context: string, kind: string): Option<seq<string>>
  {
    if kind == Application then Some(if ServerlessJenkins in contexts then contexts else contexts + [ServerlessJenkins])
    else if kind == Environment then Some(if PromotionBuild in contexts then contexts else contexts + [PromotionBuild])
    else if kind == Protection then Some(if ComplianceCheck in contexts then contexts else contexts + [context])
    else None
  }

  /** The repository entry exists and has a required-status-checks policy. */
  predicate HasPolicy(orgs: map<string, Org>, org: string, repo: string)
  {
    org in orgs && orgs[org].repos.Some? && repo in orgs[org].repos.value
    && orgs[org].repos.value[repo].requiredStatusChecks.Some?
  }

  /** The contexts of an existing policy. */
  function ContextsOf(orgs: map<string, Org>, org: string, repo: string): Option<seq<string>>
    requires HasPolicy(orgs, org, repo)
  {
    orgs[org].repos.value[repo].requiredStatusChecks.value.contexts
  }

  /** The maps with one policy's contexts replaced and everything else kept. */
  function WithContexts(orgs: map<string, Org>, org: string, repo: string, contexts: seq<string>): (r: map<string, Org>)
    requires HasPolicy(orgs, org, repo)
    ensures HasPolicy(r, org, repo) && ContextsOf(r, org, repo) == Some(contexts)
  {
    var repos := orgs[org].repos.value;
    var policy := repos[repo].requiredStatusChecks.value;
    orgs[org := Org(Some(repos[repo := Repo(Some(policy.(contexts := Some(contexts))))]))]
  }

  /** AddRepoToBranchProtection: the new section and the error. */
  function AddRepo(bp: Section, repoSpec: string, context: string, kind: string,
                   remoteAndRepo: string -> Result<(string, string)>): (r: (Section, Outcome))
    ensures r.0.protectTested && r.0.orgs.Some?
    ensures remoteAndRepo(repoSpec).Err? ==> r.1 == Fail(remoteAndRepo(repoSpec).msg)
    ensures r.1.Pass? ==>
              (remoteAndRepo(repoSpec).Ok? &&
               HasPolicy(r.0.orgs.value, remoteAndRepo(repoSpec).value.0, remoteAndRepo(repoSpec).value.1))
  {
    var orgs := bp.orgs.GetOr(map[]);
    // Go's map and slice updates here happen in place, so the error paths return the section as far as it got
    match remoteAndRepo(repoSpec)
    case Err(e) => (Section(true, Some(orgs)), Fail(e))
    case Ok((org, repo)) =>
      var orgs1 := if org in orgs then orgs else orgs[org := Org(Some(map[]))];
      var repos := orgs1[org].repos;
      if repos.None? then (Section(true, Some(orgs1)), Fail(NilMapPanic))
      else
        var orgs2 := if repo in repos.value then orgs1 else orgs1[org := Org(Some(repos.value[repo := NewRepo]))];
        if orgs2[org].repos.value[repo].requiredStatusChecks.None? then (Section(true, Some(orgs2)), Fail(NilPointerPanic))
        else
          var contexts := ContextsOf(orgs2, org, repo).GetOr([]);
          var orgs3 := if ContextsOf(orgs2, org, repo).None? then WithContexts(orgs2, org, repo, []) else orgs2;
          match NextContexts(contexts, context, kind)
          case None => (Section(true, Some(orgs3)), Fail("unknown Prow config kind " + kind))
          case Some(next) => (Section(true, Some(WithContexts(orgs3, org, repo, next))), Pass)
  }

  /** RemoveRepoFromBranchProtection: the new section and the error. */
  function RemoveRepo(bp: Section, repoSpec: string, remoteAndRepo: string -> Result<(string, string)>): (r: (Section, Outcome))
    ensures r.1.Fail? ==> r.0 == bp
    ensures r.1.Pass? ==>
              (remoteAndRepo(repoSpec).Ok? && r.0.orgs.Some? &&
               var org := remoteAndRepo(repoSpec).value.0;
               org in r.0.orgs.value && r.0.orgs.value[org].repos.Some? &&
               remoteAndRepo(repoSpec).value.1 !in r.0.orgs.value[org].repos.value)
  {
    if bp.orgs.None? then (bp, Fail("no orgs in BranchProtection object"))
    else match remoteAndRepo(repoSpec)
      case Err(e) => (bp, Fail(e))
      case Ok((org, repo)) =>
        var orgs := bp.orgs.value;
        if org !in orgs || orgs[org].repos.None? then (bp, Fail("no repos found for org " + org))
        else (bp.(orgs := Some(orgs[org := Org(Some(orgs[org].repos.value - {repo}))])), Pass)
  }

  /** The branch-protection section, edited in place. */
  class BranchProtectionConfig {
    var protectTested: bool
    var orgs: Option<map<string, Org>>

    constructor (state: Section)
      ensures State() == state
    {
      protectTested := state.protectTested;
      orgs := state.orgs;
    }

    function State(): Section
      reads this
    {
      Section(protectTested, orgs)
    }

    /** AddRepoToBranchProtection; `remoteAndRepo` is util.GetRemoteAndRepo. */
    method AddRepoToBranchProtection(repoSpec: string, context: string, kind: string,
                                     remoteAndRepo: string -> Result<(string, string)>) returns (err: Outcome)
      modifies this
      ensures (State(), err) == AddRepo(old(State()), repoSpec, context, kind, remoteAndRepo)
    {
      protectTested := true;
      if orgs.None? {
        orgs := Some(map[]);
      }
      var split := remoteAndRepo(repoSpec);
      if split.Err? {
        return Fail(split.msg);
      }
      var org, repo := split.value.0, split.value.1;
      if org !in orgs.value {
        orgs := Some(orgs.value[org := Org(Some(map[]))]);
      }
      var repos := orgs.value[org].repos;
      if repos.None? {
        // the repository lookup in a nil map misses, and the assignment that follows panics
        return Fail(NilMapPanic);
      }
      if repo !in repos.value {
        orgs := Some(orgs.value[org := Org(Some(repos.value[repo := NewRepo]))]);
      }
      var checks := orgs.value[org].repos.value[repo].requiredStatusChecks;
      if checks.None? {
        return Fail(NilPointerPanic);
      }
      if checks.value.contexts.None? {
        orgs := Some(WithContexts(orgs.value, org, repo, []));
      }
      var contexts := ContextsOf(orgs.value, org, repo).value;
      if kind == Application {
        if ServerlessJenkins !in contexts {
          contexts := contexts + [ServerlessJenkins];
        }
      } else if kind == Environment {
        if PromotionBuild !in contexts {
          contexts := contexts + [PromotionBuild];
        }
      } else if kind == Protection {
        if ComplianceCheck !in contexts {
          contexts := contexts + [context];
        }
      } else {
        return Fail("unknown Prow config kind " + kind);
      }
      orgs := Some(WithContexts(orgs.value, org, repo, contexts));
      return Pass;
    }

    /** RemoveRepoFromBranchProtection. */
    method RemoveRepoFromBranchProtection(repoSpec: string, remoteAndRepo: string -> Result<(string, string)>)
      returns (err: Outcome)
      modifies this
      ensures (State(), err) == RemoveRepo(old(State()), repoSpec, remoteAndRepo)
    {
      if orgs.None? {
        return Fail("no orgs in BranchProtection object");
      }
      var split := remoteAndRepo(repoSpec);
      if split.Err? {
        return Fail(split.msg);
      }
      var org, repo := split.value.0, split.value.1;
      if org !in orgs.value || orgs.value[org].repos.None? {
        return Fail("no repos found for org " + org);
      }
      var repos := orgs.value[org].repos.value;
      orgs := Some(orgs.value[org := Org(Some(repos - {repo}))]);
      return Pass;
    }
  }

  /** GetAllBranchProtectionContexts: the repository's contexts, nil (None) when anything on the way is missing. */
  function AllContexts(org: string, repo: string, bp: Section): (r: Option<seq<string>>)
    ensures r.Some? ==> bp.orgs.Some? && HasPolicy(bp.orgs.value, org, repo) && r == ContextsOf(bp.orgs.value, org, repo)
  {
    if bp.orgs.Some? && HasPolicy(bp.orgs.value, org, repo) then ContextsOf(bp.orgs.value, org, repo) else None
  }

  /** The contexts that are not managed by jx, in order. */
  function UserContexts(contexts: seq<string>): (r: seq<string>)
    ensures forall c :: c in r <==> c in contexts && c != ServerlessJenkins && c != PromotionBuild
    ensures |r| <= |contexts|
  {
    if contexts == [] then []
    else
      var rest := UserContexts(contexts[..|contexts| - 1]);
      var c := contexts[|contexts| - 1];
      assert contexts == contexts[..|contexts| - 1] + [c];
      if c != ServerlessJenkins && c != PromotionBuild then rest + [c] else rest
  }

  /** GetBranchProtectionContexts: the repository's contexts without serverless-jenkins and promotion-build. */
  method GetBranchProtectionContexts(org: string, repo: string, bp: Section) returns (result: seq<string>, err: Outcome)
    ensures err == Pass
    ensures result == UserContexts(AllContexts(org, repo, bp).GetOr([]))
  {
    result := [];
    var contexts := AllContexts(org, repo, bp).GetOr([]);
    var i := 0;
    while i < |contexts|
      invariant 0 <= i <= |contexts|
      invariant result == UserContexts(contexts[..i])
    {
      assert contexts[..i + 1][..i] == contexts[..i];
      var c := contexts[i];
      if c != ServerlessJenkins && c != PromotionBuild {
        result := result + [c];
      }
      i := i + 1;
    }
    assert contexts[..i] == contexts;
    return result, Pass;
  }
}

/** What the branch-protection edits promise. */
module BranchProtectionProperties {
  import opened Wrappers
  import opened BranchProtection

  /** The contexts of the repository after a successful split, when the edit ran through. */
  predicate Registered(p: Section, org: string, repo: string)
  {
    p.orgs.Some? && HasPolicy(p.orgs.value, org, repo) && ContextsOf(p.orgs.value, org, repo).Some?
  }

  /**
   * ProtectTested is always set, and, unless the split fails or Go panics on a
   * nil map or pointer, the org, the repo and a non-nil context list exist
   * afterwards even for an unknown kind.
   */
  lemma AddCreatesEntries(bp: Section, repoSpec: string, context: string, kind: string,
                          remoteAndRepo: string -> Result<(string, string)>)
    ensures AddRepo(bp, repoSpec, context, kind, remoteAndRepo).0.protectTested
    ensures remoteAndRepo(repoSpec).Ok? ==>
              var (org, repo) := remoteAndRepo(repoSpec).value;
              var (p, err) := AddRepo(bp, repoSpec, context, kind, remoteAndRepo);
              err != Fail(NilMapPanic) && err != Fail(NilPointerPanic) ==> Registered(p, org, repo)
  {
  }

  /** The org's repositories are a nil map, so adding the repository panics. */
  predicate NilRepos(orgs: map<string, Org>, org: string)
  {
    org in orgs && orgs[org].repos.None?
  }

  /** The repository exists with a nil RequiredStatusChecks, so reading its contexts panics. */
  predicate NilChecks(orgs: map<string, Org>, org: string, repo: string)
  {
    org in orgs && orgs[org].repos.Some? && repo in orgs[org].repos.value
    && orgs[org].repos.value[repo].requiredStatusChecks.None?
  }

  /** The contexts the edit starts from: the repository's, or none when it has no policy or a nil list. */
  function OldContexts(orgs: map<string, Org>, org: string, repo: string): seq<string>
  {
    if HasPolicy(orgs, org, repo) then ContextsOf(orgs, org, repo).GetOr([]) else []
  }

  /**
   * On any section: the nil-map and nil-pointer panics leave the orgs as
   * they were; otherwise the edit succeeds exactly for a known kind, and the
   * repository's contexts become NextContexts of the ones it had (the
   * managed context added at most once, the others kept in order), or stay
   * as they were, now non-nil, for an unknown kind.
   */
  lemma AddRepoEffect(bp: Section, repoSpec: string, context: string, kind: string,
                      remoteAndRepo: string -> Result<(string, string)>)
    requires remoteAndRepo(repoSpec).Ok?
    ensures var (org, repo) := remoteAndRepo(repoSpec).value;
            var orgs := bp.orgs.GetOr(map[]);
            var (p, err) := AddRepo(bp, repoSpec, context, kind, remoteAndRepo);
            var next := NextContexts(OldContexts(orgs, org, repo), context, kind);
            && (NilRepos(orgs, org) ==> err == Fail(NilMapPanic) && p.orgs == Some(orgs))
            && (NilChecks(orgs, org, repo) ==> err == Fail(NilPointerPanic) && p.orgs == Some(orgs))
            && (!NilRepos(orgs, org) && !NilChecks(orgs, org, repo) ==>
                  && Registered(p, org, repo)
                  && (err == Pass <==> next.Some?)
                  && (next.Some? ==> ContextsOf(p.orgs.value, org, repo) == next)
                  && (next.None? ==>
                        err == Fail("unknown Prow config kind " + kind)
                        && ContextsOf(p.orgs.value, org, repo) == Some(OldContexts(orgs, org, repo))))
  {
  }

  /** The edit touches only the repository's org: every other org is kept and no other org is added. */
  lemma AddRepoFrame(bp: Section, repoSpec: string, context: string, kind: string,
                     remoteAndRepo: string -> Result<(string, string)>)
    requires remoteAndRepo(repoSpec).Ok?
    ensures var org := remoteAndRepo(repoSpec).value.0;
            var orgs := bp.orgs.GetOr(map[]);
            var p := AddRepo(bp, repoSpec, context, kind, remoteAndRepo).0;
            && p.orgs.Some?
            && p.orgs.value.Keys == orgs.Keys + {org}
            && (forall o :: o in orgs && o != org ==> p.orgs.value[o] == orgs[o])
  {
  }

  /**
   * Within the org the edit touches only the one repository: the others are
   * kept, no other is added, and an existing policy keeps its strict setting.
   */
  lemma AddRepoKeepsRepos(bp: Section, repoSpec: string, context: string, kind: string,
                          remoteAndRepo: string -> Result<(string, string)>)
    requires remoteAndRepo(repoSpec).Ok?
    ensures var (org, repo) := remoteAndRepo(repoSpec).value;
            var orgs := bp.orgs.GetOr(map[]);
            var p := AddRepo(bp, repoSpec, context, kind, remoteAndRepo).0;
            && p.orgs.Some? && org in p.orgs.value
            && (org in orgs && orgs[org].repos.Some? ==>
                  && p.orgs.value[org].repos.Some?
                  && p.orgs.value[org].repos.value.Keys == orgs[org].repos.value.Keys + {repo}
                  && (forall r :: r in orgs[org].repos.value && r != repo ==>
                        p.orgs.value[org].repos.value[r] == orgs[org].repos.value[r]))
            && (HasPolicy(orgs, org, repo) ==>
                  HasPolicy(p.orgs.value, org, repo)
                  && p.orgs.value[org].repos.value[repo].requiredStatusChecks.value.strict
                     == orgs[org].repos.value[repo].requiredStatusChecks.value.strict)
  {
  }

  /** An unknown kind is an error, reported after the entries have been created. */
  lemma AddUnknownKind(bp: Section, repoSpec: string, context: string, kind: string,
                       remoteAndRepo: string -> Result<(string, string)>)
    requires kind != Application && kind != Environment && kind != Protection
    requires remoteAndRepo(repoSpec).Ok?
    requires bp.orgs.None?
    ensures var (org, repo) := remoteAndRepo(repoSpec).value;
            var (p, err) := AddRepo(bp, repoSpec, context, kind, remoteAndRepo);
            err == Fail("unknown Prow config kind " + kind) && Registered(p, org, repo)
            && ContextsOf(p.orgs.value, org, repo) == Some([])
  {
  }

  /** Starting from no configuration at all, the first edit yields just the managed context (or the passed one). */
  lemma AddToEmpty(repoSpec: string, context: string, kind: string, remoteAndRepo: string -> Result<(string, string)>)
    requires remoteAndRepo(repoSpec).Ok?
    requires kind == Application || kind == Environment || kind == Protection
    ensures var (org, repo) := remoteAndRepo(repoSpec).value;
            var (p, err) := AddRepo(Section(false, None), repoSpec, context, kind, remoteAndRepo);
            err == Pass && Registered(p, org, repo)
            && ContextsOf(p.orgs.value, org, repo)
               == Some([if kind == Application then ServerlessJenkins else if kind == Environment then PromotionBuild else context])
  {
    var (org, repo) := remoteAndRepo(repoSpec).value;
    var orgs2: map<string, Org> := map[org := Org(Some(map[repo := NewRepo]))];
    assert ContextsOf(orgs2, org, repo) == None;
    var orgs3 := WithContexts(orgs2, org, repo, []);
    assert ContextsOf(orgs3, org, repo) == Some([]);
    var managed := if kind == Application then ServerlessJenkins else if kind == Environment then PromotionBuild else context;
    assert NextContexts([], context, kind) == Some([] + [managed]);
    assert [] + [managed] == [managed];
  }

  /** Application and Environment add their context at most once and keep the existing ones in order. */
  lemma ManagedContextAddedOnce(contexts: seq<string>, context: string, kind: string)
    requires kind == Application || kind == Environment
    ensures var managed := if kind == Application then ServerlessJenkins else PromotionBuild;
            var next := NextContexts(contexts, context, kind).value;
            managed in next
            && next[..|contexts|] == contexts
            && (managed in contexts ==> next == contexts)
            && (managed !in contexts ==> next == contexts + [managed])
            && NextContexts(next, context, kind) == Some(next)
  {
  }

  /**
   * Protection tests for compliance-check, not for the passed context: while
   * compliance-check is absent, every call appends the context again.
   */
  lemma ProtectionDuplicates(contexts: seq<string>, context: string)
    requires ComplianceCheck !in contexts && context != ComplianceCheck
    ensures var once := NextContexts(contexts, context, Protection).value;
            NextContexts(once, context, Protection) == Some(contexts + [context, context])
  {
    var once := NextContexts(contexts, context, Protection).value;
    assert ComplianceCheck !in once;
    assert once + [context] == contexts + [context, context];
  }

  /** A second Application edit of the same repository changes nothing. */
  lemma AddApplicationIdempotent(bp: Section, repoSpec: string, context: string,
                                 remoteAndRepo: string -> Result<(string, string)>)
    requires AddRepo(bp, repoSpec, context, Application, remoteAndRepo).1 == Pass
    ensures var p := AddRepo(bp, repoSpec, context, Application, remoteAndRepo).0;
            AddRepo(p, repoSpec, context, Application, remoteAndRepo) == (p, Pass)
  {
    var p := AddRepo(bp, repoSpec, context, Application, remoteAndRepo).0;
    var (org, repo) := remoteAndRepo(repoSpec).value;
    var orgs := p.orgs.value;
    var cs := ContextsOf(orgs, org, repo).value;
    assert ServerlessJenkins in cs;
    WithContextsSame(orgs, org, repo);
  }

  lemma WithContextsSame(orgs: map<string, Org>, org: string, repo: string)
    requires HasPolicy(orgs, org, repo) && ContextsOf(orgs, org, repo).Some?
    ensures WithContexts(orgs, org, repo, ContextsOf(orgs, org, repo).value) == orgs
  {
    var repos := orgs[org].repos.value;
    var policy := repos[repo].requiredStatusChecks.value;
    assert repos[repo := Repo(Some(policy.(contexts := Some(ContextsOf(orgs, org, repo).value))))] == repos;
  }

  /** Removal deletes only that repository; every other org and repository is kept. */
  lemma RemoveRule(bp: Section, repoSpec: string, remoteAndRepo: string -> Result<(string, string)>)
    ensures var (p, err) := RemoveRepo(bp, repoSpec, remoteAndRepo);
            (bp.orgs.None? ==> err == Fail("no orgs in BranchProtection object") && p == bp)
            && (err.Fail? ==> p == bp)
            && (err == Pass ==>
                  var (org, repo) := remoteAndRepo(repoSpec).value;
                  p.protectTested == bp.protectTested
                  && p.orgs.Some? && bp.orgs.Some? && org in bp.orgs.value && bp.orgs.value[org].repos.Some?
                  && p.orgs.value.Keys == bp.orgs.value.Keys
                  && (forall o :: o in bp.orgs.value && o != org ==> p.orgs.value[o] == bp.orgs.value[o])
                  && p.orgs.value[org].repos.Some?
                  && repo !in p.orgs.value[org].repos.value
                  && (forall r :: r in bp.orgs.value[org].repos.value && r != repo ==>
                        r in p.orgs.value[org].repos.value
                        && p.orgs.value[org].repos.value[r] == bp.orgs.value[org].repos.value[r]))
  {
  }

  /** Removing an absent repository succeeds and changes nothing. */
  lemma RemoveAbsentIsNoOp(bp: Section, repoSpec: string, remoteAndRepo: string -> Result<(string, string)>)
    requires RemoveRepo(bp, repoSpec, remoteAndRepo).1 == Pass
    requires remoteAndRepo(repoSpec).value.1 !in bp.orgs.value[remoteAndRepo(repoSpec).value.0].repos.value
    ensures RemoveRepo(bp, repoSpec, remoteAndRepo).0 == bp
  {
    var (org, repo) := remoteAndRepo(repoSpec).value;
    var repos := bp.orgs.value[org].repos.value;
    assert repos - {repo} == repos;
    assert bp.orgs.value[org := Org(Some(repos))] == bp.orgs.value;
  }

  /** The filter distributes over concatenation, so it keeps the order of what it keeps. */
  lemma {:induction false} UserContextsAppend(a: seq<string>, b: seq<string>)
    ensures UserContexts(a + b) == UserContexts(a) + UserContexts(b)
    decreases |b|
  {
    if b == [] {
      assert a + b == a;
    } else {
      var b' := b[..|b| - 1];
      assert (a + b)[..|a + b| - 1] == a + b';
      assert (a + b)[|a + b| - 1] == b[|b| - 1];
      UserContextsAppend(a, b');
    }
  }

  /** Contexts jx does not manage come back unchanged and in order. */
  lemma {:induction false} UserContextsKeepsOthers(contexts: seq<string>)
    requires ServerlessJenkins !in contexts && PromotionBuild !in contexts
    ensures UserContexts(contexts) == contexts
  {
    if contexts != [] {
      var init := contexts[..|contexts| - 1];
      UserContextsKeepsOthers(init);
      assert contexts == init + [contexts[|contexts| - 1]];
    }
  }

  /** A missing org, repository or policy reads as no contexts at all. */
  lemma MissingReadsEmpty(org: string, repo: string, bp: Section)
    requires bp.orgs.None? || org !in bp.orgs.value || bp.orgs.value[org].repos.None?
             || repo !in bp.orgs.value[org].repos.value
    ensures AllContexts(org, repo, bp) == None
    ensures UserContexts(AllContexts(org, repo, bp).GetOr([])) == []
  {
  }
}
