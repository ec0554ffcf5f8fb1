/**
 * `jx step changelog` (pkg/jx/cmd/step_changelog.go): which commits enter
 * the release, the full commit message text, the conversion of labels, the
 * lookup of the issues named in commit messages (each name at most once per
 * run), and the fallbacks for the release notes URL, the version and the
 * application name. Git, the issue tracker and the user resolver are
 * functions passed in; regular-expression matching is an input (the
 * submatch lists the chosen expression finds).
 */
module StepChangelog {
  import opened Wrappers
  import opened Strings

  // ---------------------------------------------------------------------------
  // Commits and their message text
  // ---------------------------------------------------------------------------

  /** A commit as the changelog reads it; `parentMessages` are the messages of its parents, in order. */
  datatype Commit = Commit(sha: string, message: string, author: string, committer: string,
                           parentHashes: seq<string>, parentMessages: seq<string>)

  /** Run's filter: merge commits are included only with IncludeMergeCommits. */
  predicate IncludeCommit(includeMergeCommits: bool, c: Commit)
  {
    includeMergeCommits || |c.parentHashes| <= 1
  }

  /** The message text after the parents' messages have been appended, in order. */
  function FullText(message: string, parents: seq<string>): string
  {
    if parents == [] then message
    else
      var answer := FullText(message, parents[..|parents| - 1]);
      var text := parents[|parents| - 1];
      if text == "" then answer
      else answer + (if HasSuffix(answer, "\n") then "" else "\n") + text
  }

  /** fullCommitMessageText: the ForEach over the parent commits. */
  method FullCommitMessageText(c: Commit) returns (answer: string)
    ensures answer == FullText(c.message, c.parentMessages)
  {
    answer := c.message;
    var ps := c.parentMessages;
    var i := 0;
    while i < |ps|
      invariant 0 <= i <= |ps|
      invariant answer == FullText(c.message, ps[..i])
    {
      assert ps[..i + 1][..i] == ps[..i];
      var text := ps[i];
      if text != "" {
        var sep := "\n";
        if HasSuffix(answer, "\n") {
          sep := "";
        }
        answer := answer + sep + text;
      }
      i := i + 1;
    }
    assert ps[..i] == ps;
  }

  // ---------------------------------------------------------------------------
  // Labels
  // ---------------------------------------------------------------------------

  datatype GitLabel = GitLabel(url: string, name: string, color: string)
  datatype IssueLabel = IssueLabel(url: string, name: string, color: string)

  /** The label conversion: one issue label per git label, in order. */
  function Labels(labels: seq<GitLabel>): (r: seq<IssueLabel>)
    ensures |r| == |labels|
    ensures forall i :: 0 <= i < |labels| ==> r[i] == IssueLabel(labels[i].url, labels[i].name, labels[i].color)
  {
    if labels == [] then []
    else Labels(labels[..|labels| - 1]) + [IssueLabel(labels[|labels| - 1].url, labels[|labels| - 1].name, labels[|labels| - 1].color)]
  }

  /** toV1Labels: the loop appending one converted label at a time, starting from an empty (non-nil) slice. */
  method ToV1Labels(labels: seq<GitLabel>) returns (answer: seq<IssueLabel>)
    ensures answer == Labels(labels)
  {
    answer := [];
    var i := 0;
    while i < |labels|
      invariant 0 <= i <= |labels|
      invariant answer == Labels(labels[..i])
    {
      assert labels[..i + 1][..i] == labels[..i];
      answer := answer + [IssueLabel(labels[i].url, labels[i].name, labels[i].color)];
      i := i + 1;
    }
    assert labels[..i] == labels;
  }

  // ---------------------------------------------------------------------------
  // Issues named in commit messages
  // ---------------------------------------------------------------------------

  datatype IssueKind = GitHubIssues | Jira | OtherTracker(kind: string)

  /** The two expressions: `(\#\d+)` and `[A-Z][A-Z]+-(\d+)`. */
  datatype IssueRegex = GitHubIssueRegex | JIRAIssueRegex

  /** The expression addIssuesAndPullRequests uses for a tracker kind. */
  function RegexFor(kind: IssueKind): (r: IssueRegex)
    ensures r == JIRAIssueRegex <==> kind == Jira
  {
    if kind == Jira then JIRAIssueRegex else GitHubIssueRegex
  }

  datatype GitUser = GitUser(login: string)
  /** A resolved user; the zero value stands for Go's empty v1.UserDetails. */
  datatype UserDetails = UserDetails(login: string)

  /** An issue as the tracker returns it; `createdAt` is its creation time, kept abstract. */
  datatype Issue = Issue(url: string, title: string, body: string, user: Option<GitUser>, createdAt: string,
                         closedBy: Option<GitUser>, assignees: Option<seq<GitUser>>, labels: seq<GitLabel>,
                         state: Option<string>, isPullRequest: bool)

  /** v1.IssueSummary; `kube.ToMetaTime` is taken to keep the creation time as it is. */
  datatype IssueSummary = IssueSummary(id: string, url: string, title: string, body: string, user: UserDetails,
                                       creationTimestamp: string, closedBy: UserDetails, assignees: seq<UserDetails>,
                                       labels: seq<IssueLabel>, state: string)

  /** users.GitUserResolver: Resolve and GitUserSliceAsUserDetailsSlice. */
  datatype Resolver = Resolver(resolve: GitUser -> Result<Option<UserDetails>>,
                               resolveAll: seq<GitUser> -> Result<seq<UserDetails>>)

  /** A user field of the summary: the zero value when the issue has none or the resolver finds none. */
  function ResolveUser(u: Option<GitUser>, r: Resolver): Result<UserDetails>
  {
    if u.None? then Ok(UserDetails(""))
    else
      var resolved := r.resolve(u.value);
      if resolved.Err? then Err(resolved.msg)
      else Ok(resolved.value.GetOr(UserDetails("")))
  }

  /**
   * The closedBy field as written: when the issue has a ClosedBy user, the
   * code resolves the issue's User instead.
   */
  function ClosedByAsWritten(issue: Issue, r: Resolver): (u: Result<UserDetails>)
    ensures issue.closedBy.None? ==> u == Ok(UserDetails(""))
    ensures issue.closedBy.Some? ==> u == ResolveUser(issue.user, r)
  {
    if issue.closedBy.None? then Ok(UserDetails("")) else ResolveUser(issue.user, r)
  }

  /** The closedBy field as evidently intended: the ClosedBy user resolved. */
  function ClosedBy(issue: Issue, r: Resolver): (u: Result<UserDetails>)
    ensures u == ResolveUser(issue.closedBy, r)
  {
    if issue.closedBy.None? then Ok(UserDetails("")) else ResolveUser(issue.closedBy, r)
  }

  /**
   * The summary of a found issue as written, or the resolver error that ends
   * addIssuesAndPullRequests: the author, the closer (resolved from the
   * author, see ClosedByAsWritten) and the assignees are resolved in turn.
   */
  function Summarize(id: string, issue: Issue, r: Resolver): (s: Result<IssueSummary>)
    ensures s.Err? <==> ResolveUser(issue.user, r).Err? ||
                        (issue.assignees.Some? && r.resolveAll(issue.assignees.value).Err?)
    ensures s.Ok? ==> s.value.id == id && s.value.url == issue.url && s.value.title == issue.title &&
                      s.value.body == issue.body && s.value.creationTimestamp == issue.createdAt &&
                      s.value.user == ResolveUser(issue.user, r).value &&
                      s.value.closedBy == (if issue.closedBy.None? then UserDetails("") else s.value.user) &&
                      s.value.assignees == (if issue.assignees.None? then [] else r.resolveAll(issue.assignees.value).value) &&
                      s.value.labels == Labels(issue.labels) && s.value.state == issue.state.GetOr("")
  {
    SummaryWith(id, issue, ClosedByAsWritten(issue, r), r)
  }

  /** The summary with the closer resolved from the ClosedBy user, as evidently intended. */
  function SummarizeIntended(id: string, issue: Issue, r: Resolver): (s: Result<IssueSummary>)
    ensures s.Err? <==> ResolveUser(issue.user, r).Err? || ResolveUser(issue.closedBy, r).Err? ||
                        (issue.assignees.Some? && r.resolveAll(issue.assignees.value).Err?)
    ensures s.Ok? ==> s.value.closedBy == ResolveUser(issue.closedBy, r).value
  {
    SummaryWith(id, issue, ClosedBy(issue, r), r)
  }

  /** The summary assembled around a given closer. */
  function SummaryWith(id: string, issue: Issue, closedBy: Result<UserDetails>, r: Resolver): Result<IssueSummary>
  {
    var user := ResolveUser(issue.user, r);
    if user.Err? then Err(user.msg)
    else if closedBy.Err? then Err(closedBy.msg)
    else
      var assignees := if issue.assignees.None? then Ok([]) else r.resolveAll(issue.assignees.value);
      if assignees.Err? then Err(assignees.msg)
      else Ok(IssueSummary(id, issue.url, issue.title, issue.body, user.value, issue.createdAt, closedBy.value,
                           assignees.value, Labels(issue.labels), issue.state.GetOr("")))
  }

  /** Every element of every match with one leading "#" removed, in match order. */
  function Candidates(matches: seq<seq<string>>): seq<string>
  {
    if matches == [] then []
    else Candidates(matches[..|matches| - 1]) + TrimAll(matches[|matches| - 1])
  }

  function TrimAll(groups: seq<string>): (r: seq<string>)
    ensures |r| == |groups|
    ensures forall i :: 0 <= i < |groups| ==> r[i] == TrimPrefix(groups[i], "#")
  {
    if groups == [] then [] else TrimAll(groups[..|groups| - 1]) + [TrimPrefix(groups[|groups| - 1], "#")]
  }

  /**
   * The part of the run state and the release spec that the lookup changes:
   * FoundIssueNames, the names sent to the tracker, the commit's IssueIDs,
   * the spec's Issues and PullRequests, and the error that stopped it.
   */
  datatype Lookup = Lookup(found: set<string>, lookedUp: seq<string>, ids: seq<string>,
                           issues: seq<IssueSummary>, pullRequests: seq<IssueSummary>, err: Outcome)

  /** One candidate name: skipped when already found; otherwise looked up and, when the tracker has it, recorded. */
  function LookupStep(st: Lookup, result: string, tracker: string -> Result<Option<Issue>>, r: Resolver): (l: Lookup)
    ensures result in st.found ==> l == st
    ensures result !in st.found ==> l.found == st.found + {result} && l.lookedUp == st.lookedUp + [result]
    ensures l.ids == st.ids || l.ids == st.ids + [result]
    ensures l.ids != st.ids <==> result !in st.found && tracker(result).Ok? && tracker(result).value.Some? &&
                                 Summarize(result, tracker(result).value.value, r).Ok?
    ensures l.err != st.err ==>
              result !in st.found && tracker(result).Ok? && tracker(result).value.Some? &&
              Summarize(result, tracker(result).value.value, r).Err? &&
              l.err == Fail(Summarize(result, tracker(result).value.value, r).msg)
    ensures l.ids != st.ids ==>
              var summary := Summarize(result, tracker(result).value.value, r).value;
              if tracker(result).value.value.isPullRequest
              then l.pullRequests == st.pullRequests + [summary] && l.issues == st.issues
              else l.issues == st.issues + [summary] && l.pullRequests == st.pullRequests
    ensures l.ids == st.ids ==> l.issues == st.issues && l.pullRequests == st.pullRequests
  {
    if result in st.found then st
    else
      var st1 := st.(found := st.found + {result}, lookedUp := st.lookedUp + [result]);
      var issue := tracker(result);
      if issue.Err? || issue.value.None? then st1
      else
        var summary := Summarize(result, issue.value.value, r);
        if summary.Err? then st1.(err := Fail(summary.msg))
        else if issue.value.value.isPullRequest then st1.(ids := st1.ids + [result], pullRequests := st1.pullRequests + [summary.value])
        else st1.(ids := st1.ids + [result], issues := st1.issues + [summary.value])
  }

  /** The candidates processed in order, stopping at the first resolver error. */
  function LookupAll(st: Lookup, results: seq<string>, tracker: string -> Result<Option<Issue>>, r: Resolver): (l: Lookup)
    ensures st.err.Fail? ==> l == st
  {
    if results == [] then st
    else
      var before := LookupAll(st, results[..|results| - 1], tracker, r);
      if before.err.Fail? then before else LookupStep(before, results[|results| - 1], tracker, r)
  }

  datatype CommitSummary = CommitSummary(message: string, url: string, sha: string, author: UserDetails,
                                         branch: string, committer: UserDetails, issueIDs: seq<string>)

  /** What one commit contributes, given the lookup state before it. */
  function CommitLookup(st: Lookup, hasIssues: bool, kind: IssueKind, c: Commit,
                        matchesOf: (IssueRegex, string) -> seq<seq<string>>,
                        tracker: string -> Result<Option<Issue>>, r: Resolver): (l: Lookup)
  {
    if !hasIssues then st
    else LookupAll(st, Candidates(matchesOf(RegexFor(kind), FullText(c.message, c.parentMessages))), tracker, r)
  }

  /** A commit's author or committer: the zero value when the resolver fails or finds nobody. */
  function SignatureUser(u: Result<Option<UserDetails>>): UserDetails
  {
    if u.Err? then UserDetails("") else u.value.GetOr(UserDetails(""))
  }

  /**
   * The release being assembled (Spec.Commits, Spec.Issues,
   * Spec.PullRequests) and the run state FoundIssueNames, plus the names
   * sent to the tracker so far.
   */
  class ChangelogState {
    var foundIssueNames: set<string>
    var lookedUp: seq<string>
    var commits: seq<CommitSummary>
    var issues: seq<IssueSummary>
    var pullRequests: seq<IssueSummary>

    /** Run resets FoundIssueNames and starts an empty release spec. */
    constructor ()
      ensures foundIssueNames == {} && lookedUp == [] && commits == [] && issues == [] && pullRequests == []
    {
      foundIssueNames := {};
      lookedUp := [];
      commits := [];
      issues := [];
      pullRequests := [];
    }

    function State(): Release
      reads this
    {
      Release(foundIssueNames, lookedUp, commits, issues, pullRequests)
    }

    function AsLookup(): Lookup
      reads this
    {
      Lookup(foundIssueNames, lookedUp, [], issues, pullRequests, Pass)
    }

    /** The body of the inner loop for one candidate name, with the commit's issue ids so far. */
    method LookupOne(result: string, ids: seq<string>, tracker: string -> Result<Option<Issue>>, r: Resolver)
      returns (issueIDs: seq<string>, err: Outcome)
      modifies this
      ensures var l := LookupStep(old(Lookup(foundIssueNames, lookedUp, ids, issues, pullRequests, Pass)), result, tracker, r);
              foundIssueNames == l.found && lookedUp == l.lookedUp && issues == l.issues &&
              pullRequests == l.pullRequests && issueIDs == l.ids && err == l.err
      ensures commits == old(commits)
    {
      issueIDs := ids;
      err := Pass;
      if result in foundIssueNames {
        return;
      }
      foundIssueNames := foundIssueNames + {result};
      lookedUp := lookedUp + [result];
      var issue := tracker(result);
      if issue.Err? || issue.value.None? {
        return;
      }
      var summary := Summarize(result, issue.value.value, r);
      if summary.Err? {
        return issueIDs, Fail(summary.msg);
      }
      issueIDs := issueIDs + [result];
      if issue.value.value.isPullRequest {
        pullRequests := pullRequests + [summary.value];
      } else {
        issues := issues + [summary.value];
      }
    }

    /**
     * addIssuesAndPullRequests. `hasIssues` says whether the git provider
     * exists and has issues; `matchesOf` is FindAllStringSubmatch. The nested
     * loop over matches and their groups is a loop over Candidates.
     */
    method AddIssuesAndPullRequests(hasIssues: bool, kind: IssueKind, c: Commit,
                                    matchesOf: (IssueRegex, string) -> seq<seq<string>>,
                                    tracker: string -> Result<Option<Issue>>, r: Resolver)
      returns (issueIDs: seq<string>, err: Outcome)
      modifies this
      ensures var l := CommitLookup(old(AsLookup()), hasIssues, kind, c, matchesOf, tracker, r);
              foundIssueNames == l.found && lookedUp == l.lookedUp && issues == l.issues &&
              pullRequests == l.pullRequests && issueIDs == l.ids && err == l.err
      ensures commits == old(commits)
    {
      issueIDs := [];
      err := Pass;
      if !hasIssues {
        return;
      }
      var message := FullCommitMessageText(c);
      var results := Candidates(matchesOf(RegexFor(kind), message));
      ghost var start := AsLookup();
      var i := 0;
      while i < |results|
        invariant 0 <= i <= |results|
        invariant commits == old(commits)
        invariant err == Pass
        invariant LookupAll(start, results[..i], tracker, r) ==
                  Lookup(foundIssueNames, lookedUp, issueIDs, issues, pullRequests, Pass)
      {
        LookupAllSnoc(start, results, i, tracker, r);
        issueIDs, err := LookupOne(results[i], issueIDs, tracker, r);
        if err.Fail? {
          LookupAllStaysFailed(start, results, i + 1, tracker, r);
          return;
        }
        i := i + 1;
      }
      assert results[..i] == results;
    }

    /**
     * addCommit: the commit summary (with the issue ids found before any
     * lookup error, which is only logged) is appended after the lookup.
     */
    method AddCommit(ctx: Context, c: Commit)
      modifies this
      ensures State() == WithCommit(old(State()), ctx, c)
    {
      var author := SignatureUser(ctx.signatureAsUser(c.author));
      var committer := SignatureUser(ctx.signatureAsUser(c.committer));
      var ids, _ := AddIssuesAndPullRequests(ctx.hasIssues, ctx.kind, c, ctx.matchesOf, ctx.tracker, ctx.resolver);
      commits := commits + [CommitSummary(c.message, "", c.sha, author, "master", committer, ids)];
    }

    /**
     * Run's loop over the commits between the previous and the current
     * release: each commit the filter keeps is added, in order.
     */
    method AddCommits(ctx: Context, includeMergeCommits: bool, all: seq<Commit>)
      modifies this
      ensures State() == AddedCommits(old(State()), ctx, Included(includeMergeCommits, all))
    {
      ghost var before := State();
      var i := 0;
      while i < |all|
        invariant 0 <= i <= |all|
        invariant State() == AddedCommits(before, ctx, Included(includeMergeCommits, all[..i]))
      {
        IncludedSnoc(includeMergeCommits, all, i);
        ghost var kept := Included(includeMergeCommits, all[..i]);
        if IncludeCommit(includeMergeCommits, all[i]) {
          AddCommit(ctx, all[i]);
          AddedCommitsSnoc(before, ctx, kept, all[i]);
        }
        i := i + 1;
      }
      assert all[..i] == all;
    }
  }

  /** What the commit loop reads besides the commits: the issue provider, the matcher, the tracker and the resolvers. */
  datatype Context = Context(hasIssues: bool, kind: IssueKind,
                             signatureAsUser: string -> Result<Option<UserDetails>>,
                             matchesOf: (IssueRegex, string) -> seq<seq<string>>,
                             tracker: string -> Result<Option<Issue>>, resolver: Resolver)

  /** The release spec and run state of ChangelogState, as a value. */
  datatype Release = Release(found: set<string>, lookedUp: seq<string>, commits: seq<CommitSummary>,
                             issues: seq<IssueSummary>, pullRequests: seq<IssueSummary>)

  /** The state after addCommit: the lookup's effect, then the commit's summary appended. */
  function WithCommit(s: Release, ctx: Context, c: Commit): (r: Release)
    ensures |r.commits| == |s.commits| + 1 && r.commits[..|s.commits|] == s.commits
    ensures var added := r.commits[|s.commits|];
            added.sha == c.sha && added.message == c.message && added.url == "" && added.branch == "master" &&
            added.author == SignatureUser(ctx.signatureAsUser(c.author)) &&
            added.committer == SignatureUser(ctx.signatureAsUser(c.committer))
    ensures !ctx.hasIssues ==> r == s.(commits := r.commits) && r.commits[|s.commits|].issueIDs == []
  {
    var l := CommitLookup(Lookup(s.found, s.lookedUp, [], s.issues, s.pullRequests, Pass),
                          ctx.hasIssues, ctx.kind, c, ctx.matchesOf, ctx.tracker, ctx.resolver);
    Release(l.found, l.lookedUp,
            s.commits + [CommitSummary(c.message, "", c.sha, SignatureUser(ctx.signatureAsUser(c.author)), "master",
                                       SignatureUser(ctx.signatureAsUser(c.committer)), l.ids)],
            l.issues, l.pullRequests)
  }

  /** The state after the kept commits have been added one after another. */
  function AddedCommits(s: Release, ctx: Context, kept: seq<Commit>): (r: Release)
    ensures |r.commits| == |s.commits| + |kept| && s.commits <= r.commits
    ensures forall k :: 0 <= k < |kept| ==>
              r.commits[|s.commits| + k].sha == kept[k].sha && r.commits[|s.commits| + k].message == kept[k].message
  {
    if kept == [] then s
    else
      var init := kept[..|kept| - 1];
      var before := AddedCommits(s, ctx, init);
      var r := WithCommit(before, ctx, kept[|kept| - 1]);
      assert forall j :: 0 <= j < |before.commits| ==> r.commits[j] == before.commits[j];
      assert forall k :: 0 <= k < |init| ==> init[k] == kept[k];
      r
  }

  lemma IncludedSnoc(includeMergeCommits: bool, all: seq<Commit>, i: nat)
    requires i < |all|
    ensures Included(includeMergeCommits, all[..i + 1]) ==
            if IncludeCommit(includeMergeCommits, all[i]) then Included(includeMergeCommits, all[..i]) + [all[i]]
            else Included(includeMergeCommits, all[..i])
  {
    assert all[..i + 1][..i] == all[..i];
  }

  lemma AddedCommitsSnoc(s: Release, ctx: Context, kept: seq<Commit>, c: Commit)
    ensures AddedCommits(s, ctx, kept + [c]) == WithCommit(AddedCommits(s, ctx, kept), ctx, c)
  {
    assert (kept + [c])[..|kept|] == kept;
  }

  /** The commits Run adds, in order. */
  function Included(includeMergeCommits: bool, all: seq<Commit>): (r: seq<Commit>)
    ensures |r| <= |all|
  {
    if all == [] then []
    else
      var rest := Included(includeMergeCommits, all[..|all| - 1]);
      if IncludeCommit(includeMergeCommits, all[|all| - 1]) then rest + [all[|all| - 1]] else rest
  }

  /** Once the lookup has failed, later candidates change nothing. */
  lemma LookupAllSnoc(st: Lookup, results: seq<string>, i: nat, tracker: string -> Result<Option<Issue>>, r: Resolver)
    requires i < |results| && LookupAll(st, results[..i], tracker, r).err.Pass?
    ensures LookupAll(st, results[..i + 1], tracker, r) == LookupStep(LookupAll(st, results[..i], tracker, r), results[i], tracker, r)
  {
    assert results[..i + 1][..i] == results[..i];
  }

  lemma {:induction false} LookupAllStaysFailed(st: Lookup, results: seq<string>, k: nat,
                                               tracker: string -> Result<Option<Issue>>, r: Resolver)
    requires k <= |results|
    requires LookupAll(st, results[..k], tracker, r).err.Fail?
    ensures LookupAll(st, results, tracker, r) == LookupAll(st, results[..k], tracker, r)
    decreases |results| - k
  {
    if k < |results| {
      assert results[..k + 1][..k] == results[..k];
      LookupAllStaysFailed(st, results, k + 1, tracker, r);
    } else {
      assert results[..k] == results;
    }
  }

  // ---------------------------------------------------------------------------
  // Release fallbacks
  // ---------------------------------------------------------------------------

  const SpecName := "{{ .Chart.Name }}"
  const SpecVersion := "{{ .Chart.Version }}"

  /** The version of the release: the option, or the chart version placeholder. */
  function ReleaseVersion(version: string): (r: string)
    ensures version != "" ==> r == version
    ensures r != ""
  {
    if version == "" then SpecVersion else version
  }

  /** The version stored in the release spec: one leading "v" dropped. */
  function CleanVersion(version: string): (r: string)
    ensures HasPrefix(version, "v") ==> "v" + r == version
    ensures !HasPrefix(version, "v") ==> r == version
  {
    TrimPrefix(version, "v")
  }

  /** util.UrlJoin on parts that need no slash trimming. */
  function UrlJoin(parts: seq<string>): string
  {
    JoinWith(parts, "/")
  }

  /** The release notes URL: the release's HTML URL, else its API URL, else the tag page. */
  function ReleaseNotesURL(htmlURL: string, url: string, httpsURL: string, version: string): (r: string)
    ensures htmlURL != "" ==> r == htmlURL
    ensures htmlURL == "" && url != "" ==> r == url
    ensures htmlURL == "" && url == "" ==> r == UrlJoin([httpsURL, "releases/tag", version])
  {
    if htmlURL != "" then htmlURL
    else if url != "" then url
    else UrlJoin([httpsURL, "releases/tag", version])
  }

  /** The application name: the git repository name, else the spec name, else the spec's repository. */
  function AppName(gitInfoName: Option<string>, specName: string, gitRepository: string): (r: string)
    ensures gitInfoName.Some? && gitInfoName.value != "" ==> r == gitInfoName.value
    ensures (gitInfoName.None? || gitInfoName.value == "") && specName != "" ==> r == specName
    ensures (gitInfoName.None? || gitInfoName.value == "") && specName == "" ==> r == gitRepository
  {
    var appName := if gitInfoName.Some? then gitInfoName.value else "";
    var appName := if appName == "" then specName else appName;
    if appName == "" then gitRepository else appName
  }
}

module StepChangelogProperties {
  import opened Wrappers
  import opened Strings
  import opened StepChangelog

  /** The full text starts with the commit's own message. */
  lemma {:induction false} FullTextStartsWithMessage(message: string, parents: seq<string>)
    ensures HasPrefix(FullText(message, parents), message)
  {
    if parents != [] {
      FullTextStartsWithMessage(message, parents[..|parents| - 1]);
      var answer := FullText(message, parents[..|parents| - 1]);
      var text := parents[|parents| - 1];
      if text != "" {
        var sep := if HasSuffix(answer, "\n") then "" else "\n";
        assert (answer + sep + text)[..|message|] == answer[..|message|];
      }
    }
  }

  /** Empty parent messages add nothing. */
  lemma {:induction false} FullTextEmptyParents(message: string, parents: seq<string>)
    requires forall i :: 0 <= i < |parents| ==> parents[i] == ""
    ensures FullText(message, parents) == message
  {
    if parents != [] {
      FullTextEmptyParents(message, parents[..|parents| - 1]);
    }
  }

  /** A parent message is joined with a newline unless the text so far already ends in one. */
  lemma FullTextSeparator(message: string, parents: seq<string>, text: string)
    requires text != ""
    ensures var answer := FullText(message, parents);
            FullText(message, parents + [text]) ==
              if HasSuffix(answer, "\n") then answer + text else answer + "\n" + text
  {
    assert (parents + [text])[..|parents|] == parents;
  }

  /** Without IncludeMergeCommits only commits with at most one parent are kept; with it every commit is. */
  lemma {:induction false} IncludedCommits(includeMergeCommits: bool, all: seq<Commit>)
    ensures !includeMergeCommits ==> forall c :: c in Included(includeMergeCommits, all) ==> |c.parentHashes| <= 1
    ensures includeMergeCommits ==> Included(includeMergeCommits, all) == all
    ensures forall c :: c in all && |c.parentHashes| <= 1 ==> c in Included(includeMergeCommits, all)
  {
    if all != [] {
      IncludedCommits(includeMergeCommits, all[..|all| - 1]);
      assert all == all[..|all| - 1] + [all[|all| - 1]];
    }
  }

  /** Each name goes to the tracker at most once per run, never one found earlier, and ends up in FoundIssueNames. */
  lemma {:induction false} LookedUpOnce(st: Lookup, results: seq<string>, tracker: string -> Result<Option<Issue>>, r: Resolver)
    requires forall i :: 0 <= i < |st.lookedUp| ==> st.lookedUp[i] in st.found
    requires forall i, j :: 0 <= i < j < |st.lookedUp| ==> st.lookedUp[i] != st.lookedUp[j]
    ensures var l := LookupAll(st, results, tracker, r);
            st.found <= l.found &&
            st.lookedUp <= l.lookedUp &&
            (forall i :: 0 <= i < |l.lookedUp| ==> l.lookedUp[i] in l.found) &&
            (forall i :: |st.lookedUp| <= i < |l.lookedUp| ==> l.lookedUp[i] !in st.found) &&
            (forall i, j :: 0 <= i < j < |l.lookedUp| ==> l.lookedUp[i] != l.lookedUp[j])
  {
    if results != [] {
      LookedUpOnce(st, results[..|results| - 1], tracker, r);
    }
  }

  /** When nothing fails, every candidate name is in FoundIssueNames afterwards. */
  lemma {:induction false} AllCandidatesFound(st: Lookup, results: seq<string>, tracker: string -> Result<Option<Issue>>, r: Resolver)
    ensures var l := LookupAll(st, results, tracker, r);
            l.err.Pass? ==> forall i :: 0 <= i < |results| ==> results[i] in l.found
  {
    if results != [] {
      var init := results[..|results| - 1];
      AllCandidatesFound(st, init, tracker, r);
      var before := LookupAll(st, init, tracker, r);
      if before.err.Pass? {
        var after := LookupStep(before, results[|results| - 1], tracker, r);
        assert before.found <= after.found;
        assert forall i :: 0 <= i < |init| ==> init[i] == results[i];
      }
    }
  }

  /** A recorded issue id was a candidate and the tracker knew it; it went to PullRequests or Issues by its kind. */
  lemma {:induction false} IdsAreFoundIssues(st: Lookup, results: seq<string>, tracker: string -> Result<Option<Issue>>, r: Resolver)
    ensures var l := LookupAll(st, results, tracker, r);
            st.ids <= l.ids &&
            forall i :: |st.ids| <= i < |l.ids| ==> l.ids[i] in results && tracker(l.ids[i]).Ok? && tracker(l.ids[i]).value.Some?
    ensures var l := LookupAll(st, results, tracker, r);
            |l.ids| - |st.ids| == (|l.issues| - |st.issues|) + (|l.pullRequests| - |st.pullRequests|)
    ensures st.issues <= LookupAll(st, results, tracker, r).issues
    ensures st.pullRequests <= LookupAll(st, results, tracker, r).pullRequests
  {
    if results != [] {
      IdsAreFoundIssues(st, results[..|results| - 1], tracker, r);
    }
  }

  /**
   * "#12" twice in a message: FindAllStringSubmatch of `(\#\d+)` gives two
   * [whole match, group] pairs, and so four candidates "12".
   */
  lemma GitHubRepeatCandidates()
    ensures Candidates([["#12", "#12"], ["#12", "#12"]]) == ["12", "12", "12", "12"]
  {
    assert "#12"[..1] == "#";
    assert TrimAll(["#12", "#12"]) == ["12", "12"];
    var ms := [["#12", "#12"], ["#12", "#12"]];
    assert ms[..1] == [["#12", "#12"]];
    assert Candidates(ms[..1]) == ["12", "12"];
  }

  /** The four candidates "12" of a repeated "#12" give a single lookup. */
  lemma GitHubRepeatLookedUpOnce(st: Lookup, tracker: string -> Result<Option<Issue>>, r: Resolver)
    requires st.err.Pass? && "12" !in st.found
    ensures LookupAll(st, ["12", "12", "12", "12"], tracker, r).lookedUp == st.lookedUp + ["12"]
  {
    var cs := ["12", "12", "12", "12"];
    var first := LookupStep(st, "12", tracker, r);
    assert cs[..1] == ["12"] && cs[..1][..0] == [];
    assert LookupAll(st, cs[..1], tracker, r) == first;
    assert cs[..2][..1] == cs[..1];
    assert LookupAll(st, cs[..2], tracker, r) == first;
    assert cs[..3][..2] == cs[..2];
    assert LookupAll(st, cs[..3], tracker, r) == first;
    assert cs[..3] == cs[..|cs| - 1];
  }

  /** A JIRA match yields both the key and its number as names: "ABC-12" and "12". */
  lemma JiraBothLookedUp()
    ensures Candidates([["ABC-12", "12"]]) == ["ABC-12", "12"]
  {
    assert "ABC-12"[..1] == "A";
    assert "12"[..1] == "1";
    assert TrimAll(["ABC-12", "12"]) == ["ABC-12", "12"];
  }

  /** The release notes URL never ends up empty when the repository URL is known. */
  lemma ReleaseNotesURLNonEmpty(htmlURL: string, url: string, httpsURL: string, version: string)
    requires httpsURL != ""
    ensures ReleaseNotesURL(htmlURL, url, httpsURL, version) != ""
  {
  }

  /** Since the spec name is the non-empty chart-name placeholder, the repository fallback is never reached in Run. */
  lemma AppNameNeverRepository(gitInfoName: Option<string>, gitRepository: string)
    ensures AppName(gitInfoName, SpecName, gitRepository) != ""
    ensures gitInfoName.None? || gitInfoName.value == "" ==> AppName(gitInfoName, SpecName, gitRepository) == SpecName
  {
  }

  /** Stripping the version prefix happens once: "vv1" keeps one "v". */
  lemma CleanVersionOnce()
    ensures CleanVersion("v1.2.3") == "1.2.3"
    ensures CleanVersion("1.2.3") == "1.2.3"
  {
    assert "v1.2.3"[..1] == "v";
    assert "1.2.3"[..1] == "1";
  }

  /**
   * Across Run's whole commit loop each name goes to the tracker at most
   * once, and never one already in FoundIssueNames when the loop started.
   */
  lemma {:induction false} RunLooksUpOnce(s: Release, ctx: Context, kept: seq<Commit>)
    requires forall i :: 0 <= i < |s.lookedUp| ==> s.lookedUp[i] in s.found
    requires forall i, j :: 0 <= i < j < |s.lookedUp| ==> s.lookedUp[i] != s.lookedUp[j]
    ensures var f := AddedCommits(s, ctx, kept);
            s.found <= f.found && s.lookedUp <= f.lookedUp &&
            (forall i :: 0 <= i < |f.lookedUp| ==> f.lookedUp[i] in f.found) &&
            (forall i :: |s.lookedUp| <= i < |f.lookedUp| ==> f.lookedUp[i] !in s.found) &&
            (forall i, j :: 0 <= i < j < |f.lookedUp| ==> f.lookedUp[i] != f.lookedUp[j])
  {
    if kept != [] {
      var mid := AddedCommits(s, ctx, kept[..|kept| - 1]);
      RunLooksUpOnce(s, ctx, kept[..|kept| - 1]);
      var c := kept[|kept| - 1];
      var st := Lookup(mid.found, mid.lookedUp, [], mid.issues, mid.pullRequests, Pass);
      if ctx.hasIssues {
        var results := Candidates(ctx.matchesOf(RegexFor(ctx.kind), FullText(c.message, c.parentMessages)));
        LookedUpOnce(st, results, ctx.tracker, ctx.resolver);
      }
    }
  }

  /** A fresh run (the constructor's state) therefore sends every name to the tracker at most once. */
  lemma FreshRunLooksUpOnce(ctx: Context, kept: seq<Commit>)
    ensures var f := AddedCommits(Release({}, [], [], [], []), ctx, kept);
            forall i, j :: 0 <= i < j < |f.lookedUp| ==> f.lookedUp[i] != f.lookedUp[j]
  {
    RunLooksUpOnce(Release({}, [], [], [], []), ctx, kept);
  }

  /**
   * The as-written and the intended summaries differ only in the closer:
   * they agree when the issue has no ClosedBy user or was closed by its
   * author, and when both succeed they agree in every other field.
   */
  lemma SummariesDifferOnlyInCloser(id: string, issue: Issue, r: Resolver)
    ensures issue.closedBy.None? || issue.closedBy == issue.user ==>
              Summarize(id, issue, r) == SummarizeIntended(id, issue, r)
    ensures Summarize(id, issue, r).Ok? && SummarizeIntended(id, issue, r).Ok? ==>
              Summarize(id, issue, r).value.(closedBy := UserDetails("")) ==
              SummarizeIntended(id, issue, r).value.(closedBy := UserDetails(""))
    ensures SummarizeIntended(id, issue, r).Ok? ==> Summarize(id, issue, r).Ok?
  {
  }

  /** As written, an issue closed by someone other than its author records the author as the closer. */
  lemma ClosedByRecordsAuthor(author: GitUser, closer: GitUser, r: Resolver)
    requires r.resolve(author) == Ok(Some(UserDetails("alice")))
    requires r.resolve(closer) == Ok(Some(UserDetails("bob")))
    ensures var issue := Issue("", "", "", Some(author), "", Some(closer), None, [], None, false);
            ClosedByAsWritten(issue, r) == Ok(UserDetails("alice")) &&
            ClosedBy(issue, r) == Ok(UserDetails("bob"))
  {
  }
}
