/**
 * `jx update webhooks` (pkg/jx/cmd/update_webhooks.go): which existing
 * webhooks match, what each matching hook is updated to, and which
 * repositories are visited. The git provider's hook and repository lists are
 * results passed in; the UpdateWebHook calls the command issues are returned
 * as a sequence.
 */
module UpdateWebhooks {
  import opened Wrappers
  import opened Strings

  datatype UpdateWebhooksOptions = UpdateWebhooksOptions(
    org: string, repo: string, exactHookMatch: bool, previousHookUrl: string, dryRun: bool)

  /** A listed webhook: only its URL is consulted. */
  datatype WebHook = WebHook(url: string)

  /** gits.GitWebHookArguments as passed to UpdateWebHook; Secret is "" when not set. */
  datatype WebHookArgs = WebHookArgs(owner: string, repo: string, url: string, secret: string)

  /** matches: the previous hook URL, when given, overrides both other rules. */
  predicate Matches(o: UpdateWebhooksOptions, webhookURL: string, hook: WebHook)
  {
    if o.previousHookUrl != "" then o.previousHookUrl == hook.url
    else if o.exactHookMatch then webhookURL == hook.url
    else Contains(hook.url, "hook.jx")
  }

  /** The arguments of the update issued for one matching hook. */
  function UpdateArgs(o: UpdateWebhooksOptions, repoName: string, webhookURL: string, isProw: bool, hmac: string): WebHookArgs
  {
    WebHookArgs(o.org, repoName, webhookURL, if isProw then hmac else "")
  }

  /** The UpdateWebHook calls updateRepoHook issues for a list of hooks. */
  function HookUpdates(o: UpdateWebhooksOptions, repoName: string, webhookURL: string, isProw: bool, hmac: string,
                       hooks: seq<WebHook>): (r: seq<WebHookArgs>)
    ensures o.dryRun ==> r == []
    ensures |r| <= |hooks|
    ensures forall a :: a in r ==> a == UpdateArgs(o, repoName, webhookURL, isProw, hmac)
  {
    if hooks == [] then []
    else
      var rest := HookUpdates(o, repoName, webhookURL, isProw, hmac, hooks[..|hooks| - 1]);
      if Matches(o, webhookURL, hooks[|hooks| - 1]) && !o.dryRun
      then rest + [UpdateArgs(o, repoName, webhookURL, isProw, hmac)]
      else rest
  }

  /** The number of hooks that match. */
  function MatchCount(o: UpdateWebhooksOptions, webhookURL: string, hooks: seq<WebHook>): nat
  {
    if hooks == [] then 0
    else MatchCount(o, webhookURL, hooks[..|hooks| - 1]) + if Matches(o, webhookURL, hooks[|hooks| - 1]) then 1 else 0
  }

  /**
   * updateRepoHook. `hooks` is git.ListWebHooks(org, repoName); the errors of
   * the UpdateWebHook calls are ignored, as in the source.
   */
  method UpdateRepoHook(o: UpdateWebhooksOptions, repoName: string, webhookURL: string, isProw: bool, hmac: string,
                        hooks: Result<seq<WebHook>>)
    returns (err: Outcome, updates: seq<WebHookArgs>)
    ensures hooks.Err? ==> err == Fail("unable to list webhooks: " + hooks.msg) && updates == []
    ensures hooks.Ok? ==> err == Pass && updates == HookUpdates(o, repoName, webhookURL, isProw, hmac, hooks.value)
  {
    updates := [];
    if hooks.Err? {
      return Fail("unable to list webhooks: " + hooks.msg), [];
    }
    var webhooks := hooks.value;
    var i := 0;
    while i < |webhooks|
      invariant 0 <= i <= |webhooks|
      invariant updates == HookUpdates(o, repoName, webhookURL, isProw, hmac, webhooks[..i])
    {
      assert webhooks[..i + 1][..i] == webhooks[..i];
      if Matches(o, webhookURL, webhooks[i]) {
        var args := UpdateArgs(o, repoName, webhookURL, isProw, hmac);
        if !o.dryRun {
          updates := updates + [args];
        }
      }
      i := i + 1;
    }
    assert webhooks[..i] == webhooks;
    err := Pass;
  }

  /** The updates for every repository in order, each repository's own list preceding the next. */
  function RepoUpdates(o: UpdateWebhooksOptions, repos: seq<string>, webhookURL: string, isProw: bool, hmac: string,
                       hooksOf: string -> Result<seq<WebHook>>): seq<WebHookArgs>
  {
    if repos == [] then []
    else
      var last := repos[|repos| - 1];
      var hooks := hooksOf(last);
      RepoUpdates(o, repos[..|repos| - 1], webhookURL, isProw, hmac, hooksOf) +
      (if hooks.Ok? then HookUpdates(o, last, webhookURL, isProw, hmac, hooks.value) else [])
  }

  /**
   * Run once the webhook endpoint, the prow flag and the hmac token are
   * known. A named repository is the only one visited; otherwise every
   * repository `listRepositories` returns for the org is. The error an
   * updateRepoHook returns is dropped, as in the source.
   */
  method Run(o: UpdateWebhooksOptions, webhookURL: string, isProw: bool, hmac: string,
             listRepositories: Result<seq<string>>, hooksOf: string -> Result<seq<WebHook>>)
    returns (err: Outcome, updates: seq<WebHookArgs>)
    ensures o.repo != "" ==> err == Pass && updates == RepoUpdates(o, [o.repo], webhookURL, isProw, hmac, hooksOf)
    ensures o.repo == "" && listRepositories.Err? ==>
              err == Fail("unable to list repositories: " + listRepositories.msg) && updates == []
    ensures o.repo == "" && listRepositories.Ok? ==>
              err == Pass && updates == RepoUpdates(o, listRepositories.value, webhookURL, isProw, hmac, hooksOf)
  {
    err := Pass;
    if o.repo != "" {
      var _, u := UpdateRepoHook(o, o.repo, webhookURL, isProw, hmac, hooksOf(o.repo));
      assert [o.repo][..0] == [];
      return Pass, u;
    }
    if listRepositories.Err? {
      return Fail("unable to list repositories: " + listRepositories.msg), [];
    }
    var repos := listRepositories.value;
    updates := [];
    var i := 0;
    while i < |repos|
      invariant 0 <= i <= |repos|
      invariant updates == RepoUpdates(o, repos[..i], webhookURL, isProw, hmac, hooksOf)
    {
      assert repos[..i + 1][..i] == repos[..i];
      var _, u := UpdateRepoHook(o, repos[i], webhookURL, isProw, hmac, hooksOf(repos[i]));
      updates := updates + u;
      i := i + 1;
    }
    assert repos[..i] == repos;
  }
}

module UpdateWebhooksProperties {
  import opened Wrappers
  import opened Strings
  import opened UpdateWebhooks

  /** A previous hook URL decides by equality alone, whatever ExactHookMatch says. */
  lemma PreviousUrlWins(o: UpdateWebhooksOptions, webhookURL: string, hook: WebHook)
    requires o.previousHookUrl != ""
    ensures Matches(o, webhookURL, hook) <==> hook.url == o.previousHookUrl
    ensures Matches(o.(exactHookMatch := !o.exactHookMatch), webhookURL, hook) == Matches(o, webhookURL, hook)
  {
  }

  /** Without one, exact matching compares with the new endpoint and loose matching looks for "hook.jx". */
  lemma MatchWithoutPrevious(o: UpdateWebhooksOptions, webhookURL: string, hook: WebHook)
    requires o.previousHookUrl == ""
    ensures o.exactHookMatch ==> (Matches(o, webhookURL, hook) <==> hook.url == webhookURL)
    ensures !o.exactHookMatch ==> (Matches(o, webhookURL, hook) <==> Contains(hook.url, "hook.jx"))
  {
  }

  /** Outside a dry run every matching hook gets exactly one update, and no other hook gets one. */
  lemma {:induction false} OneUpdatePerMatch(o: UpdateWebhooksOptions, repoName: string, webhookURL: string, isProw: bool,
                                             hmac: string, hooks: seq<WebHook>)
    requires !o.dryRun
    ensures |HookUpdates(o, repoName, webhookURL, isProw, hmac, hooks)| == MatchCount(o, webhookURL, hooks)
  {
    if hooks != [] {
      OneUpdatePerMatch(o, repoName, webhookURL, isProw, hmac, hooks[..|hooks| - 1]);
    }
  }

  /** Each update points the hook at the new endpoint, owned by the org, with the hmac secret only under prow. */
  lemma UpdateContents(o: UpdateWebhooksOptions, repoName: string, webhookURL: string, isProw: bool, hmac: string,
                       hooks: seq<WebHook>, a: WebHookArgs)
    requires a in HookUpdates(o, repoName, webhookURL, isProw, hmac, hooks)
    ensures a.url == webhookURL && a.owner == o.org && a.repo == repoName
    ensures isProw ==> a.secret == hmac
    ensures !isProw ==> a.secret == ""
  {
  }

  /** A dry run issues no update anywhere. */
  lemma {:induction false} DryRunUpdatesNothing(o: UpdateWebhooksOptions, repos: seq<string>, webhookURL: string,
                                                isProw: bool, hmac: string, hooksOf: string -> Result<seq<WebHook>>)
    requires o.dryRun
    ensures RepoUpdates(o, repos, webhookURL, isProw, hmac, hooksOf) == []
  {
    if repos != [] {
      DryRunUpdatesNothing(o, repos[..|repos| - 1], webhookURL, isProw, hmac, hooksOf);
    }
  }

  /** Every update is for a repository of the visited list. */
  lemma {:induction false} UpdatesStayInRepos(o: UpdateWebhooksOptions, repos: seq<string>, webhookURL: string,
                                              isProw: bool, hmac: string, hooksOf: string -> Result<seq<WebHook>>,
                                              a: WebHookArgs)
    requires a in RepoUpdates(o, repos, webhookURL, isProw, hmac, hooksOf)
    ensures a.repo in repos
  {
    var init := repos[..|repos| - 1];
    var last := repos[|repos| - 1];
    if a in RepoUpdates(o, init, webhookURL, isProw, hmac, hooksOf) {
      UpdatesStayInRepos(o, init, webhookURL, isProw, hmac, hooksOf, a);
      assert a.repo in init;
    } else {
      assert a.repo == last;
    }
  }
}
