/**
 * The shared helpers of jx's CommonOptions: retrying a call, reading the
 * job name and build number from the environment, splitting the pull-secret
 * flag, choosing an auth server from flags and configuration, and caching
 * the Kubernetes client.
 */
module Common {
  import opened Wrappers
  import opened Strings

  // ----- retry / retryQuiet -----

  /** A line written to the log: `log.Infof`/`log.Info` text, or `log.Blank`. */
  datatype LogLine = Info(text: string) | Blank

  /** How many calls `retry` can make: the loop always runs at least once. */
  function MaxCalls(attempts: int): (n: nat)
    ensures n >= 1 && n >= attempts
  {
    if attempts < 1 then 1 else attempts
  }

  /** The text of an error (`%s` of an error value); a success has none. */
  function ErrorText(o: Outcome): string
  {
    if o.Fail? then o.msg else ""
  }

  function AfterAttempts(attempts: int, last: string): Outcome
  {
    Fail("after " + IntToString(attempts) + " attempts, last error: " + last)
  }

  /**
   * What the loop of `retry` promises, with `call(i)` the outcome of the
   * i-th call: it made `calls` calls, every call but the last failed, and
   * either the last one succeeded and the answer is success, or it used all
   * its attempts and reports the number of attempts with the last error.
   */
  predicate RetryResult(attempts: int, call: nat -> Outcome, err: Outcome, calls: nat)
  {
    && 1 <= calls <= MaxCalls(attempts)
    && (forall j :: 0 <= j < calls - 1 ==> call(j).Fail?)
    && (err.Pass? ==> call(calls - 1).Pass?)
    && (err.Fail? ==>
          calls == MaxCalls(attempts) && call(calls - 1).Fail?
          && err == AfterAttempts(attempts, call(calls - 1).msg))
  }

  /** The retry loop; `call(i)` is the outcome of its i-th call. */
  method Retry(attempts: int, call: nat -> Outcome) returns (err: Outcome, calls: nat, log: seq<LogLine>)
    ensures RetryResult(attempts, call, err, calls)
    ensures |log| == calls - 1
    ensures forall j :: 0 <= j < |log| ==> log[j] == Info("retrying after error:" + call(j).msg + "\n")
  {
    var i: nat := 0;
    log := [];
    while true
      invariant i < MaxCalls(attempts)
      invariant forall j :: 0 <= j < i ==> call(j).Fail?
      invariant |log| == i
      invariant forall j :: 0 <= j < i ==> log[j] == Info("retrying after error:" + call(j).msg + "\n")
      decreases MaxCalls(attempts) - i
    {
      err := call(i);
      if err == Pass {
        calls := i + 1;
        return;
      }
      if i >= attempts - 1 {
        break;
      }
      log := log + [Info("retrying after error:" + err.msg + "\n")];
      i := i + 1;
    }
    calls := i + 1;
    err := AfterAttempts(attempts, err.msg);
  }

  /** The `lastMessage` and `dot` variables of retryQuiet and what it has logged so far. */
  datatype QuietState = QuietState(lastMessage: string, dot: bool, lines: seq<LogLine>)

  /** One failed, not final, call of retryQuiet: a repeated message logs a dot. */
  function QuietStep(s: QuietState, error: string): (t: QuietState)
    ensures |t.lines| > |s.lines|
  {
    var message := "retrying after error: " + error;
    if s.lastMessage == message then QuietState(s.lastMessage, true, s.lines + [Info(".")])
    else QuietState(message, false, s.lines + (if s.dot then [Blank] else []) + [Info(message + "\n")])
  }

  /** The state after the first `n` calls failed. */
  function QuietAfter(call: nat -> Outcome, n: nat): QuietState
  {
    if n == 0 then QuietState("", false, []) else QuietStep(QuietAfter(call, n - 1), ErrorText(call(n - 1)))
  }

  /** The log of a whole retryQuiet run: a success after dots ends the dotted line. */
  function QuietLog(call: nat -> Outcome, err: Outcome, calls: nat): seq<LogLine>
    requires calls >= 1
  {
    var s := QuietAfter(call, calls - 1);
    s.lines + (if err.Pass? && s.dot then [Blank] else [])
  }

  /** retryQuiet: the loop of retry, logging a repeated error as a dot. */
  method RetryQuiet(attempts: int, call: nat -> Outcome) returns (err: Outcome, calls: nat, log: seq<LogLine>)
    ensures RetryResult(attempts, call, err, calls)
    ensures log == QuietLog(call, err, calls)
  {
    var lastMessage := "";
    var dot := false;
    log := [];
    var i: nat := 0;
    while true
      invariant i < MaxCalls(attempts)
      invariant forall j :: 0 <= j < i ==> call(j).Fail?
      invariant QuietAfter(call, i) == QuietState(lastMessage, dot, log)
      decreases MaxCalls(attempts) - i
    {
      err := call(i);
      if err == Pass {
        if dot {
          log := log + [Blank];
        }
        calls := i + 1;
        return;
      }
      if i >= attempts - 1 {
        break;
      }
      var message := "retrying after error: " + err.msg;
      if lastMessage == message {
        log := log + [Info(".")];
        dot := true;
      } else {
        lastMessage := message;
        if dot {
          dot := false;
          log := log + [Blank];
        }
        log := log + [Info(lastMessage + "\n")];
      }
      i := i + 1;
    }
    calls := i + 1;
    err := AfterAttempts(attempts, err.msg);
  }

  // ----- the environment -----

  /** os.Getenv: an unset variable reads as "". */
  type Environment = string -> string

  /** getJobName. */
  function JobName(env: Environment): (r: string)
    ensures env("REPO_OWNER") != "" && env("REPO_NAME") != "" && env("BRANCH_NAME") != "" ==>
              r == env("REPO_OWNER") + "/" + env("REPO_NAME") + "/" + env("BRANCH_NAME")
    ensures !(env("REPO_OWNER") != "" && env("REPO_NAME") != "" && env("BRANCH_NAME") != "") ==> r == env("JOB_NAME")
  {
    var owner := env("REPO_OWNER");
    var repo := env("REPO_NAME");
    var branch := env("BRANCH_NAME");
    if owner != "" && repo != "" && branch != "" then owner + "/" + repo + "/" + branch
    else env("JOB_NAME")
  }

  /** getBuildNumber. */
  function BuildNumber(env: Environment): (r: string)
    ensures r == "" <==> env("JX_BUILD_NUMBER") == "" && env("BUILD_NUMBER") == "" && env("BUILD_ID") == ""
    ensures r != "" ==> r in [env("JX_BUILD_NUMBER"), env("BUILD_NUMBER"), env("BUILD_ID")]
    ensures env("JX_BUILD_NUMBER") != "" ==> r == env("JX_BUILD_NUMBER")
    ensures env("JX_BUILD_NUMBER") == "" && env("BUILD_NUMBER") != "" ==> r == env("BUILD_NUMBER")
  {
    if env("JX_BUILD_NUMBER") != "" then env("JX_BUILD_NUMBER")
    else if env("BUILD_NUMBER") != "" then env("BUILD_NUMBER")
    else env("BUILD_ID")
  }

  /** GetImagePullSecrets: the --pull-secrets flag split on white space only. */
  function ImagePullSecrets(pullSecrets: string): (r: seq<string>)
    ensures forall i :: 0 <= i < |r| ==> r[i] != "" && NoSpace(r[i])
  {
    Fields(pullSecrets)
  }

  // ----- findServer -----

  const OptionServerName := "name"
  const OptionServerURL := "url"

  /** An auth.AuthServer; its users are not needed here. */
  datatype AuthServer = AuthServer(url: string, name: string, kind: string)

  /** An auth.AuthConfig, with the fields findServer reads. */
  datatype AuthConfig = AuthConfig(servers: seq<AuthServer>, currentServer: string)

  datatype ServerFlags = ServerFlags(serverName: string, serverURL: string)
  {
    predicate IsEmpty()
    {
      serverName == "" && serverURL == ""
    }
  }

  /**
   * The calls findServer makes that are not part of this model:
   * GetOrCreateServerName(url, name, kind), util.InvalidOption(option, value,
   * allowed) and the prompt util.PickNameWithDefault(names, default).
   */
  datatype Collaborators = Collaborators(
    getOrCreate: (string, string, string) -> AuthServer,
    invalidOption: (string, string, seq<string>) -> string,
    pickName: (seq<string>, string) -> Result<string>)

  /** The first server whose `key` is `k`: the loop GetServer and GetServerByName share. */
  function FirstServer(servers: seq<AuthServer>, key: AuthServer -> string, k: string): (r: Option<AuthServer>)
    ensures r.Some? ==> r.value in servers && key(r.value) == k
    ensures r.None? <==> forall i :: 0 <= i < |servers| ==> key(servers[i]) != k
  {
    if servers == [] then None
    else if key(servers[0]) == k then Some(servers[0])
    else FirstServer(servers[1..], key, k)
  }

  /** The first server with the given URL (AuthConfig.GetServer). */
  function GetServer(servers: seq<AuthServer>, url: string): (r: Option<AuthServer>)
    ensures r.Some? ==> r.value in servers && r.value.url == url
    ensures r.None? <==> forall i :: 0 <= i < |servers| ==> servers[i].url != url
  {
    FirstServer(servers, (s: AuthServer) => s.url, url)
  }

  /** The first server with the given name (AuthConfig.GetServerByName). */
  function GetServerByName(servers: seq<AuthServer>, name: string): (r: Option<AuthServer>)
    ensures r.Some? ==> r.value in servers && r.value.name == name
    ensures r.None? <==> forall i :: 0 <= i < |servers| ==> servers[i].name != name
  {
    FirstServer(servers, (s: AuthServer) => s.name, name)
  }

  function ServerURLs(servers: seq<AuthServer>): (r: seq<string>)
    ensures |r| == |servers| && forall i :: 0 <= i < |r| ==> r[i] == servers[i].url
  {
    seq(|servers|, i requires 0 <= i < |servers| => servers[i].url)
  }

  function ServerNames(servers: seq<AuthServer>): (r: seq<string>)
    ensures |r| == |servers| && forall i :: 0 <= i < |r| ==> r[i] == servers[i].name
  {
    seq(|servers|, i requires 0 <= i < |servers| => servers[i].name)
  }

  const MultipleServers := "Multiple servers found. Please specify one via the " + OptionServerName + " option"

  /** The server the current-server setting selects: consulted in batch mode only. */
  function CurrentByName(batchMode: bool, config: AuthConfig): Option<AuthServer>
  {
    if config.currentServer != "" && batchMode then GetServerByName(config.servers, config.currentServer) else None
  }

  /** The default offered by the prompt: the name of the server whose URL is the current server. */
  function PromptDefault(config: AuthConfig): string
  {
    if config.currentServer != "" && GetServer(config.servers, config.currentServer).Some? then
      GetServer(config.servers, config.currentServer).value.name
    else ""
  }

  /** findServer, from the flags on. */
  function FindServer(batchMode: bool, config: AuthConfig, flags: ServerFlags, kind: string,
                      missingServerDescription: string, lazyCreate: bool, ext: Collaborators): (r: Result<AuthServer>)
    ensures flags.serverURL != "" && GetServer(config.servers, flags.serverURL).Some? ==>
              r == Ok(GetServer(config.servers, flags.serverURL).value)
    ensures flags.serverURL != "" && lazyCreate ==> r.Ok?
    ensures flags.serverURL != "" && !lazyCreate && r.Ok? ==> r.value in config.servers && r.value.url == flags.serverURL
  {
    var byURL := if flags.serverURL != "" then GetServer(config.servers, flags.serverURL) else None;
    if flags.serverURL != "" && byURL.None? then
      if lazyCreate then Ok(ext.getOrCreate(flags.serverURL, flags.serverName, kind))
      else Err(ext.invalidOption(OptionServerURL, flags.serverURL, ServerURLs(config.servers)))
    else if byURL.Some? then Ok(byURL.value)
    else if flags.serverName != "" then
      var byName :=
        if lazyCreate then Some(ext.getOrCreate(flags.serverURL, flags.serverName, kind))
        else GetServerByName(config.servers, flags.serverName);
      if byName.None? then Err(ext.invalidOption(OptionServerName, flags.serverName, ServerNames(config.servers)))
      else Ok(byName.value)
    else
      FindUnflagged(batchMode, config, kind, missingServerDescription, ext)
  }

  /** The rest of findServer, once neither flag has selected a server. */
  function FindUnflagged(batchMode: bool, config: AuthConfig, kind: string,
                         missingServerDescription: string, ext: Collaborators): Result<AuthServer>
  {
    var current := CurrentByName(batchMode, config);
    if current.Some? then Ok(current.value)
    else if |config.servers| == 1 then Ok(config.servers[0])
    else if |config.servers| > 1 then
      if batchMode then Err(MultipleServers)
      else
        var picked := ext.pickName(ServerNames(config.servers), PromptDefault(config));
        if picked.Err? then Err(picked.msg)
        else
          var chosen := GetServerByName(config.servers, picked.value);
          if chosen.None? then Err("Could not find the server for name " + picked.value) else Ok(chosen.value)
    else
      Err("Could not find a " + kind + ". " + missingServerDescription)
  }

  // ----- the cached Kubernetes client -----

  /** A Kubernetes client handle. */
  datatype Client = Client(id: nat)

  class CommonOptions {
    var devNamespace: string
    var currentNamespace: string
    var kubeClientCached: Option<Client>

    /** NewCommonOptions: both namespaces start as the dev namespace. */
    constructor (devNamespace: string)
      ensures this.devNamespace == devNamespace && currentNamespace == devNamespace
      ensures kubeClientCached == None
    {
      this.devNamespace := devNamespace;
      currentNamespace := devNamespace;
      kubeClientCached := None;
    }

    /** SetDevNamespace: switches both namespaces and drops the cached client. */
    method SetDevNamespace(ns: string)
      modifies this
      ensures devNamespace == ns && currentNamespace == ns && kubeClientCached == None
    {
      devNamespace := ns;
      currentNamespace := ns;
      kubeClientCached := None;
    }

    /**
     * KubeClient; `factory` is what Factory.CreateClient would answer (a
     * client and its current namespace), and `created` says whether it was
     * asked.
     */
    method KubeClient(factory: Result<(Client, string)>) returns (r: Result<(Client, string)>, created: bool)
      modifies this
      ensures created <==> old(kubeClientCached).None?
      ensures devNamespace == old(devNamespace)
      ensures old(kubeClientCached).Some? ==>
                r == Ok((old(kubeClientCached).value, old(currentNamespace)))
                && kubeClientCached == old(kubeClientCached) && currentNamespace == old(currentNamespace)
      ensures old(kubeClientCached).None? && factory.Err? ==>
                r == Err(factory.msg) && kubeClientCached == None && currentNamespace == old(currentNamespace)
      ensures old(kubeClientCached).None? && factory.Ok? ==>
                r == factory && kubeClientCached == Some(factory.value.0) && currentNamespace == factory.value.1
    {
      created := kubeClientCached.None?;
      if kubeClientCached.None? {
        if factory.Err? {
          return Err(factory.msg), created;
        }
        kubeClientCached := Some(factory.value.0);
        currentNamespace := factory.value.1;
      }
      r := Ok((kubeClientCached.value, currentNamespace));
    }
  }
}

module CommonProperties {
  import opened Wrappers
  import opened Strings
  import opened Common

  /** Two runs that both satisfy the retry contract made the same calls and answered the same. */
  lemma RetryResultUnique(attempts: int, call: nat -> Outcome, e1: Outcome, n1: nat, e2: Outcome, n2: nat)
    requires RetryResult(attempts, call, e1, n1) && RetryResult(attempts, call, e2, n2)
    ensures n1 == n2 && e1 == e2
  {
  }

  /** A retry succeeds exactly when one of its first max(attempts, 1) calls succeeds. */
  lemma RetrySucceedsIff(attempts: int, call: nat -> Outcome, err: Outcome, calls: nat)
    requires RetryResult(attempts, call, err, calls)
    ensures err.Pass? <==> exists j :: 0 <= j < MaxCalls(attempts) && call(j).Pass?
  {
    if err.Pass? {
      assert call(calls - 1).Pass?;
    } else {
      forall j | 0 <= j < MaxCalls(attempts)
        ensures call(j).Fail?
      {
        if j < calls - 1 {
        } else {
          assert j == calls - 1;
        }
      }
    }
  }

  /** Zero or negative attempts still make exactly one call, and the error reports the count as given. */
  lemma RetryNoAttempts(attempts: int, call: nat -> Outcome, err: Outcome, calls: nat)
    requires attempts <= 0 && RetryResult(attempts, call, err, calls)
    requires call(0).Fail?
    ensures calls == 1 && err == Fail("after " + IntToString(attempts) + " attempts, last error: " + call(0).msg)
    ensures attempts == 0 ==> IntToString(attempts) == "0"
  {
    assert DigitChar(0) == '0';
  }

  function Dots(n: nat): (r: seq<LogLine>)
    ensures |r| == n && forall i :: 0 <= i < n ==> r[i] == Info(".")
  {
    if n == 0 then [] else Dots(n - 1) + [Info(".")]
  }

  /** The same error over and over is logged once, then once a dot per repetition. */
  lemma {:induction false} QuietRepeatedError(call: nat -> Outcome, e: string, n: nat)
    requires n >= 1
    requires forall j :: 0 <= j < n ==> call(j) == Fail(e)
    ensures QuietAfter(call, n)
              == QuietState("retrying after error: " + e, n > 1, [Info("retrying after error: " + e + "\n")] + Dots(n - 1))
  {
    if n > 1 {
      QuietRepeatedError(call, e, n - 1);
    }
  }

  /** Every full line retryQuiet logs is a retry message of an earlier failed call. */
  lemma {:induction false} QuietLinesAreMessages(call: nat -> Outcome, n: nat, k: nat)
    requires k < |QuietAfter(call, n).lines| && QuietAfter(call, n).lines[k].Info?
    requires QuietAfter(call, n).lines[k].text != "."
    ensures exists j :: 0 <= j < n && QuietAfter(call, n).lines[k].text == "retrying after error: " + ErrorText(call(j)) + "\n"
  {
    var s := QuietAfter(call, n - 1);
    if k < |s.lines| {
      QuietLinesAreMessages(call, n - 1, k);
    } else {
      assert QuietAfter(call, n).lines[k].text == "retrying after error: " + ErrorText(call(n - 1)) + "\n";
    }
  }

  /** With all three repository variables set, the job name splits back into owner, repository and branch. */
  lemma JobNameSplits(env: Environment)
    requires env("REPO_OWNER") != "" && env("REPO_NAME") != "" && env("BRANCH_NAME") != ""
    requires '/' !in env("REPO_OWNER") && '/' !in env("REPO_NAME") && '/' !in env("BRANCH_NAME")
    ensures Split(JobName(env), '/') == [env("REPO_OWNER"), env("REPO_NAME"), env("BRANCH_NAME")]
  {
    var o, r, b := env("REPO_OWNER"), env("REPO_NAME"), env("BRANCH_NAME");
    assert JobName(env) == o + ['/'] + (r + ['/'] + b);
    SplitHead(o, '/', r + ['/'] + b);
    SplitHead(r, '/', b);
    SplitWithoutSeparator(b, '/');
  }

  lemma {:induction false} SplitHead(a: string, c: char, rest: string)
    requires c !in a
    ensures Split(a + [c] + rest, c) == [a] + Split(rest, c)
  {
    if a != [] {
      assert (a + [c] + rest)[1..] == a[1..] + [c] + rest;
      SplitHead(a[1..], c, rest);
      assert [a[0]] + a[1..] == a;
    }
  }

  /** Without the repository variables the job name is JOB_NAME, possibly "". */
  lemma JobNameFallsBack(env: Environment)
    requires env("REPO_OWNER") == ""
    ensures JobName(env) == env("JOB_NAME")
  {
  }

  /** Single-space-separated tokens come back as they are: commas stay inside the tokens. */
  lemma {:induction false} PullSecretsRoundTrip(tokens: seq<string>)
    requires forall i :: 0 <= i < |tokens| ==> tokens[i] != "" && NoSpace(tokens[i])
    ensures ImagePullSecrets(JoinWith(tokens, " ")) == tokens
  {
    if |tokens| == 1 {
      FieldsWord(tokens[0], "");
      assert tokens[0] + "" == tokens[0];
    } else if |tokens| > 1 {
      var rest := JoinWith(tokens[1..], " ");
      PullSecretsRoundTrip(tokens[1..]);
      FieldsCons(tokens[0], rest);
      assert [tokens[0]] + tokens[1..] == tokens;
    }
  }

  lemma {:induction false} WordOf(w: string, rest: string)
    requires NoSpace(w) && (rest == "" || IsSpace(rest[0]))
    ensures Word(w + rest) == w
  {
    if w != [] {
      assert (w + rest)[1..] == w[1..] + rest;
      WordOf(w[1..], rest);
    }
  }

  /** A word followed by nothing or by a space and more text is the first field. */
  lemma FieldsWord(w: string, rest: string)
    requires w != "" && NoSpace(w) && (rest == "" || rest[0] == ' ')
    ensures Fields(w + rest) == [w] + Fields(if rest == "" then "" else rest[1..])
  {
    WordOf(w, rest);
    assert (w + rest)[|w|..] == rest;
  }

  /** A word, a space and the rest split into the word and the fields of the rest. */
  lemma FieldsCons(w: string, rest: string)
    requires w != "" && NoSpace(w)
    ensures Fields(w + " " + rest) == [w] + Fields(rest)
  {
    FieldsWord(w, " " + rest);
    assert (" " + rest)[1..] == rest;
    assert w + " " + rest == w + (" " + rest);
  }

  lemma PullSecretsExample()
    ensures ImagePullSecrets("foo, bar, baz") == ["foo,", "bar,", "baz"]
  {
    var t := ["foo,", "bar,", "baz"];
    assert JoinWith(t, " ") == "foo, bar, baz";
    PullSecretsRoundTrip(t);
  }

  // ----- findServer -----

  /** A URL flag naming no configured server is an InvalidOption error, unless servers are created lazily. */
  lemma UnknownURLIsInvalid(batchMode: bool, config: AuthConfig, flags: ServerFlags, kind: string, desc: string, ext: Collaborators)
    requires flags.serverURL != "" && forall i :: 0 <= i < |config.servers| ==> config.servers[i].url != flags.serverURL
    ensures FindServer(batchMode, config, flags, kind, desc, false, ext)
              == Err(ext.invalidOption("url", flags.serverURL, ServerURLs(config.servers)))
    ensures FindServer(batchMode, config, flags, kind, desc, true, ext)
              == Ok(ext.getOrCreate(flags.serverURL, flags.serverName, kind))
  {
  }

  /** A URL flag naming a configured server selects the first one with that URL. */
  lemma KnownURLWins(batchMode: bool, config: AuthConfig, flags: ServerFlags, kind: string, desc: string, lazy: bool, ext: Collaborators, k: nat)
    requires k < |config.servers| && config.servers[k].url == flags.serverURL != ""
    requires forall i :: 0 <= i < k ==> config.servers[i].url != flags.serverURL
    ensures FindServer(batchMode, config, flags, kind, desc, lazy, ext) == Ok(config.servers[k])
  {
    FirstByURL(config.servers, flags.serverURL, k);
  }

  lemma {:induction false} FirstByURL(servers: seq<AuthServer>, url: string, k: nat)
    requires k < |servers| && servers[k].url == url
    requires forall i :: 0 <= i < k ==> servers[i].url != url
    ensures GetServer(servers, url) == Some(servers[k])
  {
    if k > 0 {
      FirstByURL(servers[1..], url, k - 1);
    }
  }

  /** Outside batch mode the current server only seeds the prompt's default, so with at most one server it does not matter. */
  lemma CurrentServerIgnoredOutsideBatch(config: AuthConfig, flags: ServerFlags, kind: string, desc: string, lazy: bool, ext: Collaborators, other: string)
    requires |config.servers| <= 1
    ensures FindServer(false, config, flags, kind, desc, lazy, ext)
              == FindServer(false, config.(currentServer := other), flags, kind, desc, lazy, ext)
  {
  }

  /** With no flags, one configured server is chosen unless a batch-mode current server names another. */
  lemma SingleServerChosen(batchMode: bool, config: AuthConfig, flags: ServerFlags, kind: string, desc: string, lazy: bool, ext: Collaborators)
    requires flags.IsEmpty() && |config.servers| == 1
    requires !batchMode || config.currentServer == "" || config.currentServer == config.servers[0].name
    ensures FindServer(batchMode, config, flags, kind, desc, lazy, ext) == Ok(config.servers[0])
  {
  }

  /** In batch mode, several servers and nothing selected is an error. */
  lemma BatchNeedsAName(config: AuthConfig, flags: ServerFlags, kind: string, desc: string, lazy: bool, ext: Collaborators)
    requires flags.IsEmpty() && |config.servers| > 1
    requires forall i :: 0 <= i < |config.servers| ==> config.servers[i].name != config.currentServer
    ensures FindServer(true, config, flags, kind, desc, lazy, ext) == Err("Multiple servers found. Please specify one via the name option")
  {
  }

  /** With no servers and no flags the answer is the "Could not find a <kind>" error. */
  lemma NoServersIsError(batchMode: bool, config: AuthConfig, flags: ServerFlags, kind: string, desc: string, lazy: bool, ext: Collaborators)
    requires flags.IsEmpty() && config.servers == []
    ensures FindServer(batchMode, config, flags, kind, desc, lazy, ext) == Err("Could not find a " + kind + ". " + desc)
  {
  }

  /** Without lazy creation a server found is always one of the configured servers. */
  lemma FoundServerIsConfigured(batchMode: bool, config: AuthConfig, flags: ServerFlags, kind: string, desc: string, ext: Collaborators)
    requires FindServer(batchMode, config, flags, kind, desc, false, ext).Ok?
    ensures FindServer(batchMode, config, flags, kind, desc, false, ext).value in config.servers
  {
  }
}
