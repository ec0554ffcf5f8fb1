/**
 * `jx upgrade ingress`: which existing ingresses are deleted and recreated,
 * how the exposecontroller configuration is loaded, checked and asked for,
 * and when the webhooks are updated afterwards.
 */
module UpgradeIngress {
  import opened Wrappers
  import opened Strings

  const Exposecontroller := "exposecontroller"

  /** An ingress rule: the backend service names of its HTTP paths, or no HTTP section. */
  datatype Rule = Rule(http: Option<seq<string>>)

  /** An ingress, with the value of its generated-by annotation ("" when absent). */
  datatype Ingress = Ingress(name: string, namespace: string, generatedBy: string, rules: seq<Rule>)

  /** The fields of a kube.IngressConfig that the command reads and writes. */
  datatype IngressConfig = IngressConfig(
    email: string, tls: bool, exposer: string, domain: string, urlTemplate: string, issuer: string)

  /** The flags of the command that the modelled steps read. */
  datatype IngressFlags = IngressFlags(
    cluster: bool, namespaces: seq<string>, services: seq<string>, batchMode: bool, force: bool,
    configNamespace: string)

  predicate NamesService(rules: seq<Rule>, services: seq<string>)
  {
    exists i, j :: 0 <= i < |rules| && rules[i].http.Some? && 0 <= j < |rules[i].http.value|
                   && rules[i].http.value[j] in services
  }

  /** isIngressForServices: no filter accepts every ingress; rules without HTTP are skipped. */
  function IsIngressForServices(services: seq<string>, ingress: Ingress): (r: bool)
    ensures r <==> services == [] || NamesService(ingress.rules, services)
  {
    services == [] || AnyRuleNames(ingress.rules, services)
  }

  function AnyRuleNames(rules: seq<Rule>, services: seq<string>): (r: bool)
    ensures r <==> NamesService(rules, services)
  {
    if rules == [] then false
    else if rules[0].http.Some? && AnyPathNames(rules[0].http.value, services) then
      assert rules[0].http.value[IndexIn(rules[0].http.value, services)] in services;
      true
    else
      var r := AnyRuleNames(rules[1..], services);
      assert r ==> NamesService(rules, services) by {
        if r {
          var i, j :| 0 <= i < |rules[1..]| && rules[1..][i].http.Some? && 0 <= j < |rules[1..][i].http.value|
                      && rules[1..][i].http.value[j] in services;
          assert rules[i + 1] == rules[1..][i];
        }
      }
      assert NamesService(rules, services) ==> r by {
        if NamesService(rules, services) {
          var i, j :| 0 <= i < |rules| && rules[i].http.Some? && 0 <= j < |rules[i].http.value|
                      && rules[i].http.value[j] in services;
          if i != 0 {
            assert rules[1..][i - 1] == rules[i];
          }
        }
      }
      r
  }

  /** util.StringArrayIndex over the paths: whether some path names a filtered service. */
  function AnyPathNames(paths: seq<string>, services: seq<string>): (r: bool)
    ensures r <==> exists k :: 0 <= k < |paths| && paths[k] in services
  {
    if paths == [] then false
    else if paths[0] in services then true
    else
      var r := AnyPathNames(paths[1..], services);
      assert (exists k :: 0 <= k < |paths| && paths[k] in services) ==> r by {
        if exists k :: 0 <= k < |paths| && paths[k] in services {
          var k :| 0 <= k < |paths| && paths[k] in services;
          assert paths[1..][k - 1] == paths[k];
        }
      }
      r
  }

  function IndexIn(paths: seq<string>, services: seq<string>): (k: nat)
    requires exists k :: 0 <= k < |paths| && paths[k] in services
    ensures k < |paths| && paths[k] in services
  {
    if paths[0] in services then 0
    else
      assert exists k :: 0 <= k < |paths[1..]| && paths[1..][k] in services by {
        var k :| 0 <= k < |paths| && paths[k] in services;
        assert paths[1..][k - 1] == paths[k];
      }
      1 + IndexIn(paths[1..], services)
  }

  /** An ingress to recreate: generated by exposecontroller and passing the service filter. */
  predicate Qualifies(services: seq<string>, ing: Ingress)
  {
    ing.generatedBy == Exposecontroller && IsIngressForServices(services, ing)
  }

  /** The map of names to namespaces after the loop over one listing. */
  function AddIngresses(m: map<string, string>, ings: seq<Ingress>, services: seq<string>): (r: map<string, string>)
    ensures m.Keys <= r.Keys
    ensures forall i :: 0 <= i < |ings| && Qualifies(services, ings[i]) ==> ings[i].name in r
    ensures forall k :: k in r && k !in m ==> exists i :: 0 <= i < |ings| && Qualifies(services, ings[i]) && ings[i].name == k
  {
    if ings == [] then m
    else
      var last := ings[|ings| - 1];
      var before := AddIngresses(m, ings[..|ings| - 1], services);
      if Qualifies(services, last) then before[last.name := last.namespace] else before
  }

  function ListError(msg: string): Outcome
  {
    Fail("cannot list all ingresses in cluster: " + msg)
  }

  /**
   * The answers of the cluster: the ingresses of a namespace ("" for the
   * whole cluster), the current namespace, the cluster's namespaces and the
   * user's answer to the deletion prompt.
   */
  datatype ClusterView = ClusterView(
    list: string -> Result<seq<Ingress>>, currentNamespace: string, clusterNamespaces: seq<string>,
    confirmDelete: Result<bool>)

  /**
   * The loop over the --namespaces: the map so far, how many namespaces
   * were listed and whether a listing failed.
   */
  function ScanNamespaces(nss: seq<string>, view: ClusterView, services: seq<string>): (r: (map<string, string>, nat, Outcome))
    ensures r.1 <= |nss|
    ensures r.2.Pass? ==> r.1 == |nss|
  {
    if nss == [] then (map[], 0, Pass)
    else
      var (m, k, err) := ScanNamespaces(nss[..|nss| - 1], view, services);
      if err.Fail? then (m, k, err)
      else
        var listed := view.list(nss[|nss| - 1]);
        if listed.Err? then (m, k, ListError(listed.msg))
        else (AddIngresses(m, listed.value, services), k + 1, Pass)
  }

  const NotDeleted := "Not able to automatically delete existing ingress rules.  Either delete manually or change the scope the command should run in"

  /** The confirmation at the end: nothing to delete or batch mode needs none. */
  function ConfirmDeletion(m: map<string, string>, batchMode: bool, confirmDelete: Result<bool>): Outcome
  {
    if |m| == 0 || batchMode then Pass
    else if confirmDelete.Err? then Fail(confirmDelete.msg)
    else if !confirmDelete.value then Fail(NotDeleted)
    else Pass
  }

  /**
   * getExistingIngressRules as a value: the ingresses to delete, the
   * outcome, and the namespaces appended to TargetNamespaces.
   */
  function ExistingIngressRules(flags: IngressFlags, view: ClusterView): (map<string, string>, Outcome, seq<string>)
  {
    if flags.cluster then
      var listed := view.list("");
      if listed.Err? then (map[], ListError(listed.msg), [])
      else
        var m := AddIngresses(map[], listed.value, flags.services);
        (m, ConfirmDeletion(m, flags.batchMode, view.confirmDelete), view.clusterNamespaces)
    else if |flags.namespaces| > 0 then
      var (m, k, err) := ScanNamespaces(flags.namespaces, view, flags.services);
      if err.Fail? then (m, err, flags.namespaces[..k])
      else (m, ConfirmDeletion(m, flags.batchMode, view.confirmDelete), flags.namespaces)
    else
      var listed := view.list(view.currentNamespace);
      if listed.Err? then (map[], ListError(listed.msg), [])
      else
        var m := AddIngresses(map[], listed.value, flags.services);
        (m, ConfirmDeletion(m, flags.batchMode, view.confirmDelete), [view.currentNamespace])
  }

  /** checkEmtptyIngressConfig. */
  function CheckNotEmpty(value: string, name: string): (r: Outcome)
    ensures r.Fail? <==> value == ""
    ensures r.Fail? ==> r.msg == name + " config value must not be empty"
  {
    if value == "" then Fail(name + " config value must not be empty") else Pass
  }

  /** A URL template given on the command line is wrapped in double quotes unless already quoted. */
  function QuoteTemplate(t: string): (r: string)
    ensures t == "" || HasPrefix(t, "\"") || HasPrefix(t, "'") ==> r == t
    ensures t != "" && !HasPrefix(t, "\"") && !HasPrefix(t, "'") ==> r == "\"" + t + "\""
  {
    if t != "" && !HasPrefix(t, "\"") && !HasPrefix(t, "'") then "\"" + t + "\"" else t
  }

  /** The configuration once the stored one is read: the flags' non-empty template and domain win. */
  function Loaded(flagConfig: IngressConfig, stored: Result<IngressConfig>): (r: IngressConfig)
    ensures stored.Err? ==> r == flagConfig
    ensures stored.Ok? ==> r.email == stored.value.email && r.tls == stored.value.tls &&
                           r.exposer == stored.value.exposer && r.issuer == stored.value.issuer
    ensures r.domain == if flagConfig.domain != "" || stored.Err? then flagConfig.domain else stored.value.domain
  {
    if stored.Err? then flagConfig
    else
      var ic := stored.value;
      var ic := if flagConfig.urlTemplate != "" then ic.(urlTemplate := QuoteTemplate(flagConfig.urlTemplate)) else ic;
      if flagConfig.domain != "" then ic.(domain := flagConfig.domain) else ic
  }

  /** The batch-mode checks, in the order the command makes them. */
  function BatchCheck(ic: IngressConfig): (r: Outcome)
    ensures r.Pass? <==> ic.exposer != "" && ic.domain != "" && (ic.tls ==> ic.issuer != "" && ic.email != "")
  {
    if ic.exposer == "" then CheckNotEmpty(ic.exposer, "exposer")
    else if ic.domain == "" then CheckNotEmpty(ic.domain, "domain")
    else if ic.tls && ic.issuer == "" then CheckNotEmpty(ic.issuer, "issuer")
    else if ic.tls && ic.email == "" then CheckNotEmpty(ic.email, "email")
    else Pass
  }

  /** The cluster issuer for the LetsEncrypt choice: "production" is spelt "prod". */
  function IssuerFor(choice: string): string
  {
    "letsencrypt-" + (if choice == "production" then "prod" else choice)
  }

  /**
   * The answers to the interactive questions. A picker is given its default
   * and answers a value together with an error, as the util.Pick* helpers
   * do; `gitEmail` is the output of `git config user.email`.
   */
  datatype Prompts = Prompts(
    pickExposer: string -> (string, Outcome),
    pickDomain: string -> (string, Outcome),
    confirmTLS: bool,
    pickIssuer: (string, Outcome),
    gitEmail: (string, Outcome),
    pickEmail: string -> (string, Outcome),
    pickTemplate: string -> (string, Outcome))

  /** The TLS questions: asked only for a domain that is not a nip.io domain. */
  function AskTLS(ic: IngressConfig, p: Prompts): (IngressConfig, Outcome)
  {
    if HasSuffix(ic.domain, "nip.io") then (ic, Pass)
    else
      var ic := ic.(tls := p.confirmTLS);
      if !ic.tls then (ic, Pass)
      else if p.pickIssuer.1.Fail? then (ic, p.pickIssuer.1)
      else
        var ic := ic.(issuer := IssuerFor(p.pickIssuer.0));
        if ic.email == "" && p.gitEmail.1.Fail? then (ic, p.gitEmail.1)
        else
          var ic := if ic.email == "" then ic.(email := TrimSpace(p.gitEmail.0)) else ic;
          var (email, err) := p.pickEmail(ic.email);
          (ic.(email := email), err)
  }

  /** The interactive branch of confirmExposecontrollerConfig. */
  function Interactive(ic: IngressConfig, p: Prompts): (IngressConfig, Outcome)
  {
    var (exposer, e1) := p.pickExposer(ic.exposer);
    var ic := ic.(exposer := exposer);
    if e1.Fail? then (ic, e1)
    else
      var (domain, e2) := p.pickDomain(ic.domain);
      var ic := ic.(domain := domain);
      if e2.Fail? then (ic, e2)
      else
        var (ic, e3) := AskTLS(ic, p);
        if e3.Fail? then (ic, e3)
        else
          var (template, e4) := p.pickTemplate(ic.urlTemplate);
          (ic.(urlTemplate := template), e4)
  }

  /** The namespace whose ingress-config is read: --config-namespace, else the dev namespace. */
  function ConfigNamespace(flags: IngressFlags, devNamespace: string): string
  {
    if flags.configNamespace != "" then flags.configNamespace else devNamespace
  }

  class UpgradeIngressOptions {
    const flags: IngressFlags
    var ingressConfig: IngressConfig
    var targetNamespaces: seq<string>

    constructor (flags: IngressFlags, ingressConfig: IngressConfig)
      ensures this.flags == flags && this.ingressConfig == ingressConfig && targetNamespaces == []
    {
      this.flags := flags;
      this.ingressConfig := ingressConfig;
      targetNamespaces := [];
    }

    /** The loop of getExistingIngressRules over the namespaces given with --namespaces. */
    method ScanEach(view: ClusterView) returns (names: map<string, string>, k: nat, err: Outcome)
      modifies this`targetNamespaces
      ensures (names, k, err) == ScanNamespaces(flags.namespaces, view, flags.services)
      ensures k <= |flags.namespaces|
      ensures targetNamespaces == old(targetNamespaces) + flags.namespaces[..k]
    {
      names := map[];
      k := 0;
      while k < |flags.namespaces|
        invariant 0 <= k <= |flags.namespaces|
        invariant ScanNamespaces(flags.namespaces[..k], view, flags.services) == (names, k, Pass)
        invariant targetNamespaces == old(targetNamespaces) + flags.namespaces[..k]
      {
        assert flags.namespaces[..k + 1][..k] == flags.namespaces[..k];
        var listed := view.list(flags.namespaces[k]);
        if listed.Err? {
          ScanFailed(flags.namespaces, k, view, flags.services);
          return names, k, ListError(listed.msg);
        }
        names := Collect(names, listed.value, flags.services);
        targetNamespaces := targetNamespaces + [flags.namespaces[k]];
        k := k + 1;
      }
      assert flags.namespaces[..k] == flags.namespaces;
      err := Pass;
    }

    /** getExistingIngressRules: collects the ingresses to recreate and the target namespaces. */
    method GetExistingIngressRules(view: ClusterView) returns (names: map<string, string>, err: Outcome)
      modifies this`targetNamespaces
      ensures var (m, e, added) := ExistingIngressRules(flags, view);
              names == m && err == e && targetNamespaces == old(targetNamespaces) + added
    {
      names := map[];
      if flags.cluster {
        var listed := view.list("");
        if listed.Err? {
          return names, ListError(listed.msg);
        }
        names := Collect(names, listed.value, flags.services);
        targetNamespaces := targetNamespaces + view.clusterNamespaces;
      } else if |flags.namespaces| > 0 {
        var k;
        names, k, err := ScanEach(view);
        if err.Fail? {
          return;
        }
      } else {
        var listed := view.list(view.currentNamespace);
        if listed.Err? {
          return names, ListError(listed.msg);
        }
        names := Collect(names, listed.value, flags.services);
        targetNamespaces := targetNamespaces + [view.currentNamespace];
      }
      err := Pass;
      if |names| == 0 {
        return;
      }
      if !flags.batchMode {
        if view.confirmDelete.Err? {
          return names, Fail(view.confirmDelete.msg);
        }
        if !view.confirmDelete.value {
          return names, Fail(NotDeleted);
        }
      }
    }

    /** confirmExposecontrollerConfig: loads the stored configuration, then checks it or asks. */
    method ConfirmExposecontrollerConfig(devNamespace: string, getIngressConfig: string -> Result<IngressConfig>, p: Prompts)
      returns (err: Outcome)
      modifies this`ingressConfig
      ensures var loaded := Loaded(old(ingressConfig), getIngressConfig(ConfigNamespace(flags, devNamespace)));
              if flags.batchMode then ingressConfig == loaded && err == BatchCheck(loaded)
              else (ingressConfig, err) == Interactive(loaded, p)
    {
      LoadIngressConfig(devNamespace, getIngressConfig);
      if flags.batchMode {
        err := CheckBatch();
      } else {
        err := AskInteractively(p);
      }
    }

    /** The start of confirmExposecontrollerConfig: the stored configuration, overridden by the flags. */
    method LoadIngressConfig(devNamespace: string, getIngressConfig: string -> Result<IngressConfig>)
      modifies this`ingressConfig
      ensures ingressConfig == Loaded(old(ingressConfig), getIngressConfig(ConfigNamespace(flags, devNamespace)))
    {
      var configNamespace := devNamespace;
      if flags.configNamespace != "" {
        configNamespace := flags.configNamespace;
      }
      var urlTemplate := ingressConfig.urlTemplate;
      var domain := ingressConfig.domain;
      var ic := getIngressConfig(configNamespace);
      if ic.Ok? {
        ingressConfig := ic.value;
        if urlTemplate != "" {
          if !HasPrefix(urlTemplate, "\"") && !HasPrefix(urlTemplate, "'") {
            urlTemplate := "\"" + urlTemplate + "\"";
          }
          ingressConfig := ingressConfig.(urlTemplate := urlTemplate);
        }
        if domain != "" {
          ingressConfig := ingressConfig.(domain := domain);
        }
      }
    }

    /** The batch-mode checks of confirmExposecontrollerConfig, stopping at the first empty value. */
    method CheckBatch() returns (err: Outcome)
      ensures err == BatchCheck(ingressConfig)
    {
      err := CheckNotEmpty(ingressConfig.exposer, "exposer");
      if err.Fail? {
        return;
      }
      err := CheckNotEmpty(ingressConfig.domain, "domain");
      if err.Fail? {
        return;
      }
      if ingressConfig.tls {
        err := CheckNotEmpty(ingressConfig.issuer, "issuer");
        if err.Fail? {
          return;
        }
        err := CheckNotEmpty(ingressConfig.email, "email");
      }
    }

    /** The prompts of confirmExposecontrollerConfig, each answer stored as it comes. */
    method AskInteractively(p: Prompts) returns (err: Outcome)
      modifies this`ingressConfig
      ensures (ingressConfig, err) == Interactive(old(ingressConfig), p)
    {
      var exposer := p.pickExposer(ingressConfig.exposer);
      ingressConfig := ingressConfig.(exposer := exposer.0);
      err := exposer.1;
      if err.Fail? {
        return;
      }
      var domain := p.pickDomain(ingressConfig.domain);
      ingressConfig := ingressConfig.(domain := domain.0);
      err := domain.1;
      if err.Fail? {
        return;
      }
      if !HasSuffix(ingressConfig.domain, "nip.io") {
        ingressConfig := ingressConfig.(tls := p.confirmTLS);
        if ingressConfig.tls {
          var (clusterIssuer, e) := p.pickIssuer;
          if clusterIssuer == "production" {
            clusterIssuer := "prod";
          }
          if e.Fail? {
            return e;
          }
          ingressConfig := ingressConfig.(issuer := "letsencrypt-" + clusterIssuer);
          if ingressConfig.email == "" {
            var (email1, e1) := p.gitEmail;
            if e1.Fail? {
              return e1;
            }
            ingressConfig := ingressConfig.(email := TrimSpace(email1));
          }
          var email := p.pickEmail(ingressConfig.email);
          ingressConfig := ingressConfig.(email := email.0);
          err := email.1;
          if err.Fail? {
            return;
          }
        }
      }
      var template := p.pickTemplate(ingressConfig.urlTemplate);
      ingressConfig := ingressConfig.(urlTemplate := template.0);
      err := template.1;
    }
  }

  /** The loop over one listing: each qualifying ingress is recorded under its name. */
  method Collect(m: map<string, string>, ings: seq<Ingress>, services: seq<string>) returns (r: map<string, string>)
    ensures r == AddIngresses(m, ings, services)
  {
    r := m;
    var i := 0;
    while i < |ings|
      invariant 0 <= i <= |ings|
      invariant r == AddIngresses(m, ings[..i], services)
    {
      assert ings[..i + 1][..i] == ings[..i];
      if ings[i].generatedBy == Exposecontroller && IsIngressForServices(services, ings[i]) {
        r := r[ings[i].name := ings[i].namespace];
      }
      i := i + 1;
    }
    assert ings[..i] == ings;
  }

  /** A failed listing of namespace `i` ends the scan with that error. */
  lemma ScanFailed(nss: seq<string>, i: nat, view: ClusterView, services: seq<string>)
    requires i < |nss|
    requires ScanNamespaces(nss[..i], view, services).2 == Pass
    requires view.list(nss[i]).Err?
    ensures var (m, n, _) := ScanNamespaces(nss[..i], view, services);
            ScanNamespaces(nss, view, services) == (m, n, ListError(view.list(nss[i]).msg))
  {
    assert nss[..i + 1][..i] == nss[..i];
    ScanStaysFailed(nss, i + 1, view, services);
  }

  lemma {:induction false} ScanStaysFailed(nss: seq<string>, k: nat, view: ClusterView, services: seq<string>)
    requires 1 <= k <= |nss|
    requires ScanNamespaces(nss[..k], view, services).2.Fail?
    ensures ScanNamespaces(nss, view, services) == ScanNamespaces(nss[..k], view, services)
    decreases |nss| - k
  {
    if k < |nss| {
      assert nss[..k + 1][..k] == nss[..k];
      ScanStaysFailed(nss, k + 1, view, services);
    } else {
      assert nss[..k] == nss;
    }
  }

  /**
   * updateResources and updateWebHooks: whether the webhooks are updated, and the
   * error of the command, which is nil whatever the update returns.
   */
  method UpdateWebHooks(batchMode: bool, confirmUpdate: bool, force: bool, oldEndpoint: string, newEndpoint: string)
    returns (err: Outcome, updated: bool)
    ensures updated <==> (batchMode || confirmUpdate) && (oldEndpoint != newEndpoint || force)
    ensures err == Pass
  {
    var updateWebHooks := true;
    if !batchMode {
      if !confirmUpdate {
        updateWebHooks := false;
      }
    }
    updated := false;
    if updateWebHooks {
      if !(oldEndpoint == newEndpoint && !force) {
        updated := true;
      }
    }
    err := Pass;
  }
}

module UpgradeIngressProperties {
  import opened Wrappers
  import opened Strings
  import opened UpgradeIngress

  /** An ingress is recorded exactly when it qualifies or was already there. */
  lemma {:induction false} AddIngressesKeys(m: map<string, string>, ings: seq<Ingress>, services: seq<string>, name: string)
    ensures name in AddIngresses(m, ings, services)
            <==> name in m || exists i :: 0 <= i < |ings| && Qualifies(services, ings[i]) && ings[i].name == name
  {
    if ings != [] {
      var front := ings[..|ings| - 1];
      AddIngressesKeys(m, front, services, name);
      if exists i :: 0 <= i < |front| && Qualifies(services, front[i]) && front[i].name == name {
        var i :| 0 <= i < |front| && Qualifies(services, front[i]) && front[i].name == name;
        assert ings[i] == front[i];
      }
      if exists i :: 0 <= i < |ings| && Qualifies(services, ings[i]) && ings[i].name == name {
        var i :| 0 <= i < |ings| && Qualifies(services, ings[i]) && ings[i].name == name;
        if i < |front| {
          assert front[i] == ings[i];
        }
      }
    }
  }

  /** A recorded name maps to the namespace of the last qualifying ingress of that name. */
  lemma {:induction false} AddIngressesLastWins(m: map<string, string>, ings: seq<Ingress>, services: seq<string>, i: nat)
    requires i < |ings| && Qualifies(services, ings[i])
    requires forall j :: i < j < |ings| && Qualifies(services, ings[j]) ==> ings[j].name != ings[i].name
    ensures ings[i].name in AddIngresses(m, ings, services)
    ensures AddIngresses(m, ings, services)[ings[i].name] == ings[i].namespace
  {
    if i < |ings| - 1 {
      var front := ings[..|ings| - 1];
      assert front[i] == ings[i];
      forall j | i < j < |front| && Qualifies(services, front[j])
        ensures front[j].name != front[i].name
      {
        assert front[j] == ings[j];
      }
      AddIngressesLastWins(m, front, services, i);
    }
  }

  /** Two exposed ingresses with one name in two namespaces collapse to one entry: the later one. */
  lemma SameNameCollapses(services: seq<string>, a: Ingress, b: Ingress)
    requires Qualifies(services, a) && Qualifies(services, b) && a.name == b.name
    ensures AddIngresses(map[], [a, b], services) == map[a.name := b.namespace]
  {
    assert [a, b][..1] == [a];
    assert [a][..0] == [];
    assert AddIngresses(map[], [a], services) == map[a.name := a.namespace];
  }

  /** Without a service filter every exposecontroller ingress is recreated. */
  lemma NoFilterTakesAll(ing: Ingress)
    ensures IsIngressForServices([], ing)
  {
  }

  /** Quoting a template twice is quoting it once. */
  lemma QuoteIdempotent(t: string)
    ensures QuoteTemplate(QuoteTemplate(t)) == QuoteTemplate(t)
  {
    if t != "" && !HasPrefix(t, "\"") && !HasPrefix(t, "'") {
      assert ("\"" + t + "\"")[..1] == "\"";
    }
  }

  /** With a stored configuration, the flags' template (quoted) and domain override it and nothing else does. */
  lemma LoadedOverrides(flagConfig: IngressConfig, stored: IngressConfig)
    requires flagConfig.urlTemplate != "" && flagConfig.domain != ""
    ensures Loaded(flagConfig, Ok(stored))
              == stored.(urlTemplate := QuoteTemplate(flagConfig.urlTemplate), domain := flagConfig.domain)
  {
  }

  /** In batch mode the configuration passes exactly when its required values are set. */
  lemma BatchCheckRule(ic: IngressConfig)
    ensures BatchCheck(ic).Pass?
            <==> ic.exposer != "" && ic.domain != "" && (ic.tls ==> ic.issuer != "" && ic.email != "")
    ensures ic.exposer == "" ==> BatchCheck(ic) == Fail("exposer" + " config value must not be empty")
    ensures ic.exposer != "" && ic.domain == "" ==> BatchCheck(ic) == Fail("domain" + " config value must not be empty")
    ensures ic.exposer != "" && ic.domain != "" && ic.tls && ic.issuer == "" ==> BatchCheck(ic) == Fail("issuer" + " config value must not be empty")
  {
  }

  /** The two LetsEncrypt choices name the staging and the prod issuer. */
  lemma IssuerNames()
    ensures IssuerFor("production") == "letsencrypt-prod"
    ensures IssuerFor("staging") == "letsencrypt-staging"
  {
  }

  /** For a nip.io domain the TLS questions are skipped and TLS, issuer and email are kept. */
  lemma NipDomainSkipsTLS(ic: IngressConfig, p: Prompts)
    requires HasSuffix(ic.domain, "nip.io")
    ensures AskTLS(ic, p) == (ic, Pass)
  {
  }

  /** A scan that succeeds has listed every namespace. */
  lemma ScanListsAll(nss: seq<string>, view: ClusterView, services: seq<string>)
    requires ScanNamespaces(nss, view, services).2.Pass?
    ensures ScanNamespaces(nss, view, services).1 == |nss|
  {
  }

  /** Nothing to delete is never an error and needs no confirmation. */
  lemma NothingToDelete(batchMode: bool, confirm: Result<bool>)
    ensures ConfirmDeletion(map[], batchMode, confirm) == Pass
  {
  }
}
