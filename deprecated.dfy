/** The table of deprecated jx commands and the messages cobra shows for them. */
module Deprecation {
  import opened Strings

  /** The text colouring of util.ColorInfo and util.ColorStatus (ANSI escapes or the plain text). */
  datatype Palette = Palette(info: string -> string, status: string -> string)

  /** The deprecation details of one command ("" where the table leaves a field out). */
  datatype DeprecationInfo = DeprecationInfo(replacement: string, date: string, info: string)

  const RemovalDate := "Sep 1 2020"
  const NoReplacement := "This commands will have no replacement."

  function Details(url: string, p: Palette): string
  {
    "Please check " + p.status(url) + " for more details."
  }

  /** deprecatedCommands, keyed by command path. */
  function Table(p: Palette): map<string, DeprecationInfo>
  {
    var boot := Details("https://jenkins-x.io/docs/getting-started/setup/boot/", p);
    map[
      "install" := DeprecationInfo("jx boot", RemovalDate, boot),
      "init" := DeprecationInfo("jx boot", RemovalDate, boot),
      "create spring" := DeprecationInfo("jx create project", RemovalDate, Details("https://jenkins-x.io/commands/jx_create_project/", p)),
      "upgrade ingress" := DeprecationInfo("jx boot", RemovalDate, boot),
      "create vault" := DeprecationInfo("", RemovalDate, NoReplacement),
      "delete vault" := DeprecationInfo("", RemovalDate, NoReplacement),
      "create addon" := DeprecationInfo("jx add app", RemovalDate, ""),
      "create addon ambassador" := DeprecationInfo("jx add app jx-app-ambassador", RemovalDate, ""),
      "create addon anchore" := DeprecationInfo("jx add app jx-app-anchore", RemovalDate, ""),
      "create addon envctl" := DeprecationInfo("", RemovalDate, NoReplacement),
      "create addon flagger" := DeprecationInfo("jx add app jx-app-flagger", RemovalDate, ""),
      "create addon gloo" := DeprecationInfo("jx add app jx-app-gloo", RemovalDate, ""),
      "create addon ingctl" := DeprecationInfo("jx add app jx-app-ingress", RemovalDate, ""),
      "create addon istio" := DeprecationInfo("jx add app jx-app-istio", RemovalDate, ""),
      "create addon kubeless" := DeprecationInfo("jx add app jx-app-kubeless", RemovalDate, ""),
      "create addon owasp-zap" := DeprecationInfo("jx add app jx-app-owasp-zap", RemovalDate, ""),
      "create addon pipeline-events" := DeprecationInfo("", RemovalDate, NoReplacement),
      "create addon prometheus" := DeprecationInfo("jx add app jx-app-prometheus", RemovalDate, ""),
      "create addon prow" := DeprecationInfo("", RemovalDate, NoReplacement)
    ]
  }

  /**
   * commandPath for the command whose ancestry, root first, is `names`: the
   * parent's path and a space, with a leading "jx " trimmed, then the name.
   */
  function CommandPath(names: seq<string>): (r: string)
    requires names != []
    ensures |r| >= |names[|names| - 1]|
    ensures |names| == 1 ==> r == names[0]
  {
    var parentText :=
      if |names| == 1 then ""
      else
        var p := CommandPath(names[..|names| - 1]);
        if p != "" then p + " " else "";
    TrimPrefix(parentText, "jx ") + names[|names| - 1]
  }

  /** deprecationMessage: the removal sentence, a space, the recommendation, then " <info>". */
  function DeprecationMessage(dep: DeprecationInfo, p: Palette): (r: string)
    ensures dep.date == "" ==> HasPrefix(r, "it will be soon removed. ")
    ensures dep.info != "" ==> HasSuffix(r, " " + dep.info)
    ensures dep.replacement == "" && dep.info == "" ==> HasSuffix(r, " ")
  {
    var date := if dep.date != "" then "it will be removed on " + p.info(dep.date) + "." else "it will be soon removed.";
    var replacement := if dep.replacement != "" then "We now highly recommend you use " + p.info(dep.replacement) + " instead." else "";
    var msg := date + " " + replacement;
    MessageParts(date, replacement, dep.info);
    if dep.info != "" then msg + " " + dep.info else msg
  }

  /** The message starts with the removal sentence and a space, and ends with " <info>", or with a space when nothing follows. */
  lemma MessageParts(date: string, replacement: string, info: string)
    ensures var msg := date + " " + replacement;
            var r := if info != "" then msg + " " + info else msg;
            HasPrefix(r, date + " ")
            && (info != "" ==> HasSuffix(r, " " + info))
            && (replacement == "" && info == "" ==> HasSuffix(r, " "))
  {
    var a := date + " ";
    var b := a + replacement;
    PrefixOfAppend(a, replacement);
    if info != "" {
      var c := b + " ";
      PrefixOfAppend(b, " ");
      PrefixOfAppend(c, info);
      PrefixTrans(c, b, a);
      PrefixTrans(c + info, c, a);
      SuffixOfAppend2(b, " ", info);
    } else if replacement == "" {
      assert b == a;
      SuffixOfAppend(date, " ");
    }
  }

  /*
   * The functions below take the table as `table`; jx always passes Table(p).
   */

  /** GetRemovalDate. */
  function GetRemovalDate(names: seq<string>, table: map<string, DeprecationInfo>): (r: string)
    requires names != []
    ensures CommandPath(names) !in table ==> r == ""
    ensures CommandPath(names) in table ==> r == table[CommandPath(names)].date
  {
    var path := CommandPath(names);
    if path in table then table[path].date else ""
  }

  /** GetReplacement. */
  function GetReplacement(names: seq<string>, table: map<string, DeprecationInfo>): (r: string)
    requires names != []
    ensures CommandPath(names) !in table ==> r == ""
    ensures CommandPath(names) in table ==> r == table[CommandPath(names)].replacement
  {
    var path := CommandPath(names);
    if path in table then table[path].replacement else ""
  }

  /** A cobra command: its name, its Deprecated text and its sub-commands. */
  datatype Command = Command(name: string, deprecated: string, commands: seq<Command>)

  /**
   * The walk of DeprecateCommands: every command, visited parent first, gets
   * the Deprecated text `f` computes from its ancestry (root first, itself
   * last) and its current text; the sub-commands are walked in order.
   */
  function Relabel(cmd: Command, parents: seq<string>, f: (seq<string>, string) -> string): Command
    decreases cmd
  {
    var names := parents + [cmd.name];
    Command(cmd.name, f(names, cmd.deprecated),
            seq(|cmd.commands|, i requires 0 <= i < |cmd.commands| => Relabel(cmd.commands[i], names, f)))
  }

  /** The text DeprecateCommands gives a command: its message when its path is in the table, else what it had. */
  function Mark(table: map<string, DeprecationInfo>, p: Palette, names: seq<string>, current: string): string
  {
    if names != [] && CommandPath(names) in table then DeprecationMessage(table[CommandPath(names)], p) else current
  }

  /** DeprecateCommands on the command whose ancestors (root first) are named `parents`. */
  function DeprecateCommands(cmd: Command, parents: seq<string>, table: map<string, DeprecationInfo>, p: Palette): (r: Command)
    ensures r.name == cmd.name && |r.commands| == |cmd.commands|
    ensures var path := CommandPath(parents + [cmd.name]);
            r.deprecated == if path in table then DeprecationMessage(table[path], p) else cmd.deprecated
    ensures forall i :: 0 <= i < |r.commands| ==>
              r.commands[i] == DeprecateCommands(cmd.commands[i], parents + [cmd.name], table, p)
  {
    Relabel(cmd, parents, (names, current) => Mark(table, p, names, current))
  }

  /** The command reached from `cmd` by following child indexes. */
  function At(cmd: Command, route: seq<nat>): Reached
    decreases |route|
  {
    if route == [] then Found(cmd)
    else if route[0] < |cmd.commands| then At(cmd.commands[route[0]], route[1..])
    else Missing
  }

  /** The outcome of following a route: no such command, or the command found. */
  datatype Reached = Missing | Found(cmd: Command)

  /** The names from `cmd` down to the command at `route`, inclusive. */
  function NamesTo(cmd: Command, route: seq<nat>): (r: seq<string>)
    requires At(cmd, route).Found?
    ensures r != []
    decreases |route|
  {
    if route == [] then [cmd.name] else [cmd.name] + NamesTo(cmd.commands[route[0]], route[1..])
  }
}

/** What the deprecation helpers promise. */
module DeprecationProperties {
  import opened Strings
  import opened Deprecation

  /** The root's own path is its name. */
  lemma RootPath()
    ensures CommandPath(["jx"]) == "jx"
  {
    assert TrimPrefix("", "jx ") == "";
  }

  predicate PlainNames(names: seq<string>)
  {
    forall i :: 0 <= i < |names| ==> names[i] != "" && ' ' !in names[i]
  }

  lemma JoinNoLeadingJx(names: seq<string>)
    requires names != [] && PlainNames(names) && names[0] != "jx"
    ensures !HasPrefix(JoinWith(names, " ") + " ", "jx ")
  {
    var t := JoinWith(names, " ") + " ";
    if |names| == 1 {
      assert t == names[0] + " ";
    } else {
      assert t == names[0] + " " + JoinWith(names[1..], " ") + " ";
    }
    var w := names[0];
    if |w| >= 3 {
      assert t[2] == w[2] && w[2] in w;
    } else if |w| == 2 {
      assert t[..2] == w;
    } else {
      assert t[1] == ' ';
    }
  }

  /** Below the root "jx", a command's path is the names of the root's descendants down to it, separated by single spaces. */
  lemma {:induction false} PathBelowRoot(names: seq<string>)
    requires names != [] && PlainNames(names) && names[0] != "jx"
    ensures CommandPath(["jx"] + names) == JoinWith(names, " ")
    decreases |names|
  {
    var all := ["jx"] + names;
    if |names| == 1 {
      ChildOfRoot(all);
    } else {
      var init, last := names[..|names| - 1], names[|names| - 1];
      assert names == init + [last];
      assert PlainNames(init) && init[0] != "jx" by {
        assert forall i :: 0 <= i < |init| ==> init[i] == names[i];
      }
      PathBelowRoot(init);
      var q := JoinWith(init, " ");
      JoinLength(init);
      JoinNoLeadingJx(init);
      PathSnoc(["jx"] + init, last, q);
      assert all == (["jx"] + init) + [last];
      JoinSnoc(init, last);
    }
  }

  /** A direct child of the root has its own name as path. */
  lemma ChildOfRoot(all: seq<string>)
    requires |all| == 2 && all[0] == "jx"
    ensures CommandPath(all) == all[1]
  {
    assert all[..1] == ["jx"];
    RootPath();
    assert TrimPrefix("jx" + " ", "jx ") == "";
  }

  /** A parent path that is not empty and does not start with "jx " is kept, then a space, then the name. */
  lemma PathSnoc(parents: seq<string>, name: string, q: string)
    requires parents != [] && CommandPath(parents) == q
    requires q != "" && !HasPrefix(q + " ", "jx ")
    ensures CommandPath(parents + [name]) == q + " " + name
  {
    assert (parents + [name])[..|parents|] == parents;
  }


  lemma JoinLength(parts: seq<string>)
    requires parts != []
    ensures |JoinWith(parts, " ")| >= |parts[0]|
  {
  }

  lemma {:induction false} JoinSnoc(parts: seq<string>, last: string)
    requires parts != []
    ensures JoinWith(parts + [last], " ") == JoinWith(parts, " ") + " " + last
    decreases |parts|
  {
    if |parts| == 1 {
      assert (parts + [last])[1..] == [last];
    } else {
      assert (parts + [last])[1..] == parts[1..] + [last];
      JoinSnoc(parts[1..], last);
    }
  }

  /** "create addon istio" is where the istio addon command sits: children of the root read without "jx ". */
  lemma IstioPath()
    ensures CommandPath(["jx", "create", "addon", "istio"]) == "create addon istio"
  {
    IstioNames();
    PathBelowRoot(["create", "addon", "istio"]);
  }

  lemma IstioNames()
    ensures PlainNames(["create", "addon", "istio"])
    ensures ["jx"] + ["create", "addon", "istio"] == ["jx", "create", "addon", "istio"]
    ensures JoinWith(["create", "addon", "istio"], " ") == "create addon istio"
  {
    var tail := ["addon", "istio"];
    assert ["create", "addon", "istio"][1..] == tail;
    assert tail[1..] == ["istio"];
  }

  /** Every entry of the table is due for removal on Sep 1 2020. */
  lemma AllRemovedOnSameDate(p: Palette)
    ensures forall k :: k in Table(p) ==> Table(p)[k].date == "Sep 1 2020"
  {
  }

  /** The message starts with the removal sentence and ends with the extra information. */
  lemma MessageShape(dep: DeprecationInfo, p: Palette)
    ensures var m := DeprecationMessage(dep, p);
            var date := if dep.date != "" then "it will be removed on " + p.info(dep.date) + "." else "it will be soon removed.";
            HasPrefix(m, date + " ")
            && (dep.info != "" ==> HasSuffix(m, " " + dep.info))
            && (dep.replacement == "" && dep.info == "" ==> m == date + " ")
  {
    var m := DeprecationMessage(dep, p);
    var date := if dep.date != "" then "it will be removed on " + p.info(dep.date) + "." else "it will be soon removed.";
    var replacement := if dep.replacement != "" then "We now highly recommend you use " + p.info(dep.replacement) + " instead." else "";
    var head := date + " ";
    assert (head + replacement)[..|head|] == head;
    if dep.info != "" {
      assert m == (head + replacement) + (" " + dep.info);
      assert m[..|head|] == head;
      assert m[|m| - |" " + dep.info|..] == " " + dep.info;
    }
  }

  /** A replacement yields the recommendation sentence. */
  lemma MessageRecommends(dep: DeprecationInfo, p: Palette)
    requires dep.replacement != ""
    ensures Contains(DeprecationMessage(dep, p), "We now highly recommend you use " + p.info(dep.replacement) + " instead.")
  {
    var date := if dep.date != "" then "it will be removed on " + p.info(dep.date) + "." else "it will be soon removed.";
    var r := "We now highly recommend you use " + p.info(dep.replacement) + " instead.";
    var tail := if dep.info != "" then " " + dep.info else "";
    ContainsInfix(date + " ", r, tail);
    assert DeprecationMessage(dep, p) == date + " " + r + tail;
  }

  /** "create vault" has no replacement: its message has no recommendation, only the removal date and the note. */
  lemma CreateVaultMessage(p: Palette)
    ensures "create vault" in Table(p)
    ensures DeprecationMessage(Table(p)["create vault"], p)
            == "it will be removed on " + p.info("Sep 1 2020") + ". " + " " + "This commands will have no replacement."
  {
    var dep := Table(p)["create vault"];
    assert dep == DeprecationInfo("", RemovalDate, NoReplacement);
    var date := "it will be removed on " + p.info(RemovalDate) + ".";
    assert DeprecationMessage(dep, p) == date + " " + "" + " " + NoReplacement;
  }

  /** The istio addon command advertises its app replacement. */
  lemma IstioReplacement(p: Palette)
    ensures GetReplacement(["jx", "create", "addon", "istio"], Table(p)) == "jx add app jx-app-istio"
    ensures GetRemovalDate(["jx", "create", "addon", "istio"], Table(p)) == "Sep 1 2020"
  {
    IstioPath();
  }

  /** The walk reaches every command: same shape and names, each text recomputed from its own ancestry. */
  lemma {:induction false} RelabelEveryNode(cmd: Command, parents: seq<string>, f: (seq<string>, string) -> string, route: seq<nat>)
    requires At(cmd, route).Found?
    ensures var r := At(Relabel(cmd, parents, f), route);
            var before := At(cmd, route).cmd;
            r.Found? && r.cmd.name == before.name && |r.cmd.commands| == |before.commands|
            && r.cmd.deprecated == f(parents + NamesTo(cmd, route), before.deprecated)
    decreases |route|
  {
    if route != [] {
      var child := cmd.commands[route[0]];
      RelabelEveryNode(child, parents + [cmd.name], f, route[1..]);
      var below := NamesTo(child, route[1..]);
      assert parents + [cmd.name] + below == parents + ([cmd.name] + below);
    } else {
      assert NamesTo(cmd, route) == [cmd.name];
    }
  }

  /**
   * DeprecateCommands visits every descendant: the result has the same tree
   * shape and names, the commands in the table get their message, and every
   * other command keeps its Deprecated text.
   */
  lemma DeprecateEveryNode(cmd: Command, parents: seq<string>, table: map<string, DeprecationInfo>, p: Palette, route: seq<nat>)
    requires At(cmd, route).Found?
    ensures var r := At(DeprecateCommands(cmd, parents, table, p), route);
            var before := At(cmd, route).cmd;
            var path := CommandPath(parents + NamesTo(cmd, route));
            r.Found? && r.cmd.name == before.name && |r.cmd.commands| == |before.commands|
            && r.cmd.deprecated == (if path in table then DeprecationMessage(table[path], p) else before.deprecated)
  {
    RelabelEveryNode(cmd, parents, (names, current) => Mark(table, p, names, current), route);
  }

  /** Nothing is added: a route that leads nowhere before leads nowhere after. */
  lemma {:induction false} RelabelAddsNothing(cmd: Command, parents: seq<string>, f: (seq<string>, string) -> string, route: seq<nat>)
    requires At(cmd, route).Missing?
    ensures At(Relabel(cmd, parents, f), route).Missing?
    decreases |route|
  {
    if route != [] && route[0] < |cmd.commands| {
      RelabelAddsNothing(cmd.commands[route[0]], parents + [cmd.name], f, route[1..]);
    }
  }
}
