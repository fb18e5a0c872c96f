/**
 * Generation of the per-node application set and of the sources values
 * (scripts/utils/deployment/config_generator.py): for every node of every
 * service, each of the service's applications is deployed either from a
 * package or from located sources, and the sources values of the chart are
 * rewritten to match.
 *
 * Where the sources of an application lie is the parameter `locate`, and the
 * working directory that `abspath` resolves against is the parameter `cwd`.
 * The code calls `sources.locate`, which sources.py does not define, so as
 * written the lookup raises an AttributeError (`LocateAsWritten`); the
 * other locators stand for the lookup that was evidently intended.
 */
module ConfigGenerator {
  import opened Util
  import opened Yaml
  import opened Paths
  import opened NamesAndPaths
  import opened Application
  import opened DeployNode
  import opened Disk
  import Sync

  const ROOT_PATH: string := "/"

  /** Where the sources of an application of a node lie, as the locator reports it, or what it raises. */
  type Locator = (string, string, string) -> Result<string>

  /**
   * `sources.locate` as written: the attribute lookup on the sources
   * module raises before `intended` could be called.
   */
  function LocateAsWritten(intended: Locator): (r: Locator)
    ensures forall app, service, node :: r(app, service, node) == Fail(AttributeError)
  {
    Sync.LocateUnbound();
    (app, service, node) =>
      match Sync.Attribute("locate")
      case Some(e) => Fail(e)
      case None => intended(app, service, node)
  }

  /** `{'name': app, 'hostPath': host_path}`: one entry of a node's sources values. */
  function SourceEntry(app: string, hostPath: string): Value
  {
    VDict(map["name" := VStr(app), "hostPath" := VStr(hostPath)])
  }

  // ---------------------------------------------------------------------------
  // generate_app_config

  /**
   * `any(a['name'] == app for a in sources)`, stopping at the first match: an
   * entry before it that is not a dict with a name fails.
   */
  function ListsApp(sources: seq<Value>, app: string): Result<bool>
  {
    if sources == [] then Ok(false)
    else
      var name :- Lookup(sources[0], "name");
      if name == VStr(app) then Ok(true) else ListsApp(sources[1..], app)
  }

  /** A successful search answers whether some entry is named `app`. */
  lemma {:induction false} ListsAppIff(sources: seq<Value>, app: string)
    requires ListsApp(sources, app).Ok?
    ensures ListsApp(sources, app).value <==>
            exists i :: 0 <= i < |sources| && sources[i].VDict? && "name" in sources[i].fields &&
                        sources[i].fields["name"] == VStr(app)
  {
    if sources != [] && Lookup(sources[0], "name") != Ok(VStr(app)) {
      ListsAppIff(sources[1..], app);
      if ListsApp(sources, app).value {
        var i :| 0 <= i < |sources[1..]| && sources[1..][i].VDict? && "name" in sources[1..][i].fields &&
                 sources[1..][i].fields["name"] == VStr(app);
        assert sources[i + 1] == sources[1..][i];
      } else {
        forall i | 0 <= i < |sources| && sources[i].VDict? && "name" in sources[i].fields
          ensures sources[i].fields["name"] != VStr(app)
        {
          if i > 0 {
            assert sources[i] == sources[1..][i - 1];
          }
        }
      }
    }
  }

  /** `node_config.get('sources', [])` searched for `app`. */
  function NodeListsApp(nodeConfig: Value, app: string): Result<bool>
  {
    var sources :- GetOr(nodeConfig, "sources", VList([]));
    var items :- Iterate(sources, TypeError);
    ListsApp(items, app)
  }

  /**
   * `generate_app_config(...)`: the 'hostPath' of the app's entry and the
   * override flag. Sources mode off, or the app not among the node's sources,
   * gives '' and False. Otherwise the located path is made absolute: under
   * the literal '/home' it is given relative to the host home directory with
   * False, anything else is kept absolute with True.
   */
  function GenerateAppConfig(app: string, node: string, nodeConfig: Value, service: string,
                             home: string, enabled: Value, locate: Locator, cwd: string): Result<(string, bool)>
  {
    if !Truthy(enabled) then Ok(("", false))
    else
      var listed :- NodeListsApp(nodeConfig, app);
      if !listed then Ok(("", false))
      else
        var located :- locate(app, service, node);
        var path := AbsPath(located, cwd);
        if StartsWith(path, "/home") then
          var rel :- RelPath(path, home, cwd);
          Ok((rel, false))
        else Ok((path, true))
  }

  /** The `Application` built for an app: rooted at '/' when overridden, at the home directory otherwise. */
  function AppFor(app: string, hostPath: string, override: bool, home: string): App
  {
    NewApplication(app, hostPath, if override then ROOT_PATH else home)
  }

  /** `abspath` resolved against an absolute working directory is absolute. */
  lemma AbsPathIsAbs(p: string, cwd: string)
    requires IsAbs(cwd)
    ensures IsAbs(AbsPath(p, cwd))
  {
    var q := if IsAbs(p) then p else PathJoin(cwd, p);
    assert q[0] == '/';
    assert InitialSlashes(q) >= 1;
    var lead := InitialSlashes(q);
    assert Slashes(lead)[0] == '/';
  }

  /**
   * The outcomes of `generate_app_config`: no sources ('' and False), a
   * locator that raises (its exception), sources under '/home'
   * (home-relative and False), other sources (the absolute path and True).
   */
  lemma GenerateAppConfigCases(app: string, node: string, nodeConfig: Value, service: string,
                               home: string, enabled: Value, locate: Locator, cwd: string)
    ensures var r := GenerateAppConfig(app, node, nodeConfig, service, home, enabled, locate, cwd);
            var located := locate(app, service, node);
            var listed := Truthy(enabled) && NodeListsApp(nodeConfig, app) == Ok(true);
            (!Truthy(enabled) || NodeListsApp(nodeConfig, app) == Ok(false) ==> r == Ok(("", false))) &&
            (listed && located.Fail? ==> r == Fail(located.error)) &&
            (listed && located.Ok? && StartsWith(AbsPath(located.value, cwd), "/home") ==>
               r == (var rel :- RelPath(AbsPath(located.value, cwd), home, cwd); Ok((rel, false)))) &&
            (listed && located.Ok? && !StartsWith(AbsPath(located.value, cwd), "/home") ==>
               r == Ok((AbsPath(located.value, cwd), true)))
  {
  }

  /**
   * `generate_app_config` as written: with sources on and the app listed
   * it raises the AttributeError of `sources.locate`; otherwise it gives ''
   * and False as before, so it never sets the override flag.
   */
  lemma GenerateAppConfigAsWritten(app: string, node: string, nodeConfig: Value, service: string,
                                   home: string, enabled: Value, intended: Locator, cwd: string)
    ensures var r := GenerateAppConfig(app, node, nodeConfig, service, home, enabled, LocateAsWritten(intended), cwd);
            (!Truthy(enabled) || NodeListsApp(nodeConfig, app) == Ok(false) ==> r == Ok(("", false))) &&
            (Truthy(enabled) && NodeListsApp(nodeConfig, app) == Ok(true) ==> r == Fail(AttributeError)) &&
            (Truthy(enabled) && NodeListsApp(nodeConfig, app).Fail? ==> r == Fail(NodeListsApp(nodeConfig, app).error)) &&
            (r.Ok? ==> r.value == ("", false))
  {
    assert LocateAsWritten(intended)(app, service, node) == Fail(AttributeError);
  }

  /**
   * Either way the application's project is where the sources were located:
   * below the home directory the relative host path joins back onto home,
   * elsewhere the absolute path joins onto '/' unchanged.
   */
  lemma ProjectIsLocated(app: string, node: string, nodeConfig: Value, service: string,
                         homeComps: seq<string>, rest: seq<string>, enabled: Value, locate: Locator, cwd: string)
    requires Truthy(enabled) && NodeListsApp(nodeConfig, app) == Ok(true) && IsAbs(cwd)
    requires ValidComps(homeComps) && ValidComps(rest) && |rest| >= 1
    requires locate(app, service, node).Ok?
    requires AbsPath(locate(app, service, node).value, cwd) == AbsOf(homeComps + rest) ||
             !StartsWith(AbsPath(locate(app, service, node).value, cwd), "/home")
    ensures var r := GenerateAppConfig(app, node, nodeConfig, service, AbsOf(homeComps), enabled, locate, cwd);
            r.Ok? && r.value.0 != [] &&
            var a := AppFor(app, r.value.0, r.value.1, AbsOf(homeComps));
            a.projectPath == Some(AbsPath(locate(app, service, node).value, cwd))
  {
    var path := AbsPath(locate(app, service, node).value, cwd);
    var home := AbsOf(homeComps);
    AbsPathIsAbs(locate(app, service, node).value, cwd);
    if StartsWith(path, "/home") {
      RelPathBelow(homeComps, rest, cwd);
      JoinBelow(homeComps, rest);
      JoinHead(rest);
    }
  }

  // ---------------------------------------------------------------------------
  // generate_nodes_config

  /** `ONEZONE_APPS` for a service whose name contains 'onezone', `ONEPROVIDER_APPS` otherwise. */
  function ServiceApps(service: string): (r: set<string>)
    ensures APP_CLUSTER_MANAGER in r
    ensures APP_ONEZONE in r <==> Contains(service, SERVICE_ONEZONE)
    ensures APP_ONEPROVIDER in r <==> !Contains(service, SERVICE_ONEZONE)
  {
    if Contains(service, SERVICE_ONEZONE) then ONEZONE_APPS else ONEPROVIDER_APPS
  }

  /** What the loop over one node's apps has built: applications, sources entries, last flag. */
  datatype NodeGen = NodeGen(apps: seq<App>, sources: seq<Value>, override: bool)

  /**
   * What `generate_app_config` answers for each app of one node, the other
   * arguments fixed: the apps loop of a node sees nothing else of them.
   */
  type AppConfigs = string -> Result<(string, bool)>

  /** The answers of `generate_app_config` for the apps of `node`. */
  function NodeConfigs(node: string, nodeConfig: Value, service: string, home: string, enabled: Value,
                       locate: Locator, cwd: string): AppConfigs
  {
    app => GenerateAppConfig(app, node, nodeConfig, service, home, enabled, locate, cwd)
  }

  /**
   * The loop over the service's apps for one node, in `apps` order; the
   * flag is that of the last app, or `override` when there is none.
   */
  function GenerateApps(apps: seq<string>, configs: AppConfigs, home: string, override: bool): Result<NodeGen>
  {
    if apps == [] then Ok(NodeGen([], [], override))
    else
      var app := apps[|apps| - 1];
      var done :- GenerateApps(apps[..|apps| - 1], configs, home, override);
      var cfg :- configs(app);
      Ok(NodeGen(done.apps + [AppFor(app, cfg.0, cfg.1, home)], done.sources + [SourceEntry(app, cfg.0)], cfg.1))
  }

  /** One step of the apps loop: the last app's application and entry on top of the others. */
  lemma GenerateAppsStep(apps: seq<string>, configs: AppConfigs, home: string, override: bool)
    requires apps != [] && GenerateApps(apps, configs, home, override).Ok?
    ensures var init := GenerateApps(apps[..|apps| - 1], configs, home, override);
            var app := apps[|apps| - 1];
            init.Ok? && configs(app).Ok? &&
            GenerateApps(apps, configs, home, override).value ==
            NodeGen(init.value.apps + [AppFor(app, configs(app).value.0, configs(app).value.1, home)],
                    init.value.sources + [SourceEntry(app, configs(app).value.0)], configs(app).value.1)
  {
  }

  /** A node gets one application and one sources entry per app. */
  lemma {:induction false} GenerateAppsLength(apps: seq<string>, configs: AppConfigs, home: string, override: bool)
    requires GenerateApps(apps, configs, home, override).Ok?
    ensures var g := GenerateApps(apps, configs, home, override).value;
            |g.apps| == |apps| && |g.sources| == |apps|
  {
    if apps != [] {
      GenerateAppsStep(apps, configs, home, override);
      GenerateAppsLength(apps[..|apps| - 1], configs, home, override);
    }
  }

  /** The `i`th application and sources entry of a node are those of its `i`th app, rooted by its own flag. */
  lemma {:induction false} GenerateAppsAt(apps: seq<string>, configs: AppConfigs, home: string, override: bool, i: nat)
    requires GenerateApps(apps, configs, home, override).Ok? && i < |apps|
    ensures var g := GenerateApps(apps, configs, home, override).value;
            i < |g.apps| && i < |g.sources| && configs(apps[i]).Ok? &&
            g.apps[i] == AppFor(apps[i], configs(apps[i]).value.0, configs(apps[i]).value.1, home) &&
            g.sources[i] == SourceEntry(apps[i], configs(apps[i]).value.0)
  {
    var init := apps[..|apps| - 1];
    var last := apps[|apps| - 1];
    GenerateAppsStep(apps, configs, home, override);
    GenerateAppsLength(init, configs, home, override);
    var h := GenerateApps(init, configs, home, override).value;
    var c := configs(last).value;
    SnocAt(h.apps, AppFor(last, c.0, c.1, home), i);
    SnocAt(h.sources, SourceEntry(last, c.0), i);
    if i < |init| {
      GenerateAppsAt(init, configs, home, override, i);
      assert init[i] == apps[i];
    }
  }

  /** An index into a sequence with one element appended. */
  lemma SnocAt<T>(s: seq<T>, x: T, i: nat)
    requires i <= |s|
    ensures (s + [x])[i] == if i < |s| then s[i] else x
  {
  }

  /**
   * A node gets exactly one application and one sources entry per app, in
   * order, each application rooted by its own flag.
   */
  lemma GenerateAppsEach(apps: seq<string>, configs: AppConfigs, home: string, override: bool)
    requires GenerateApps(apps, configs, home, override).Ok?
    ensures var g := GenerateApps(apps, configs, home, override).value;
            |g.apps| == |apps| && |g.sources| == |apps| &&
            forall i :: 0 <= i < |apps| ==>
              configs(apps[i]).Ok? &&
              g.apps[i] == AppFor(apps[i], configs(apps[i]).value.0, configs(apps[i]).value.1, home) &&
              g.sources[i] == SourceEntry(apps[i], configs(apps[i]).value.0)
  {
    GenerateAppsLength(apps, configs, home, override);
    forall i | 0 <= i < |apps|
      ensures var g := GenerateApps(apps, configs, home, override).value;
              configs(apps[i]).Ok? &&
              g.apps[i] == AppFor(apps[i], configs(apps[i]).value.0, configs(apps[i]).value.1, home) &&
              g.sources[i] == SourceEntry(apps[i], configs(apps[i]).value.0)
    {
      GenerateAppsAt(apps, configs, home, override, i);
    }
  }

  /** The flag left after a node's apps is that of its last app, or the incoming one when it has none. */
  lemma GenerateAppsFlag(apps: seq<string>, configs: AppConfigs, home: string, override: bool)
    requires GenerateApps(apps, configs, home, override).Ok?
    ensures GenerateApps(apps, configs, home, override).value.override ==
            if apps == [] then override else configs(apps[|apps| - 1]).value.1
  {
    if apps != [] {
      GenerateAppsStep(apps, configs, home, override);
    }
  }

  /** The flag passed into the apps loop of a node matters only when there is no app. */
  lemma {:induction false} GenerateAppsFlagIndependent(apps: seq<string>, configs: AppConfigs, home: string,
                                                       a: bool, b: bool)
    ensures var x := GenerateApps(apps, configs, home, a);
            var y := GenerateApps(apps, configs, home, b);
            x.Ok? == y.Ok? && (x.Fail? ==> x == y) &&
            (x.Ok? ==> x.value.apps == y.value.apps && x.value.sources == y.value.sources &&
                       (apps != [] ==> x.value.override == y.value.override))
  {
    if apps != [] {
      GenerateAppsFlagIndependent(apps[..|apps| - 1], configs, home, a, b);
    }
  }

  /** The apps loop after `i` apps is the loop after `i - 1` and the `i`th app's config. */
  lemma GenerateAppsSnoc(apps: seq<string>, i: nat, configs: AppConfigs, home: string, override: bool, g: NodeGen)
    requires i < |apps| && GenerateApps(apps[..i], configs, home, override) == Ok(g)
    requires configs(apps[i]).Ok?
    ensures var cfg := configs(apps[i]).value;
            GenerateApps(apps[..i + 1], configs, home, override) ==
            Ok(NodeGen(g.apps + [AppFor(apps[i], cfg.0, cfg.1, home)], g.sources + [SourceEntry(apps[i], cfg.0)], cfg.1))
  {
    assert apps[..i + 1][..i] == apps[..i];
    assert apps[..i + 1][i] == apps[i];
  }

  /** The apps loop fails with the first app whose config fails. */
  lemma {:induction false} GenerateAppsFirstFail(apps: seq<string>, configs: AppConfigs, home: string,
                                                 override: bool, i: nat)
    requires i < |apps| && GenerateApps(apps[..i], configs, home, override).Ok?
    requires configs(apps[i]).Fail?
    ensures GenerateApps(apps, configs, home, override) == Fail(configs(apps[i]).error)
  {
    var init := apps[..|apps| - 1];
    if i < |apps| - 1 {
      assert init[..i] == apps[..i];
      assert init[i] == apps[i];
      GenerateAppsFirstFail(init, configs, home, override, i);
    } else {
      assert init == apps[..i];
    }
  }

  /** The apps loop of one node, one app at a time. */
  method GenerateNodeApps(apps: seq<string>, node: string, nodeConfig: Value, service: string, home: string,
                          enabled: Value, locate: Locator, cwd: string, override: bool) returns (r: Result<NodeGen>)
    ensures r == GenerateApps(apps, NodeConfigs(node, nodeConfig, service, home, enabled, locate, cwd), home, override)
  {
    ghost var configs := NodeConfigs(node, nodeConfig, service, home, enabled, locate, cwd);
    var done := NodeGen([], [], override);
    var i := 0;
    while i < |apps|
      invariant 0 <= i <= |apps|
      invariant GenerateApps(apps[..i], configs, home, override) == Ok(done)
    {
      var next := GenerateNextApp(apps, i, node, nodeConfig, service, home, enabled, locate, cwd, override, done);
      if next.Fail? {
        return next;
      }
      done := next.value;
      i := i + 1;
    }
    assert apps[..i] == apps;
    r := Ok(done);
  }

  /**
   * One round of the apps loop: the `i`th app's application and sources
   * entry on top of those of the apps before it; a failure is that of the
   * whole loop.
   */
  method GenerateNextApp(apps: seq<string>, i: nat, node: string, nodeConfig: Value, service: string, home: string,
                         enabled: Value, locate: Locator, cwd: string, override: bool, done: NodeGen)
    returns (r: Result<NodeGen>)
    requires i < |apps|
    requires GenerateApps(apps[..i], NodeConfigs(node, nodeConfig, service, home, enabled, locate, cwd), home, override)
             == Ok(done)
    ensures var configs := NodeConfigs(node, nodeConfig, service, home, enabled, locate, cwd);
            (r.Fail? ==> r == GenerateApps(apps, configs, home, override)) &&
            (r.Ok? ==> GenerateApps(apps[..i + 1], configs, home, override) == r)
  {
    ghost var configs := NodeConfigs(node, nodeConfig, service, home, enabled, locate, cwd);
    var cfg := GenerateAppConfig(apps[i], node, nodeConfig, service, home, enabled, locate, cwd);
    assert cfg == configs(apps[i]);
    if cfg.Fail? {
      GenerateAppsFirstFail(apps, configs, home, override, i);
      return Fail(cfg.error);
    }
    GenerateAppsSnoc(apps, i, configs, home, override, done);
    r := Ok(NodeGen(done.apps + [AppFor(apps[i], cfg.value.0, cfg.value.1, home)],
                    done.sources + [SourceEntry(apps[i], cfg.value.0)], cfg.value.1));
  }

  /**
   * The nodes of a service are visited in the order of their dict, and a
   * service's apps in the order of its app set: both orders are inputs.
   */
  datatype Host = Host(locate: Locator, cwd: string,
                       setOrder: set<string> -> seq<string>,
                       dictOrder: map<string, Value> -> seq<string>)

  /** What the loop over a service's nodes has built. */
  datatype ServiceGen = ServiceGen(nodes: map<string, Node>, sources: map<string, Value>, override: bool)

  /** `{'sources': entries}`: the generated sources values of one node. */
  function NodeSources(entries: seq<Value>): Value
  {
    VDict(map["sources" := VList(entries)])
  }

  /**
   * The loop over a service's nodes, in `order`: each node gets its `Node`
   * and its sources values, and the flag runs on from node to node.
   */
  function GenerateNodes(order: seq<string>, nodesCfg: map<string, Value>, apps: seq<string>, service: string,
                         home: string, envDir: string, enabled: Value, locate: Locator, cwd: string): Result<ServiceGen>
    requires forall n :: n in order ==> n in nodesCfg
  {
    if order == [] then Ok(ServiceGen(map[], map[], false))
    else
      var node := order[|order| - 1];
      var done :- GenerateNodes(order[..|order| - 1], nodesCfg, apps, service, home, envDir, enabled, locate, cwd);
      var g :- GenerateApps(apps, NodeConfigs(node, nodesCfg[node], service, home, enabled, locate, cwd), home, done.override);
      Ok(ServiceGen(done.nodes[node := Node(node, g.apps, service, envDir)],
                    done.sources[node := NodeSources(g.sources)],
                    g.override))
  }

  /** One step of the nodes loop: the last node's `Node` and sources value on top of the others. */
  lemma GenerateNodesStep(order: seq<string>, nodesCfg: map<string, Value>, apps: seq<string>,
                          service: string, home: string, envDir: string, enabled: Value,
                          locate: Locator, cwd: string)
    requires order != [] && forall n :: n in order ==> n in nodesCfg
    requires GenerateNodes(order, nodesCfg, apps, service, home, envDir, enabled, locate, cwd).Ok?
    ensures forall n :: n in order[..|order| - 1] ==> n in nodesCfg
    ensures var last := order[|order| - 1];
            var done := GenerateNodes(order[..|order| - 1], nodesCfg, apps, service, home, envDir, enabled, locate, cwd);
            done.Ok? &&
            var g := GenerateApps(apps, NodeConfigs(last, nodesCfg[last], service, home, enabled, locate, cwd), home, done.value.override);
            g.Ok? &&
            GenerateNodes(order, nodesCfg, apps, service, home, envDir, enabled, locate, cwd).value ==
            ServiceGen(done.value.nodes[last := Node(last, g.value.apps, service, envDir)],
                       done.value.sources[last := NodeSources(g.value.sources)], g.value.override)
  {
    assert forall n :: n in order[..|order| - 1] ==> n in order;
  }

  /** The nodes and sources maps have exactly the nodes of the order as keys. */
  lemma {:induction false} GenerateNodesKeys(order: seq<string>, nodesCfg: map<string, Value>, apps: seq<string>,
                                             service: string, home: string, envDir: string, enabled: Value,
                                             locate: Locator, cwd: string)
    requires forall n :: n in order ==> n in nodesCfg
    requires GenerateNodes(order, nodesCfg, apps, service, home, envDir, enabled, locate, cwd).Ok?
    ensures var g := GenerateNodes(order, nodesCfg, apps, service, home, envDir, enabled, locate, cwd).value;
            forall n :: (n in g.nodes <==> n in order) && (n in g.sources <==> n in order)
  {
    if order != [] {
      var init := order[..|order| - 1];
      GenerateNodesStep(order, nodesCfg, apps, service, home, envDir, enabled, locate, cwd);
      GenerateNodesKeys(init, nodesCfg, apps, service, home, envDir, enabled, locate, cwd);
      assert order == init + [order[|order| - 1]];
    }
  }

  /**
   * Every node of the order gets a `Node` holding one application per app
   * and a sources value holding one entry per app, as its own apps loop
   * builds them.
   */
  lemma {:induction false} GenerateNodesEach(order: seq<string>, nodesCfg: map<string, Value>, apps: seq<string>,
                                             service: string, home: string, envDir: string, enabled: Value,
                                             locate: Locator, cwd: string, n: string)
    requires forall n :: n in order ==> n in nodesCfg
    requires GenerateNodes(order, nodesCfg, apps, service, home, envDir, enabled, locate, cwd).Ok?
    requires n in order
    ensures var g := GenerateNodes(order, nodesCfg, apps, service, home, envDir, enabled, locate, cwd).value;
            var a := GenerateApps(apps, NodeConfigs(n, nodesCfg[n], service, home, enabled, locate, cwd), home, false);
            a.Ok? && n in g.nodes && n in g.sources &&
            g.nodes[n] == Node(n, a.value.apps, service, envDir) && g.sources[n] == NodeSources(a.value.sources)
  {
    var init := order[..|order| - 1];
    var last := order[|order| - 1];
    GenerateNodesStep(order, nodesCfg, apps, service, home, envDir, enabled, locate, cwd);
    var done := GenerateNodes(init, nodesCfg, apps, service, home, envDir, enabled, locate, cwd).value;
    if n == last {
      GenerateAppsFlagIndependent(apps, NodeConfigs(n, nodesCfg[n], service, home, enabled, locate, cwd), home, done.override, false);
    } else {
      assert order == init + [last];
      GenerateNodesEach(init, nodesCfg, apps, service, home, envDir, enabled, locate, cwd, n);
    }
  }

  /**
   * The flag a service ends with is that of its last node's last app, and
   * False when there is no node or no app.
   */
  lemma {:induction false} GenerateNodesFlag(order: seq<string>, nodesCfg: map<string, Value>, apps: seq<string>,
                                             service: string, home: string, envDir: string, enabled: Value,
                                             locate: Locator, cwd: string)
    requires forall n :: n in order ==> n in nodesCfg
    requires GenerateNodes(order, nodesCfg, apps, service, home, envDir, enabled, locate, cwd).Ok?
    ensures var g := GenerateNodes(order, nodesCfg, apps, service, home, envDir, enabled, locate, cwd).value;
            (order == [] || apps == [] ==> !g.override) &&
            (order != [] && apps != [] ==>
               var last := order[|order| - 1];
               var cfg := GenerateAppConfig(apps[|apps| - 1], last, nodesCfg[last], service, home, enabled, locate, cwd);
               cfg.Ok? && g.override == cfg.value.1)
  {
    if order != [] {
      var init := order[..|order| - 1];
      var node := order[|order| - 1];
      assert forall n :: n in init ==> n in order;
      GenerateNodesFlag(init, nodesCfg, apps, service, home, envDir, enabled, locate, cwd);
      var done := GenerateNodes(init, nodesCfg, apps, service, home, envDir, enabled, locate, cwd).value;
      GenerateAppsFlag(apps, NodeConfigs(node, nodesCfg[node], service, home, enabled, locate, cwd), home, done.override);
      if apps != [] {
        GenerateAppsStep(apps, NodeConfigs(node, nodesCfg[node], service, home, enabled, locate, cwd), home, done.override);
      }
    }
  }

  /** The nodes loop of a service, each node's apps loop run by `GenerateNodeApps`. */
  method GenerateServiceNodes(order: seq<string>, nodesCfg: map<string, Value>, apps: seq<string>, service: string,
                              home: string, envDir: string, enabled: Value, locate: Locator, cwd: string)
    returns (r: Result<ServiceGen>)
    requires forall n :: n in order ==> n in nodesCfg
    ensures r == GenerateNodes(order, nodesCfg, apps, service, home, envDir, enabled, locate, cwd)
  {
    var done := ServiceGen(map[], map[], false);
    var i := 0;
    while i < |order|
      invariant 0 <= i <= |order|
      invariant GenerateNodes(order[..i], nodesCfg, apps, service, home, envDir, enabled, locate, cwd) == Ok(done)
    {
      var next := GenerateNextNode(order, i, nodesCfg, apps, service, home, envDir, enabled, locate, cwd, done);
      if next.Fail? {
        return next;
      }
      done := next.value;
      i := i + 1;
    }
    assert order[..i] == order;
    r := Ok(done);
  }

  /**
   * One round of the nodes loop: the `i`th node's apps loop on top of what
   * the nodes before it have built; a failure is that of the whole loop.
   */
  method GenerateNextNode(order: seq<string>, i: nat, nodesCfg: map<string, Value>, apps: seq<string>,
                          service: string, home: string, envDir: string, enabled: Value, locate: Locator,
                          cwd: string, done: ServiceGen) returns (r: Result<ServiceGen>)
    requires i < |order| && forall n :: n in order ==> n in nodesCfg
    requires GenerateNodes(order[..i], nodesCfg, apps, service, home, envDir, enabled, locate, cwd) == Ok(done)
    ensures r.Fail? ==> r == GenerateNodes(order, nodesCfg, apps, service, home, envDir, enabled, locate, cwd)
    ensures r.Ok? ==> GenerateNodes(order[..i + 1], nodesCfg, apps, service, home, envDir, enabled, locate, cwd) == r
  {
    var node := order[i];
    var g := GenerateNodeApps(apps, node, nodesCfg[node], service, home, enabled, locate, cwd, done.override);
    if g.Fail? {
      GenerateNodesFirstFail(order, nodesCfg, apps, service, home, envDir, enabled, locate, cwd, i, done.override);
      return Fail(g.error);
    }
    assert forall n :: n in order[..i + 1] ==> n in nodesCfg;
    GenerateNodesSnoc(order, i, nodesCfg, apps, service, home, envDir, enabled, locate, cwd, done);
    r := Ok(ServiceGen(done.nodes[node := Node(node, g.value.apps, service, envDir)],
                       done.sources[node := NodeSources(g.value.sources)], g.value.override));
  }

  lemma GenerateNodesSnoc(order: seq<string>, i: nat, nodesCfg: map<string, Value>, apps: seq<string>,
                          service: string, home: string, envDir: string, enabled: Value,
                          locate: Locator, cwd: string, done: ServiceGen)
    requires i < |order| && forall n :: n in order[..i + 1] ==> n in nodesCfg
    requires GenerateNodes(order[..i], nodesCfg, apps, service, home, envDir, enabled, locate, cwd) == Ok(done)
    requires GenerateApps(apps, NodeConfigs(order[i], nodesCfg[order[i]], service, home, enabled, locate, cwd), home, done.override).Ok?
    ensures var g := GenerateApps(apps, NodeConfigs(order[i], nodesCfg[order[i]], service, home, enabled, locate, cwd), home,
                                  done.override).value;
            GenerateNodes(order[..i + 1], nodesCfg, apps, service, home, envDir, enabled, locate, cwd) ==
            Ok(ServiceGen(done.nodes[order[i] := Node(order[i], g.apps, service, envDir)],
                          done.sources[order[i] := NodeSources(g.sources)], g.override))
  {
    assert order[..i + 1][..i] == order[..i];
    assert order[..i + 1][i] == order[i];
  }

  lemma {:induction false} GenerateNodesFirstFail(order: seq<string>, nodesCfg: map<string, Value>, apps: seq<string>,
                                                  service: string, home: string, envDir: string, enabled: Value,
                                                  locate: Locator, cwd: string, i: nat, flag: bool)
    requires forall n :: n in order ==> n in nodesCfg
    requires i < |order|
    requires GenerateNodes(order[..i], nodesCfg, apps, service, home, envDir, enabled, locate, cwd).Ok?
    requires GenerateNodes(order[..i], nodesCfg, apps, service, home, envDir, enabled, locate, cwd).value.override == flag
    requires GenerateApps(apps, NodeConfigs(order[i], nodesCfg[order[i]], service, home, enabled, locate, cwd), home, flag).Fail?
    ensures GenerateNodes(order, nodesCfg, apps, service, home, envDir, enabled, locate, cwd) ==
            Fail(GenerateApps(apps, NodeConfigs(order[i], nodesCfg[order[i]], service, home, enabled, locate, cwd), home, flag).error)
  {
    var init := order[..|order| - 1];
    assert forall n :: n in init ==> n in order;
    if i < |order| - 1 {
      assert init[..i] == order[..i];
      assert init[i] == order[i];
      GenerateNodesFirstFail(init, nodesCfg, apps, service, home, envDir, enabled, locate, cwd, i, flag);
    } else {
      assert init == order[..i];
    }
  }

  // ---------------------------------------------------------------------------
  // generate_nodes_config

  /**
   * `generate_nodes_config` on the service's own values `svc`: the service's
   * nodes, their sources values, and the service values after the rewrite
   * that a last (node, app) located outside '/home' triggers. Looking up
   * 'enabled' happens only for a service with nodes.
   */
  function ServiceNodes(svc: Value, service: string, home: string, envDir: string, host: Host): Result<(Value, ServiceGen)>
    requires IsDictOrder(host.dictOrder)
  {
    if !svc.VDict? then Fail(TypeError)
    else
      var nodesV :- GetPath(svc, ["deployFromSources", "nodes"]);
      if !nodesV.VDict? then Fail(AttributeError)
      else
        var order := host.dictOrder(nodesV.fields);
        assert Enumerates(order, nodesV.fields.Keys);
        var enabled :- if order == [] then Ok(VNone) else GetPath(svc, ["deployFromSources", "enabled"]);
        var g :- GenerateNodes(order, nodesV.fields, host.setOrder(ServiceApps(service)), service, home, envDir,
                               enabled, host.locate, host.cwd);
        if !g.override then Ok((svc, g))
        else
          var rel :- RelPath(envDir, ROOT_PATH, host.cwd);
          Ok((VDict(svc.fields["hostPathPrefix" := VStr("")]["vmPathPrefix" := VStr("")]["deploymentDir" := VStr(rel)]), g))
  }

  /** `generate_nodes_config(cfg, service, ...)`: the service's values are `cfg[service]`. */
  function NodesConfig(cfg: Value, service: string, home: string, envDir: string, host: Host): Result<(Value, ServiceGen)>
    requires IsDictOrder(host.dictOrder)
  {
    var svc :- Lookup(cfg, service);
    var (svc', g) :- ServiceNodes(svc, service, home, envDir, host);
    Ok((VDict(cfg.fields[service := svc']), g))
  }

  /** The generated nodes and sources values cover exactly the nodes of the service's 'nodes' dict. */
  lemma ServiceNodesKeys(svc: Value, service: string, home: string, envDir: string, host: Host)
    requires IsDictOrder(host.dictOrder)
    requires ServiceNodes(svc, service, home, envDir, host).Ok?
    ensures var g := ServiceNodes(svc, service, home, envDir, host).value.1;
            var nodesV := GetPath(svc, ["deployFromSources", "nodes"]);
            nodesV.Ok? && nodesV.value.VDict? &&
            forall n :: (n in g.nodes <==> n in nodesV.value.fields) && (n in g.sources <==> n in nodesV.value.fields)
  {
    var nodesV := GetPath(svc, ["deployFromSources", "nodes"]).value;
    var order := host.dictOrder(nodesV.fields);
    assert Enumerates(order, nodesV.fields.Keys);
    var enabled := if order == [] then VNone else GetPath(svc, ["deployFromSources", "enabled"]).value;
    GenerateNodesKeys(order, nodesV.fields, host.setOrder(ServiceApps(service)), service, home, envDir,
                      enabled, host.locate, host.cwd);
  }

  /**
   * The service values change only by the rewrite, which happens exactly
   * when the flag is set: both prefixes become '' and 'deploymentDir' the
   * directory relative to '/'; every other key keeps its value.
   */
  lemma ServiceNodesRewrite(svc: Value, service: string, home: string, envDir: string, host: Host)
    requires IsDictOrder(host.dictOrder)
    requires ServiceNodes(svc, service, home, envDir, host).Ok?
    ensures var (svc', g) := ServiceNodes(svc, service, home, envDir, host).value;
            svc.VDict? && svc'.VDict? &&
            (!g.override ==> svc' == svc) &&
            (g.override ==>
               var rel := RelPath(envDir, ROOT_PATH, host.cwd);
               rel.Ok? &&
               svc'.fields == svc.fields["hostPathPrefix" := VStr("")]["vmPathPrefix" := VStr("")]["deploymentDir" := VStr(rel.value)])
  {
  }

  /** `generate_nodes_config(...)`, run on the loaded values in place. */
  method GenerateNodesConfig(cfg: Doc, service: string, home: string, envDir: string, host: Host)
    returns (r: Result<(map<string, Value>, map<string, Node>)>)
    requires IsDictOrder(host.dictOrder)
    modifies cfg
    ensures var spec := NodesConfig(old(cfg.root), service, home, envDir, host);
            (spec.Ok? ==> r == Ok((spec.value.1.sources, spec.value.1.nodes)) && cfg.root == spec.value.0) &&
            (spec.Fail? ==> r == Fail(spec.error) && cfg.root == old(cfg.root))
  {
    var svc := Lookup(cfg.root, service);
    if svc.Fail? {
      return Fail(svc.error);
    }
    if !svc.value.VDict? {
      return Fail(TypeError);
    }
    var nodesV := GetPath(svc.value, ["deployFromSources", "nodes"]);
    if nodesV.Fail? {
      return Fail(nodesV.error);
    }
    if !nodesV.value.VDict? {
      return Fail(AttributeError);
    }
    var order := host.dictOrder(nodesV.value.fields);
    assert Enumerates(order, nodesV.value.fields.Keys);
    var enabled := Ok(VNone);
    if order != [] {
      enabled := GetPath(svc.value, ["deployFromSources", "enabled"]);
      if enabled.Fail? {
        return Fail(enabled.error);
      }
    }
    var g := GenerateServiceNodes(order, nodesV.value.fields, host.setOrder(ServiceApps(service)), service, home, envDir,
                                  enabled.value, host.locate, host.cwd);
    if g.Fail? {
      return Fail(g.error);
    }
    if g.value.override {
      var rel := RelPath(envDir, ROOT_PATH, host.cwd);
      if rel.Fail? {
        return Fail(rel.error);
      }
      var svc' := VDict(svc.value.fields["hostPathPrefix" := VStr("")]["vmPathPrefix" := VStr("")]["deploymentDir" := VStr(rel.value)]);
      cfg.root := VDict(cfg.root.fields[service := svc']);
    } else {
      cfg.root := VDict(cfg.root.fields[service := svc.value]);
    }
    r := Ok((g.value.sources, g.value.nodes));
  }

  /**
   * The rewrite is decided by the last app, in app order, of the last node,
   * in dict order: it happens iff that app was located outside '/home'.
   */
  lemma ServiceNodesFlag(svc: Value, service: string, home: string, envDir: string, host: Host)
    requires IsDictOrder(host.dictOrder)
    requires ServiceNodes(svc, service, home, envDir, host).Ok?
    ensures var g := ServiceNodes(svc, service, home, envDir, host).value.1;
            var nodesV := GetPath(svc, ["deployFromSources", "nodes"]);
            var apps := host.setOrder(ServiceApps(service));
            nodesV.Ok? && nodesV.value.VDict? &&
            var order := host.dictOrder(nodesV.value.fields);
            (order == [] || apps == [] ==> !g.override) &&
            (order != [] && apps != [] ==>
               var last := order[|order| - 1];
               last in nodesV.value.fields &&
               var cfg := GenerateAppConfig(apps[|apps| - 1], last, nodesV.value.fields[last], service, home,
                                            GetPath(svc, ["deployFromSources", "enabled"]).value, host.locate, host.cwd);
               cfg.Ok? && g.override == cfg.value.1)
  {
    var nodesV := GetPath(svc, ["deployFromSources", "nodes"]).value;
    var order := host.dictOrder(nodesV.fields);
    assert Enumerates(order, nodesV.fields.Keys);
    var enabled := if order == [] then VNone else GetPath(svc, ["deployFromSources", "enabled"]).value;
    GenerateNodesFlag(order, nodesV.fields, host.setOrder(ServiceApps(service)), service, home, envDir,
                      enabled, host.locate, host.cwd);
  }

  /**
   * `generate_nodes_config` as written: since `sources.locate` raises, a
   * service whose nodes are generated at all had no app located, so the
   * override flag stays False and the service values are not rewritten.
   */
  lemma ServiceNodesAsWritten(svc: Value, service: string, home: string, envDir: string, host: Host, intended: Locator)
    requires IsDictOrder(host.dictOrder)
    requires host.locate == LocateAsWritten(intended)
    requires ServiceNodes(svc, service, home, envDir, host).Ok?
    ensures var (svc', g) := ServiceNodes(svc, service, home, envDir, host).value;
            !g.override && svc' == svc
  {
    ServiceNodesRewrite(svc, service, home, envDir, host);
    var nodesV := GetPath(svc, ["deployFromSources", "nodes"]).value;
    var order := host.dictOrder(nodesV.fields);
    assert Enumerates(order, nodesV.fields.Keys);
    var enabled := if order == [] then VNone else GetPath(svc, ["deployFromSources", "enabled"]).value;
    GenerateNodesNoOverride(order, nodesV.fields, host.setOrder(ServiceApps(service)), service, home, envDir,
                            enabled, intended, host.cwd);
  }

  /** With `sources.locate` as written, a nodes loop that completes ends with the flag False. */
  lemma GenerateNodesNoOverride(order: seq<string>, nodesCfg: map<string, Value>, apps: seq<string>,
                                service: string, home: string, envDir: string, enabled: Value,
                                intended: Locator, cwd: string)
    requires forall n :: n in order ==> n in nodesCfg
    requires GenerateNodes(order, nodesCfg, apps, service, home, envDir, enabled, LocateAsWritten(intended), cwd).Ok?
    ensures !GenerateNodes(order, nodesCfg, apps, service, home, envDir, enabled, LocateAsWritten(intended), cwd).value.override
  {
    GenerateNodesFlag(order, nodesCfg, apps, service, home, envDir, enabled, LocateAsWritten(intended), cwd);
    if order != [] && apps != [] {
      var last := order[|order| - 1];
      GenerateAppConfigAsWritten(apps[|apps| - 1], last, nodesCfg[last], service, home, enabled, intended, cwd);
    }
  }

  // ---------------------------------------------------------------------------
  // generate_configs

  /**
   * The prefixes every service gets before its nodes are generated: the
   * host and VM home directories, and the deployment directory relative to
   * the host home directory.
   */
  function Prefixed(svc: Value, home: string, kubeHome: Value, deploymentDir: string, cwd: string): (r: Result<Value>)
    ensures r.Ok? <==> svc.VDict? && RelPath(deploymentDir, home, cwd).Ok?
    ensures r.Ok? ==> r.value.VDict? && r.value.fields.Keys == svc.fields.Keys + {"hostPathPrefix", "vmPathPrefix", "deploymentDir"}
    ensures r.Ok? ==> r.value.fields["hostPathPrefix"] == VStr(home) && r.value.fields["vmPathPrefix"] == kubeHome &&
                      r.value.fields["deploymentDir"] == VStr(RelPath(deploymentDir, home, cwd).value)
    ensures r.Ok? ==> forall k :: k in svc.fields && k !in {"hostPathPrefix", "vmPathPrefix", "deploymentDir"} ==>
                        r.value.fields[k] == svc.fields[k]
  {
    if !svc.VDict? then Fail(TypeError)
    else
      var rel :- RelPath(deploymentDir, home, cwd);
      Ok(VDict(svc.fields["hostPathPrefix" := VStr(home)]["vmPathPrefix" := kubeHome]["deploymentDir" := VStr(rel)]))
  }

  /** The service values once its nodes are generated: rewritten if need be, with the generated 'nodes'. */
  function Configured(svc: Value, service: string, home: string, deploymentDir: string, host: Host): Result<(Value, ServiceGen)>
    requires IsDictOrder(host.dictOrder)
  {
    var (svc', g) :- ServiceNodes(svc, service, home, deploymentDir, host);
    var svc'' :- SetPath(svc', ["deployFromSources", "nodes"], VDict(g.sources));
    Ok((svc'', g))
  }

  /** What the loop over services has built: the scenario's values and the nodes of every service. */
  datatype ConfigGen = ConfigGen(scenario: map<string, Value>, nodes: map<string, map<string, Node>>)

  /**
   * The parts of one service's round that read its values: adding the
   * prefixes, then generating its nodes from the prefixed values. The loop
   * over services sees nothing else of them.
   */
  datatype Round = Round(prefix: Value -> Result<Value>, configure: (Value, string) -> Result<(Value, ServiceGen)>)

  /** The round of `generate_configs`: `Prefixed`, then `Configured`, under a dict order that lists every dict. */
  ghost function RoundOf(home: string, kubeHome: Value, deploymentDir: string, host: Host): Round
  {
    Round(svc => Prefixed(svc, home, kubeHome, deploymentDir, host.cwd),
          (pre, service) => if IsDictOrder(host.dictOrder) then Configured(pre, service, home, deploymentDir, host)
                            else Fail(TypeError))
  }

  /**
   * One service of the loop: its prefixes, its directory, its nodes; the
   * directories that exist afterwards are returned even when a later part
   * fails, since a made directory stays made.
   */
  function ServiceStep(gen: ConfigGen, service: string, round: Round, deploymentDir: string,
                       files: map<string, string>, dirs: set<string>): (r: (Result<ConfigGen>, set<string>))
    requires service in gen.scenario
    ensures r.0.Ok? ==> r.0.value.scenario.Keys == gen.scenario.Keys
  {
    var pre := round.prefix(gen.scenario[service]);
    if pre.Fail? then (Fail(pre.error), dirs)
    else
      var made := MkdirOf(files, dirs, PathJoin(deploymentDir, service), deploymentDir);
      if made.Fail? then (Fail(made.error), dirs)
      else
        var c := round.configure(pre.value, service);
        if c.Fail? then (Fail(c.error), made.value)
        else (Ok(ConfigGen(gen.scenario[service := c.value.0], gen.nodes[service := c.value.1.nodes])), made.value)
  }

  /** The loop over the services, in `services` order, stopping at the first failure. */
  function ServicesLoop(services: seq<string>, gen: ConfigGen, round: Round, deploymentDir: string,
                        files: map<string, string>, dirs: set<string>): (Result<ConfigGen>, set<string>)
    requires forall s :: s in services ==> s in gen.scenario
    decreases |services|
  {
    if services == [] then (Ok(gen), dirs)
    else
      var (r, d) := ServiceStep(gen, services[0], round, deploymentDir, files, dirs);
      if r.Fail? then (r, d)
      else ServicesLoop(services[1..], r.value, round, deploymentDir, files, d)
  }

  /**
   * `generate_configs(sources_cfg, path, scenario_key, deployment_dir)`: the
   * new document, the document that is dumped (only the scenario key), and
   * the nodes of every service; with the directories afterwards. Iterating
   * an empty list or string runs no service; any other non-dict is a
   * TypeError.
   */
  ghost function GenerateConfigsOf(root: Value, scenarioKey: string, home: string, kubeHome: Value,
                                   deploymentDir: string, host: Host, files: map<string, string>, dirs: set<string>)
    : (Result<(Value, Value, map<string, map<string, Node>>)>, set<string>)
    requires IsDictOrder(host.dictOrder)
  {
    var scen := Lookup(root, scenarioKey);
    if scen.Fail? then (Fail(scen.error), dirs)
    else if !scen.value.VDict? then
      if scen.value == VList([]) || scen.value == VStr([]) then
        (Ok((root, VDict(map[scenarioKey := scen.value]), map[])), dirs)
      else (Fail(TypeError), dirs)
    else
      var services := host.dictOrder(scen.value.fields);
      assert Enumerates(services, scen.value.fields.Keys);
      var (r, d) := ServicesLoop(services, ConfigGen(scen.value.fields, map[]), RoundOf(home, kubeHome, deploymentDir, host),
                                 deploymentDir, files, dirs);
      if r.Fail? then (Fail(r.error), d)
      else
        var scen' := VDict(r.value.scenario);
        (Ok((VDict(root.fields[scenarioKey := scen']), VDict(map[scenarioKey := scen']), r.value.nodes)), d)
  }

  /** `generate_nodes_config` reads and writes only the service's own values. */
  lemma NodesConfigAt(m: map<string, Value>, service: string, svc: Value, home: string, envDir: string, host: Host)
    requires IsDictOrder(host.dictOrder)
    ensures NodesConfig(VDict(m[service := svc]), service, home, envDir, host) ==
            (var sn :- ServiceNodes(svc, service, home, envDir, host); Ok((VDict(m[service := sn.0]), sn.1)))
  {
    var sn := ServiceNodes(svc, service, home, envDir, host);
    if sn.Ok? {
      assert m[service := svc][service := sn.value.0] == m[service := sn.value.0];
    }
  }

  /** What one service's values become, prefixes first and then its nodes. */
  function ServiceOutcome(svc: Value, service: string, home: string, kubeHome: Value, deploymentDir: string,
                          host: Host): Result<(Value, ServiceGen)>
    requires IsDictOrder(host.dictOrder)
  {
    var pre :- Prefixed(svc, home, kubeHome, deploymentDir, host.cwd);
    Configured(pre, service, home, deploymentDir, host)
  }

  /** What one service's values become under `round`. */
  function RoundOutcome(round: Round, svc: Value, service: string): Result<(Value, ServiceGen)>
  {
    var pre :- round.prefix(svc);
    round.configure(pre, service)
  }

  /** Under the round of `generate_configs`, that is `ServiceOutcome`. */
  lemma RoundOfOutcome(svc: Value, service: string, home: string, kubeHome: Value, deploymentDir: string, host: Host)
    requires IsDictOrder(host.dictOrder)
    ensures RoundOutcome(RoundOf(home, kubeHome, deploymentDir, host), svc, service) ==
            ServiceOutcome(svc, service, home, kubeHome, deploymentDir, host)
  {
  }

  /**
   * A configured service ends with the generated 'nodes' (one per node of
   * its 'nodes' dict) and with prefixes that depend on the flag: the home
   * directories and the home-relative deployment directory when it is
   * unset, '' and the '/'-relative directory when it is set.
   */
  lemma ServiceOutcomeEffect(svc: Value, service: string, home: string, kubeHome: Value, deploymentDir: string,
                             host: Host)
    requires IsDictOrder(host.dictOrder)
    requires ServiceOutcome(svc, service, home, kubeHome, deploymentDir, host).Ok?
    ensures var (svc', g) := ServiceOutcome(svc, service, home, kubeHome, deploymentDir, host).value;
            var nodes := GetPath(svc, ["deployFromSources", "nodes"]);
            var rel := RelPath(deploymentDir, if g.override then ROOT_PATH else home, host.cwd);
            svc.VDict? && svc'.VDict? && nodes.Ok? && nodes.value.VDict? &&
            GetPath(svc', ["deployFromSources", "nodes"]) == Ok(VDict(g.sources)) &&
            (forall n :: n in g.sources <==> n in nodes.value.fields) &&
            rel.Ok? &&
            "hostPathPrefix" in svc'.fields && "vmPathPrefix" in svc'.fields && "deploymentDir" in svc'.fields &&
            svc'.fields["hostPathPrefix"] == VStr(if g.override then "" else home) &&
            svc'.fields["vmPathPrefix"] == (if g.override then VStr("") else kubeHome) &&
            svc'.fields["deploymentDir"] == VStr(rel.value)
  {
    var pre := Prefixed(svc, home, kubeHome, deploymentDir, host.cwd).value;
    var (mid, g) := ServiceNodes(pre, service, home, deploymentDir, host).value;
    var svc' := ServiceOutcome(svc, service, home, kubeHome, deploymentDir, host).value.0;
    assert GetPath(pre, ["deployFromSources", "nodes"]) == GetPath(svc, ["deployFromSources", "nodes"]) by {
      assert pre.fields["deployFromSources"] == svc.fields["deployFromSources"];
    }
    ServiceNodesKeys(pre, service, home, deploymentDir, host);
    ServiceNodesRewrite(pre, service, home, deploymentDir, host);
    GetSetPath(mid, ["deployFromSources", "nodes"], VDict(g.sources));
    assert svc'.fields == mid.fields["deployFromSources" := svc'.fields["deployFromSources"]];
  }

  /** One service of the loop changes that service's values and nodes only, as `RoundOutcome` says. */
  lemma ServiceStepOutcome(gen: ConfigGen, service: string, round: Round, deploymentDir: string,
                           files: map<string, string>, dirs: set<string>)
    requires service in gen.scenario
    requires ServiceStep(gen, service, round, deploymentDir, files, dirs).0.Ok?
    ensures var (r, d) := ServiceStep(gen, service, round, deploymentDir, files, dirs);
            var o := RoundOutcome(round, gen.scenario[service], service);
            o.Ok? && r.value.scenario == gen.scenario[service := o.value.0] &&
            r.value.nodes == gen.nodes[service := o.value.1.nodes] &&
            d == dirs + {PathJoin(deploymentDir, service)}
  {
  }

  /** The loop over services is its first step followed by the loop over the rest. */
  lemma ServicesLoopCons(services: seq<string>, gen: ConfigGen, round: Round, deploymentDir: string,
                         files: map<string, string>, dirs: set<string>)
    requires forall s :: s in services ==> s in gen.scenario
    requires services != []
    requires ServicesLoop(services, gen, round, deploymentDir, files, dirs).0.Ok?
    ensures var step := ServiceStep(gen, services[0], round, deploymentDir, files, dirs);
            step.0.Ok? && (forall s :: s in services[1..] ==> s in step.0.value.scenario) &&
            ServicesLoop(services, gen, round, deploymentDir, files, dirs) ==
            ServicesLoop(services[1..], step.0.value, round, deploymentDir, files, step.1)
  {
    assert forall s :: s in services[1..] ==> s in services;
  }

  /** A service not in the loop keeps its values and its nodes; the keys stay the same. */
  lemma {:induction false} ServicesLoopFrame(services: seq<string>, gen: ConfigGen, round: Round, deploymentDir: string,
                                             files: map<string, string>, dirs: set<string>, s: string)
    requires forall s :: s in services ==> s in gen.scenario
    requires ServicesLoop(services, gen, round, deploymentDir, files, dirs).0.Ok?
    requires s !in services
    ensures var r := ServicesLoop(services, gen, round, deploymentDir, files, dirs).0.value;
            r.scenario.Keys == gen.scenario.Keys &&
            (s in gen.scenario ==> r.scenario[s] == gen.scenario[s]) &&
            (s in r.nodes <==> s in gen.nodes) && (s in gen.nodes ==> r.nodes[s] == gen.nodes[s])
  {
    if services != [] {
      ServicesLoopCons(services, gen, round, deploymentDir, files, dirs);
      ServiceStepOutcome(gen, services[0], round, deploymentDir, files, dirs);
      var (r1, d1) := ServiceStep(gen, services[0], round, deploymentDir, files, dirs);
      ServicesLoopFrame(services[1..], r1.value, round, deploymentDir, files, d1, s);
    }
  }

  /** The directory of each of `services` under `deploymentDir`. */
  function ServiceDirs(deploymentDir: string, services: seq<string>): (r: set<string>)
    ensures forall s :: s in services ==> PathJoin(deploymentDir, s) in r
  {
    if services == [] then {} else {PathJoin(deploymentDir, services[0])} + ServiceDirs(deploymentDir, services[1..])
  }

  /** The loop makes exactly one directory per service. */
  lemma {:induction false} ServicesLoopDirs(services: seq<string>, gen: ConfigGen, round: Round, deploymentDir: string,
                                            files: map<string, string>, dirs: set<string>)
    requires forall s :: s in services ==> s in gen.scenario
    requires ServicesLoop(services, gen, round, deploymentDir, files, dirs).0.Ok?
    ensures ServicesLoop(services, gen, round, deploymentDir, files, dirs).1 == dirs + ServiceDirs(deploymentDir, services)
  {
    if services != [] {
      ServicesLoopCons(services, gen, round, deploymentDir, files, dirs);
      ServiceStepOutcome(gen, services[0], round, deploymentDir, files, dirs);
      var (r1, d1) := ServiceStep(gen, services[0], round, deploymentDir, files, dirs);
      ServicesLoopDirs(services[1..], r1.value, round, deploymentDir, files, d1);
    }
  }

  /** The loop records nodes for exactly the services it ran, on top of those already recorded, and adds no service. */
  lemma {:induction false} ServicesLoopNodes(services: seq<string>, gen: ConfigGen, round: Round, deploymentDir: string,
                                             files: map<string, string>, dirs: set<string>)
    requires forall s :: s in services ==> s in gen.scenario
    requires ServicesLoop(services, gen, round, deploymentDir, files, dirs).0.Ok?
    ensures var r := ServicesLoop(services, gen, round, deploymentDir, files, dirs).0.value;
            r.scenario.Keys == gen.scenario.Keys && forall x :: x in r.nodes <==> x in gen.nodes || x in services
  {
    if services != [] {
      ServicesLoopCons(services, gen, round, deploymentDir, files, dirs);
      ServiceStepOutcome(gen, services[0], round, deploymentDir, files, dirs);
      var (r1, d1) := ServiceStep(gen, services[0], round, deploymentDir, files, dirs);
      ServicesLoopNodes(services[1..], r1.value, round, deploymentDir, files, d1);
      assert forall x :: x in services <==> x == services[0] || x in services[1..] by {
        assert services == [services[0]] + services[1..];
      }
    }
  }

  /**
   * After the loop over distinct services, each of them holds its own
   * outcome and has its nodes recorded.
   */
  lemma {:induction false} ServicesLoopAt(services: seq<string>, gen: ConfigGen, round: Round, deploymentDir: string,
                                          files: map<string, string>, dirs: set<string>, s: string)
    requires forall s :: s in services ==> s in gen.scenario
    requires forall i, j :: 0 <= i < j < |services| ==> services[i] != services[j]
    requires ServicesLoop(services, gen, round, deploymentDir, files, dirs).0.Ok?
    requires s in services
    ensures var r := ServicesLoop(services, gen, round, deploymentDir, files, dirs).0.value;
            var o := RoundOutcome(round, gen.scenario[s], s);
            o.Ok? && s in r.scenario && r.scenario[s] == o.value.0 && s in r.nodes && r.nodes[s] == o.value.1.nodes
  {
    var service := services[0];
    var rest := services[1..];
    ServicesLoopCons(services, gen, round, deploymentDir, files, dirs);
    ServiceStepOutcome(gen, service, round, deploymentDir, files, dirs);
    var (r1, d1) := ServiceStep(gen, service, round, deploymentDir, files, dirs);
    if s == service {
      assert service !in rest by {
        forall j | 0 <= j < |rest| ensures rest[j] != service {
          assert rest[j] == services[j + 1];
        }
      }
      ServicesLoopFrame(rest, r1.value, round, deploymentDir, files, d1, s);
    } else {
      assert s in rest by {
        assert services == [service] + rest;
      }
      forall i, j | 0 <= i < j < |rest| ensures rest[i] != rest[j] {
        assert rest[i] == services[i + 1] && rest[j] == services[j + 1];
      }
      ServicesLoopAt(rest, r1.value, round, deploymentDir, files, d1, s);
    }
  }

  /** On a scenario dict, `generate_configs` is the services loop in the dict's order. */
  lemma GenerateConfigsLoop(root: Value, scenarioKey: string, home: string, kubeHome: Value, deploymentDir: string,
                            host: Host, files: map<string, string>, dirs: set<string>)
    requires IsDictOrder(host.dictOrder)
    requires Lookup(root, scenarioKey).Ok? && Lookup(root, scenarioKey).value.VDict?
    ensures var scen := Lookup(root, scenarioKey).value;
            var services := host.dictOrder(scen.fields);
            (forall s :: s in services ==> s in scen.fields) &&
            var (loop, d) := ServicesLoop(services, ConfigGen(scen.fields, map[]), RoundOf(home, kubeHome, deploymentDir, host),
                                          deploymentDir, files, dirs);
            GenerateConfigsOf(root, scenarioKey, home, kubeHome, deploymentDir, host, files, dirs) ==
            if loop.Fail? then (Fail(loop.error), d)
            else (Ok((VDict(root.fields[scenarioKey := VDict(loop.value.scenario)]),
                      VDict(map[scenarioKey := VDict(loop.value.scenario)]), loop.value.nodes)), d)
  {
    var scen := Lookup(root, scenarioKey).value;
    assert Enumerates(host.dictOrder(scen.fields), scen.fields.Keys);
  }

  /**
   * `generate_configs` dumps a document holding the scenario key alone,
   * leaves the other keys of the document it was handed as they were,
   * records nodes for every service of the scenario and makes one
   * directory per service.
   */
  lemma GenerateConfigsShape(root: Value, scenarioKey: string, home: string, kubeHome: Value, deploymentDir: string,
                             host: Host, files: map<string, string>, dirs: set<string>)
    requires IsDictOrder(host.dictOrder)
    requires GenerateConfigsOf(root, scenarioKey, home, kubeHome, deploymentDir, host, files, dirs).0.Ok?
    requires Lookup(root, scenarioKey).Ok? && Lookup(root, scenarioKey).value.VDict?
    ensures var (r, d) := GenerateConfigsOf(root, scenarioKey, home, kubeHome, deploymentDir, host, files, dirs);
            var scen := Lookup(root, scenarioKey).value;
            r.value.1.VDict? && r.value.1.fields.Keys == {scenarioKey} &&
            r.value.0 == VDict(root.fields[scenarioKey := r.value.1.fields[scenarioKey]]) &&
            r.value.1.fields[scenarioKey].VDict? && r.value.1.fields[scenarioKey].fields.Keys == scen.fields.Keys &&
            r.value.2.Keys == scen.fields.Keys &&
            d == dirs + ServiceDirs(deploymentDir, host.dictOrder(scen.fields))
  {
    var scen := Lookup(root, scenarioKey).value;
    var services := host.dictOrder(scen.fields);
    assert Enumerates(services, scen.fields.Keys);
    var gen := ConfigGen(scen.fields, map[]);
    var round := RoundOf(home, kubeHome, deploymentDir, host);
    GenerateConfigsLoop(root, scenarioKey, home, kubeHome, deploymentDir, host, files, dirs);
    ServicesLoopDirs(services, gen, round, deploymentDir, files, dirs);
    ServicesLoopNodes(services, gen, round, deploymentDir, files, dirs);
    var loop := ServicesLoop(services, gen, round, deploymentDir, files, dirs).0;
    assert map[scenarioKey := VDict(loop.value.scenario)].Keys == {scenarioKey};
  }

  /**
   * `generate_configs` leaves each service of the scenario with its own
   * outcome (prefixes, rewrite, generated 'nodes') and records its nodes.
   */
  lemma GenerateConfigsAt(root: Value, scenarioKey: string, home: string, kubeHome: Value, deploymentDir: string,
                          host: Host, files: map<string, string>, dirs: set<string>, s: string)
    requires IsDictOrder(host.dictOrder)
    requires GenerateConfigsOf(root, scenarioKey, home, kubeHome, deploymentDir, host, files, dirs).0.Ok?
    requires Lookup(root, scenarioKey).Ok? && Lookup(root, scenarioKey).value.VDict?
    requires s in Lookup(root, scenarioKey).value.fields
    ensures var r := GenerateConfigsOf(root, scenarioKey, home, kubeHome, deploymentDir, host, files, dirs).0.value;
            var o := ServiceOutcome(Lookup(root, scenarioKey).value.fields[s], s, home, kubeHome, deploymentDir, host);
            o.Ok? && scenarioKey in r.1.fields && r.1.fields[scenarioKey].VDict? &&
            s in r.1.fields[scenarioKey].fields && r.1.fields[scenarioKey].fields[s] == o.value.0 &&
            s in r.2 && r.2[s] == o.value.1.nodes
  {
    var scen := Lookup(root, scenarioKey).value;
    var services := host.dictOrder(scen.fields);
    assert Enumerates(services, scen.fields.Keys);
    var gen := ConfigGen(scen.fields, map[]);
    GenerateConfigsLoop(root, scenarioKey, home, kubeHome, deploymentDir, host, files, dirs);
    ServicesLoopAt(services, gen, RoundOf(home, kubeHome, deploymentDir, host), deploymentDir, files, dirs, s);
    RoundOfOutcome(scen.fields[s], s, home, kubeHome, deploymentDir, host);
  }

  /** The body of the services loop for one service, on the scenario's values `sources` in place. */
  method ConfigureService(sources: Doc, fs: FileSystem, nodesCfg: map<string, map<string, Node>>, service: string,
                          home: string, kubeHome: Value, deploymentDir: string, host: Host)
    returns (r: Result<map<string, map<string, Node>>>)
    requires IsDictOrder(host.dictOrder) && sources.root.VDict? && service in sources.root.fields
    modifies sources, fs
    ensures var step := ServiceStep(ConfigGen(old(sources.root.fields), nodesCfg), service,
                                    RoundOf(home, kubeHome, deploymentDir, host), deploymentDir,
                                    old(fs.files), old(fs.dirs));
            var spec := step.0;
            fs.files == old(fs.files) && fs.dirs == step.1 &&
            (spec.Ok? ==> r == Ok(spec.value.nodes) && sources.root == VDict(spec.value.scenario)) &&
            (spec.Fail? ==> r == Fail(spec.error))
  {
    ghost var round := RoundOf(home, kubeHome, deploymentDir, host);
    var pre := Prefixed(sources.root.fields[service], home, kubeHome, deploymentDir, host.cwd);
    assert round.prefix(sources.root.fields[service]) == pre;
    if pre.Fail? {
      return Fail(pre.error);
    }
    var before := sources.root.fields;
    sources.root := VDict(sources.root.fields[service := pre.value]);
    var made := fs.Mkdir(PathJoin(deploymentDir, service), deploymentDir);
    if made.Fail? {
      return Fail(made.error);
    }
    NodesConfigAt(before, service, pre.value, home, deploymentDir, host);
    var g := GenerateNodesConfig(sources, service, home, deploymentDir, host);
    assert round.configure(pre.value, service) == Configured(pre.value, service, home, deploymentDir, host);
    if g.Fail? {
      return Fail(g.error);
    }
    ghost var sn := ServiceNodes(pre.value, service, home, deploymentDir, host).value;
    assert sources.root.fields[service] == sn.0 && g.value == (sn.1.sources, sn.1.nodes);
    var svc' := SetPath(sources.root.fields[service], ["deployFromSources", "nodes"], VDict(g.value.0));
    if svc'.Fail? {
      assert Configured(pre.value, service, home, deploymentDir, host) == Fail(svc'.error);
      return Fail(svc'.error);
    }
    assert Configured(pre.value, service, home, deploymentDir, host) == Ok((svc'.value, sn.1));
    sources.root := VDict(before[service := svc'.value]);
    r := Ok(nodesCfg[service := g.value.1]);
  }

  /** The loop over `services`, on the scenario's values `sources` in place. */
  method RunServices(sources: Doc, fs: FileSystem, services: seq<string>, home: string, kubeHome: Value,
                     deploymentDir: string, host: Host)
    returns (r: Result<map<string, map<string, Node>>>)
    requires IsDictOrder(host.dictOrder) && sources.root.VDict?
    requires forall s :: s in services ==> s in sources.root.fields
    modifies sources, fs
    ensures var loop := ServicesLoop(services, ConfigGen(old(sources.root.fields), map[]),
                                     RoundOf(home, kubeHome, deploymentDir, host), deploymentDir,
                                     old(fs.files), old(fs.dirs));
            fs.files == old(fs.files) && fs.dirs == loop.1 &&
            (loop.0.Ok? ==> r == Ok(loop.0.value.nodes) && sources.root == VDict(loop.0.value.scenario)) &&
            (loop.0.Fail? ==> r == Fail(loop.0.error))
  {
    ghost var round := RoundOf(home, kubeHome, deploymentDir, host);
    var nodesCfg: map<string, map<string, Node>> := map[];
    var i := 0;
    while i < |services|
      invariant 0 <= i <= |services|
      invariant fs.files == old(fs.files)
      invariant sources.root.VDict? && sources.root.fields.Keys == old(sources.root.fields).Keys
      invariant ServicesLoop(services[i..], ConfigGen(sources.root.fields, nodesCfg), round, deploymentDir,
                             fs.files, fs.dirs) ==
                ServicesLoop(services, ConfigGen(old(sources.root.fields), map[]), round, deploymentDir,
                             old(fs.files), old(fs.dirs))
    {
      assert services[i..][1..] == services[i + 1..];
      var next := ConfigureService(sources, fs, nodesCfg, services[i], home, kubeHome, deploymentDir, host);
      if next.Fail? {
        return Fail(next.error);
      }
      nodesCfg := next.value;
      i := i + 1;
    }
    assert services[i..] == [];
    r := Ok(nodesCfg);
  }

  /**
   * `generate_configs(...)`, run in place: the scenario's values are
   * updated service by service, directories are made on `fs`, and the
   * document is updated once every service has succeeded. Returns the
   * dumped document and the nodes of every service.
   */
  method GenerateConfigs(doc: Doc, fs: FileSystem, scenarioKey: string, home: string, kubeHome: Value,
                         deploymentDir: string, host: Host)
    returns (r: Result<(Value, map<string, map<string, Node>>)>)
    requires IsDictOrder(host.dictOrder)
    modifies doc, fs
    ensures var (spec, d) := GenerateConfigsOf(old(doc.root), scenarioKey, home, kubeHome, deploymentDir, host,
                                               old(fs.files), old(fs.dirs));
            fs.files == old(fs.files) && fs.dirs == d &&
            (spec.Ok? ==> r == Ok((spec.value.1, spec.value.2)) && doc.root == spec.value.0) &&
            (spec.Fail? ==> r == Fail(spec.error) && doc.root == old(doc.root))
  {
    var scen := Lookup(doc.root, scenarioKey);
    if scen.Fail? {
      return Fail(scen.error);
    }
    if !scen.value.VDict? {
      if scen.value == VList([]) || scen.value == VStr([]) {
        return Ok((VDict(map[scenarioKey := scen.value]), map[]));
      }
      return Fail(TypeError);
    }
    var services := host.dictOrder(scen.value.fields);
    assert Enumerates(services, scen.value.fields.Keys);
    var sources := new Doc(scen.value);
    var nodesCfg := RunServices(sources, fs, services, home, kubeHome, deploymentDir, host);
    if nodesCfg.Fail? {
      return Fail(nodesCfg.error);
    }
    doc.root := VDict(doc.root.fields[scenarioKey := sources.root]);
    r := Ok((VDict(map[scenarioKey := sources.root]), nodesCfg.value));
  }
}
