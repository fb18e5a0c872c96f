/**
 * The naming conventions shared by all scripts (scripts/utils/names_and_paths.py):
 * application and service names, pod names, the paths of a release inside a
 * source tree and inside a package installation, and the provider aliases.
 */
module NamesAndPaths {
  import opened Util
  import opened Paths

  const APP_ONEPANEL: string := "onepanel"
  const APP_OZ_PANEL: string := "oz-panel"
  const APP_ONEZONE: string := "oz-worker"
  const APP_OP_PANEL: string := "op-panel"
  const APP_ONEPROVIDER: string := "op-worker"
  const APP_CLUSTER_MANAGER: string := "cluster-manager"

  const APP_TYPE_WORKER: string := "worker"
  const APP_TYPE_PANEL: string := "panel"
  const APP_TYPE_CLUSTER_MANAGER: string := "cluster-manager"

  const SERVICE_ONEZONE: string := "onezone"
  const SERVICE_ONEPROVIDER: string := "oneprovider"

  /**
   * The oneclient service name. The scripts import it from this module,
   * which does not define it (see `SourcesImportFails`); its value is left
   * open.
   */
  const SERVICE_ONECLIENT: string

  /** Where the oneclient binary goes in a client pod; imported from this module but not defined in it either. */
  const ONECLIENT_BIN_PATH: string

  const NODE_NAME: char := 'n'

  const ONEDATA_CHART_REPO: string := "https://onedata.github.io/charts/"
  const CROSS_SUPPORT_JOB: string := "cross-support-job-3p"
  const CROSS_SUPPORT_JOB_REPO_PATH: string := "onedata/cross-support-job-3p"
  const ONEDATA_3P: string := "onedata-3p"

  const ONEZONE_APPS: set<string> := {APP_OZ_PANEL, APP_CLUSTER_MANAGER, APP_ONEZONE}
  const ONEPROVIDER_APPS: set<string> := {APP_OP_PANEL, APP_CLUSTER_MANAGER, APP_ONEPROVIDER}

  /** SERVICE_MAPPING, in its insertion order (which decides the first match below). */
  const SERVICE_MAPPING: seq<(string, string)> := [
    ("oneprovider-krakow", "oneprovider-1"),
    ("oneprovider-paris", "oneprovider-2"),
    ("oneprovider-lisbon", "oneprovider-3"),
    ("oneprovider-1", "oneprovider-krakow"),
    ("oneprovider-2", "oneprovider-paris"),
    ("oneprovider-3", "oneprovider-lisbon"),
    ("onezone", "onezone")
  ]

  // ---------------------------------------------------------------------------
  // What the module binds, and what is imported from it

  /** The names the module binds: what it imports, its constants and its functions. */
  const BOUND_NAMES: set<string> := {
    "Optional", "join_path", "user_config",
    "APP_ONEPANEL", "APP_OZ_PANEL", "APP_ONEZONE", "APP_OP_PANEL", "APP_ONEPROVIDER", "APP_CLUSTER_MANAGER",
    "APP_TYPE_WORKER", "APP_TYPE_PANEL", "APP_TYPE_CLUSTER_MANAGER",
    "SERVICE_ONEZONE", "SERVICE_ONEPROVIDER", "NODE_NAME",
    "ONEDATA_CHART_REPO", "CROSS_SUPPORT_JOB", "CROSS_SUPPORT_JOB_REPO_PATH", "ONEDATA_3P",
    "ONEZONE_APPS", "ONEPROVIDER_APPS", "SERVICE_MAPPING", "SERVICE_AND_APP_TYPE_TO_APP_MAPPING",
    "gen_pod_name", "rel_sources_dir", "rel_start_script_file", "abs_start_script_file", "rel_logs_dir",
    "abs_logs_dir", "service_and_app_type_to_app", "service_name_to_alias_mapping"
  }

  /** The names each modelled script imports from the module, in the order of its import statement. */
  const SOURCES_PATHS_IMPORTS: seq<string> := [
    "gen_pod_name", "APP_OZ_PANEL", "APP_OP_PANEL", "APP_ONEPROVIDER", "APP_ONEZONE", "APP_CLUSTER_MANAGER",
    "join_path", "rel_sources_dir", "rel_start_script_file", "abs_start_script_file", "abs_logs_dir",
    "rel_logs_dir", "SERVICE_ONECLIENT", "oneclient_sources_dirs"]
  const SOURCES_IMPORTS: seq<string> := ["SERVICE_ONECLIENT", "ONECLIENT_BIN_PATH", "get_service_type"]
  const CONFIG_PARSER_IMPORTS: seq<string> := [
    "service_name_to_alias_mapping", "get_service_type", "SERVICE_ONEPROVIDER", "get_matching_oneclient",
    "SERVICE_ONECLIENT"]
  const UPGRADE_IMPORTS: seq<string> := ["ONEDATA_3P"]
  const CONFIG_GENERATOR_IMPORTS: seq<string> := ["SERVICE_ONEZONE", "ONEZONE_APPS", "ONEPROVIDER_APPS"]
  const NODE_IMPORTS: seq<string> := ["APP_TYPE_PANEL", "APP_ONEPANEL"]
  const SCENARIO_RUNNER_IMPORTS: seq<string> := [
    "CROSS_SUPPORT_JOB_REPO_PATH", "CROSS_SUPPORT_JOB", "service_name_to_alias_mapping"]

  /**
   * The names the scripts import that the module does not bind. The model
   * gives each of them as a constant or a parameter.
   */
  const SUPPLIED_NAMES: set<string> := {
    "SERVICE_ONECLIENT", "ONECLIENT_BIN_PATH", "oneclient_sources_dirs", "get_service_type",
    "get_matching_oneclient"
  }

  /**
   * `from <module> import (names...)` against a module binding `bound`:
   * an ImportError naming the first name it does not bind.
   */
  function ImportFrom(names: seq<string>, bound: set<string>): (r: Result<()>)
    ensures r.Ok? <==> forall i :: 0 <= i < |names| ==> names[i] in bound
    ensures r.Fail? ==> exists i :: 0 <= i < |names| && names[i] !in bound && r.error == ImportError(names[i])
                                    && forall j :: 0 <= j < i ==> names[j] in bound
  {
    if names == [] then Ok(())
    else if names[0] !in bound then Fail(ImportError(names[0]))
    else
      var r := ImportFrom(names[1..], bound);
      if r.Fail? then FirstMissingShift(names, bound, r.error); r else r
  }

  /** The first missing name of the tail is the first missing name of the whole list when its head is bound. */
  lemma FirstMissingShift(names: seq<string>, bound: set<string>, e: Error)
    requires names != [] && names[0] in bound
    requires var t := names[1..];
             exists i :: 0 <= i < |t| && t[i] !in bound && e == ImportError(t[i]) && forall j :: 0 <= j < i ==> t[j] in bound
    ensures exists i :: 0 <= i < |names| && names[i] !in bound && e == ImportError(names[i])
                        && forall j :: 0 <= j < i ==> names[j] in bound
  {
    var t := names[1..];
    var i :| 0 <= i < |t| && t[i] !in bound && e == ImportError(t[i]) && forall j :: 0 <= j < i ==> t[j] in bound;
    assert names[i + 1] == t[i];
    forall j | 0 <= j < i + 1 ensures names[j] in bound {
      if j > 0 {
        assert names[j] == t[j - 1];
      }
    }
  }

  /** The import stops at the name at `k` when it is the first one the module does not bind. */
  lemma ImportFailsAt(names: seq<string>, bound: set<string>, k: nat)
    requires k < |names| && names[k] !in bound && forall j :: 0 <= j < k ==> names[j] in bound
    ensures ImportFrom(names, bound) == Fail(ImportError(names[k]))
  {
    var r := ImportFrom(names, bound);
    var i :| 0 <= i < |names| && names[i] !in bound && r.error == ImportError(names[i])
             && forall j :: 0 <= j < i ==> names[j] in bound;
    assert i == k;
  }

  /**
   * As the module stands, three of the modelled scripts cannot be imported:
   * sources_paths.py and sources.py stop at SERVICE_ONECLIENT, and
   * config_parser.py at get_service_type.
   */
  lemma SourcesPathsImportFails()
    ensures ImportFrom(SOURCES_PATHS_IMPORTS, BOUND_NAMES) == Fail(ImportError("SERVICE_ONECLIENT"))
  {
    ImportFailsAt(SOURCES_PATHS_IMPORTS, BOUND_NAMES, 12);
  }

  lemma SourcesImportFails()
    ensures ImportFrom(SOURCES_IMPORTS, BOUND_NAMES) == Fail(ImportError("SERVICE_ONECLIENT"))
  {
    ImportFailsAt(SOURCES_IMPORTS, BOUND_NAMES, 0);
  }

  lemma ConfigParserImportFails()
    ensures ImportFrom(CONFIG_PARSER_IMPORTS, BOUND_NAMES) == Fail(ImportError("get_service_type"))
  {
    ImportFailsAt(CONFIG_PARSER_IMPORTS, BOUND_NAMES, 1);
  }

  /** The imports of config_generator.py, node.py, onenv_upgrade.py and scenario_runner.py's own list succeed. */
  lemma OtherImportsSucceed()
    ensures ImportFrom(CONFIG_GENERATOR_IMPORTS, BOUND_NAMES).Ok?
    ensures ImportFrom(NODE_IMPORTS, BOUND_NAMES).Ok?
    ensures ImportFrom(SCENARIO_RUNNER_IMPORTS, BOUND_NAMES).Ok?
  {
  }

  /** onenv_upgrade.py imports only ONEDATA_3P, which the module binds. */
  lemma UpgradeImportSucceeds()
    ensures ImportFrom(UPGRADE_IMPORTS, BOUND_NAMES) == Ok(())
  {
  }

  /**
   * The names the model supplies are exactly the imported names the module
   * lacks, and once it binds them every import succeeds.
   */
  lemma ImportsWithSupplied()
    ensures SUPPLIED_NAMES !! BOUND_NAMES
    ensures forall n :: n in SUPPLIED_NAMES ==>
              n in SOURCES_PATHS_IMPORTS || n in SOURCES_IMPORTS || n in CONFIG_PARSER_IMPORTS
    ensures ImportFrom(SOURCES_PATHS_IMPORTS, BOUND_NAMES + SUPPLIED_NAMES).Ok?
    ensures ImportFrom(SOURCES_IMPORTS, BOUND_NAMES + SUPPLIED_NAMES).Ok?
    ensures ImportFrom(CONFIG_PARSER_IMPORTS, BOUND_NAMES + SUPPLIED_NAMES).Ok?
  {
    SuppliedDisjoint();
    SuppliedImported();
    SourcesPathsImportSupplied();
    OtherImportsSupplied();
  }

  lemma SuppliedDisjoint()
    ensures SUPPLIED_NAMES !! BOUND_NAMES
  {
  }

  lemma SuppliedImported()
    ensures forall n :: n in SUPPLIED_NAMES ==>
              n in SOURCES_PATHS_IMPORTS || n in SOURCES_IMPORTS || n in CONFIG_PARSER_IMPORTS
  {
  }

  lemma SourcesPathsImportSupplied()
    ensures ImportFrom(SOURCES_PATHS_IMPORTS, BOUND_NAMES + SUPPLIED_NAMES).Ok?
  {
  }

  lemma OtherImportsSupplied()
    ensures ImportFrom(SOURCES_IMPORTS, BOUND_NAMES + SUPPLIED_NAMES).Ok?
    ensures ImportFrom(CONFIG_PARSER_IMPORTS, BOUND_NAMES + SUPPLIED_NAMES).Ok?
  {
  }

  /**
   * `gen_pod_name(service, node_name)`: the text after the first 'n' of the
   * node name (up to the next 'n') is the pod ordinal; a node name without
   * 'n' is an IndexError. The release name is read from the user
   * configuration and is a parameter here.
   */
  function GenPodName(release: string, service: string, nodeName: string): Result<string>
  {
    var parts := Split(nodeName, NODE_NAME);
    if |parts| < 2 then Fail(IndexError)
    else Ok(release + "-" + service + "-" + parts[1])
  }

  /** A node name built as 'n' + k gives the pod name ending in '-' + k. */
  lemma GenPodNameOfNode(release: string, service: string, k: string)
    requires !HasChar(k, NODE_NAME)
    ensures GenPodName(release, service, [NODE_NAME] + k) == Ok(release + "-" + service + "-" + k)
  {
    assert [NODE_NAME] + k == [] + [NODE_NAME] + k;
    SplitFirst([], NODE_NAME, k);
    SplitNoSep(k, NODE_NAME);
  }

  /** A single path component: non-empty and without '/'. */
  predicate PlainName(s: string)
  {
    s != [] && !HasChar(s, '/')
  }

  lemma UnderscoredPlain(app: string)
    requires PlainName(app)
    ensures PlainName(Underscored(app))
  {
    var u := Underscored(app);
    forall i | 0 <= i < |u| ensures u[i] != '/' {
      assert u[i] == (if app[i] == '-' then '_' else app[i]);
    }
  }

  /** `rel_sources_dir(app)`: the release directory inside a source tree. */
  function RelSourcesDir(app: string): (r: string)
    ensures PlainName(app) ==> r == "_build/default/rel/" + Underscored(app)
  {
    var u := Underscored(app);
    var r := PathJoin(PathJoin(PathJoin("_build", "default"), "rel"), u);
    if PlainName(app) then
      UnderscoredPlain(app);
      PathJoinRel("_build/default/rel", u);
      r
    else r
  }

  /** `rel_start_script_file(app)`: the start script inside a source tree. */
  function RelStartScriptFile(app: string): (r: string)
    ensures PlainName(app) ==> r == "_build/default/rel/" + Underscored(app) + "/bin/" + Underscored(app)
  {
    var r := PathJoin(PathJoin(RelSourcesDir(app), "bin"), Underscored(app));
    if PlainName(app) then
      UnderscoredPlain(app);
      BinUnder("_build/default/rel/", Underscored(app));
      r
    else r
  }

  /** Joining 'bin' and then a plain name onto a directory ending in a plain name. */
  lemma BinUnder(prefix: string, u: string)
    requires PlainName(u)
    ensures PathJoin(PathJoin(prefix + u, "bin"), u) == prefix + u + "/bin/" + u
  {
    var d := prefix + u;
    assert d[|d| - 1] == u[|u| - 1];
    assert u[|u| - 1] != '/' by {
      assert !HasChar(u, '/');
    }
    PathJoinRel(d, "bin");
    PathJoinRel(d + "/bin", u);
    assert d + "/bin" + "/" + u == prefix + u + "/bin/" + u;
  }

  /** `abs_start_script_file(app)`: a package installation has the start script on the PATH. */
  function AbsStartScriptFile(app: string): (r: string)
    ensures r == Underscored(app)
  {
    ReplaceAll(app, "-", "_")
  }

  /** `rel_logs_dir(app)`: the log directory inside a source tree. */
  function RelLogsDir(app: string): (r: string)
    ensures PlainName(app) ==> r == "_build/default/rel/" + Underscored(app) + "/log"
  {
    var r := PathJoin(RelSourcesDir(app), "log");
    if PlainName(app) then
      UnderscoredPlain(app);
      PathJoinRel(RelSourcesDir(app), "log");
      r
    else r
  }

  /** `abs_logs_dir(app)`: the log directory of a package installation. */
  function AbsLogsDir(app: string): (r: string)
    ensures PlainName(app) ==> r == "/var/log/" + Underscored(app)
  {
    var r := PathJoin(PathJoin(PathJoin("/", "var"), "log"), Underscored(app));
    if PlainName(app) then
      UnderscoredPlain(app);
      PathJoinRel("/var/log", Underscored(app));
      r
    else r
  }

  /** `service_and_app_type_to_app(chart, app_type)`: a lookup in a six-entry table. */
  function ServiceAndAppTypeToApp(chart: string, appType: string): (r: Result<string>)
    ensures r.Ok? <==>
      (chart == SERVICE_ONEZONE || chart == SERVICE_ONEPROVIDER) &&
      (appType == APP_TYPE_WORKER || appType == APP_TYPE_PANEL || appType == APP_TYPE_CLUSTER_MANAGER)
    ensures r.Fail? ==> r.error == KeyError(chart + "," + appType)
    ensures appType == APP_TYPE_CLUSTER_MANAGER && r.Ok? ==> r.value == APP_CLUSTER_MANAGER
    ensures r.Ok? ==> (r.value in ONEZONE_APPS <==> chart == SERVICE_ONEZONE || r.value == APP_CLUSTER_MANAGER)
  {
    if chart == SERVICE_ONEZONE && appType == APP_TYPE_WORKER then Ok(APP_ONEZONE)
    else if chart == SERVICE_ONEZONE && appType == APP_TYPE_PANEL then Ok(APP_OZ_PANEL)
    else if chart == SERVICE_ONEZONE && appType == APP_TYPE_CLUSTER_MANAGER then Ok(APP_CLUSTER_MANAGER)
    else if chart == SERVICE_ONEPROVIDER && appType == APP_TYPE_WORKER then Ok(APP_ONEPROVIDER)
    else if chart == SERVICE_ONEPROVIDER && appType == APP_TYPE_PANEL then Ok(APP_OP_PANEL)
    else if chart == SERVICE_ONEPROVIDER && appType == APP_TYPE_CLUSTER_MANAGER then Ok(APP_CLUSTER_MANAGER)
    else Fail(KeyError(chart + "," + appType))
  }

  /** The value of the first entry of `table` whose key occurs in `name`. */
  function FirstContained(table: seq<(string, string)>, name: string): (r: Option<string>)
    ensures r.None? <==> forall i :: 0 <= i < |table| ==> !Contains(name, table[i].0)
    ensures r.Some? ==> exists i :: 0 <= i < |table| && Contains(name, table[i].0) && r.value == table[i].1 &&
                          forall j :: 0 <= j < i ==> !Contains(name, table[j].0)
  {
    if table == [] then None
    else if Contains(name, table[0].0) then Some(table[0].1)
    else
      var r := FirstContained(table[1..], name);
      assert forall i :: 1 <= i < |table| ==> table[i] == table[1..][i - 1];
      r
  }

  /**
   * `service_name_to_alias_mapping(name)`: the alias of the first key, in
   * table order, that is a substring of the name (all keys are already lower
   * case, so `key.lower()` is the key).
   */
  function ServiceNameToAlias(name: string): Option<string>
  {
    FirstContained(SERVICE_MAPPING, name)
  }

  /** `SERVICE_MAPPING[key]`: the exact-key lookup. */
  function MappingOf(key: string): Option<string>
  {
    if key == "oneprovider-krakow" then Some("oneprovider-1")
    else if key == "oneprovider-paris" then Some("oneprovider-2")
    else if key == "oneprovider-lisbon" then Some("oneprovider-3")
    else if key == "oneprovider-1" then Some("oneprovider-krakow")
    else if key == "oneprovider-2" then Some("oneprovider-paris")
    else if key == "oneprovider-3" then Some("oneprovider-lisbon")
    else if key == "onezone" then Some("onezone")
    else None
  }

  /** The table and the exact-key lookup agree. */
  lemma MappingOfTable(i: nat)
    requires i < |SERVICE_MAPPING|
    ensures MappingOf(SERVICE_MAPPING[i].0) == Some(SERVICE_MAPPING[i].1)
  {
  }

  /** The mapping swaps each provider's city alias with its ordinal alias, and fixes onezone. */
  lemma MappingInvolution(key: string)
    requires MappingOf(key).Some?
    ensures MappingOf(MappingOf(key).value) == Some(key)
    ensures key == "onezone" <==> MappingOf(key) == Some(key)
  {
  }

  /** Skipping a first entry whose key does not occur. */
  lemma FirstContainedSkip(table: seq<(string, string)>, name: string)
    requires table != [] && !Contains(name, table[0].0)
    ensures FirstContained(table, name) == FirstContained(table[1..], name)
  {
  }

  /**
   * Each name maps to the alias of the first key it contains, so a name such
   * as 'oneprovider-12' maps through the key 'oneprovider-1' to krakow.
   */
  lemma AliasOfOrdinalName(digits: string)
    requires AllDigits(digits)
    ensures ServiceNameToAlias("oneprovider-1" + digits) == Some("oneprovider-krakow")
  {
    var name := "oneprovider-1" + digits;
    var t := SERVICE_MAPPING;
    forall i | 0 <= i < 3 ensures !Contains(name, t[i].0) {
      NoCityKey(digits, t[i].0);
    }
    FirstContainedSkip(t, name);
    FirstContainedSkip(t[1..], name);
    FirstContainedSkip(t[2..], name);
    assert t[1..][1..] == t[2..] && t[2..][1..] == t[3..];
    assert OccursAt(t[3].0, name, 0) by {
      assert name[0..13] == "oneprovider-1";
    }
    ContainsAt(name, t[3].0, 0);
  }

  lemma NoCityKey(digits: string, key: string)
    requires AllDigits(digits)
    requires key == "oneprovider-krakow" || key == "oneprovider-paris" || key == "oneprovider-lisbon"
    ensures !Contains("oneprovider-1" + digits, key)
  {
    if Contains("oneprovider-1" + digits, key) {
      var j := ContainsWitness("oneprovider-1" + digits, key);
      CityKeyNotInOrdinalName(digits, key, j);
    }
  }

  /** No city key occurs in 'oneprovider-1' followed by digits. */
  lemma CityKeyNotInOrdinalName(digits: string, key: string, j: nat)
    requires AllDigits(digits)
    requires key == "oneprovider-krakow" || key == "oneprovider-paris" || key == "oneprovider-lisbon"
    ensures !OccursAt(key, "oneprovider-1" + digits, j)
  {
    var name := "oneprovider-1" + digits;
    if j + |key| <= |name| {
      var w := name[j..j + |key|];
      if j == 0 {
        assert w[12] == '1' != key[12];
      } else if j == 5 {
        assert w[1] == 'v' != key[1];
      } else if j < 13 {
        assert w[0] != 'o';
      } else {
        assert w[0] == digits[j - 13];
        assert IsDigit(w[0]) && key[0] == 'o';
      }
    }
  }
}
