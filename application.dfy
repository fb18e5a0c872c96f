/**
 * The attribute tables of one Onedata application
 * (scripts/utils/deployment/application.py): where a package installation
 * keeps its files and commands, and where a release built from sources keeps
 * them.
 */
module Application {
  import opened Util
  import opened Paths
  import opened Order

  /**
   * The attribute names the tables use as keys; `AttrName` is the key as it
   * is written into a config file.
   */
  datatype Attr =
    | EnvFile | VmArgsFile | AppConfigFile | GeneratedConfigFile | OverlayConfigFile
    | WebKeyFile | WebCertFile | CacertsDir | ProtocolKeyFile | ProtocolCertFile
    | Cmd | StartCmd | StopCmd | StatusCmd

  function AttrName(a: Attr): string
  {
    match a
    case EnvFile => "env_file"
    case VmArgsFile => "vm_args_file"
    case AppConfigFile => "app_config_file"
    case GeneratedConfigFile => "generated_config_file"
    case OverlayConfigFile => "overlay_config_file"
    case WebKeyFile => "web_key_file"
    case WebCertFile => "web_cert_file"
    case CacertsDir => "cacerts_dir"
    case ProtocolKeyFile => "protocol_key_file"
    case ProtocolCertFile => "protocol_cert_file"
    case Cmd => "cmd"
    case StartCmd => "start_cmd"
    case StopCmd => "stop_cmd"
    case StatusCmd => "status_cmd"
  }

  /** A dict from attribute names to strings, in insertion order. */
  type Entries = seq<(Attr, string)>

  function Keys(d: Entries): (r: seq<Attr>)
    ensures |r| == |d| && forall i :: 0 <= i < |d| ==> r[i] == d[i].0
  {
    if d == [] then [] else [d[0].0] + Keys(d[1..])
  }

  /** `d.get(k)`. */
  function Get(d: Entries, k: Attr): Option<string>
  {
    if d == [] then None
    else if d[0].0 == k then Some(d[0].1)
    else Get(d[1..], k)
  }

  function EnvFileArgs(name: string): Entries
  {
    [(EnvFile, "/usr/lib/" + name + "/lib/env.sh")]
  }

  function FilesArgs(name: string): Entries
  {
    [(VmArgsFile, "/etc/" + name + "/vm.args"),
     (AppConfigFile, "/var/lib/" + name + "/app.config"),
     (GeneratedConfigFile, "/etc/" + name + "/autogenerated.config"),
     (OverlayConfigFile, "/etc/" + name + "/overlay.config")]
  }

  function WebArgs(name: string): Entries
  {
    [(WebKeyFile, "/etc/" + name + "/certs/web_key.pem"),
     (WebCertFile, "/etc/" + name + "/certs/web_cert.pem"),
     (CacertsDir, "/etc/" + name + "/cacerts/")]
  }

  function Cmds(name: string): Entries
  {
    [(Cmd, "service " + name),
     (StartCmd, "service " + name + " start"),
     (StopCmd, "service " + name + " stop"),
     (StatusCmd, "service " + name + " ping")]
  }

  /** The kinds of application that `default_config` has a table for. */
  datatype Kind = ClusterManager | Worker | Panel | Unknown

  function KindOf(name: string): Kind
  {
    if name == "cluster_manager" then ClusterManager
    else if name == "oz_worker" || name == "op_worker" then Worker
    else if name == "oz_panel" || name == "op_panel" then Panel
    else Unknown
  }

  /**
   * `default_config(name)`: the package-installation table; `{**a, **b}` of
   * tables with disjoint keys is their concatenation.
   */
  function DefaultConfig(name: string): Entries
  {
    match KindOf(name)
    case ClusterManager => EnvFileArgs(name) + FilesArgs(name) + Cmds(name)
    case Worker => WebArgs(name) + FilesArgs(name) + Cmds(name)
    case Panel => Cmds(name) + FilesArgs(name)
    case Unknown => []
  }

  lemma KeysAppend(a: Entries, b: Entries)
    ensures Keys(a + b) == Keys(a) + Keys(b)
  {
  }

  /** The attributes of each kind of application, in table order. */
  function KindKeys(k: Kind): seq<Attr>
  {
    match k
    case ClusterManager =>
      [EnvFile, VmArgsFile, AppConfigFile, GeneratedConfigFile, OverlayConfigFile, Cmd, StartCmd, StopCmd, StatusCmd]
    case Worker =>
      [WebKeyFile, WebCertFile, CacertsDir, VmArgsFile, AppConfigFile, GeneratedConfigFile, OverlayConfigFile,
       Cmd, StartCmd, StopCmd, StatusCmd]
    case Panel =>
      [Cmd, StartCmd, StopCmd, StatusCmd, VmArgsFile, AppConfigFile, GeneratedConfigFile, OverlayConfigFile]
    case Unknown => []
  }

  lemma ClusterManagerKeys(n: string)
    ensures Keys(EnvFileArgs(n) + FilesArgs(n) + Cmds(n)) == KindKeys(ClusterManager)
  {
    KeysAppend(EnvFileArgs(n) + FilesArgs(n), Cmds(n));
    KeysAppend(EnvFileArgs(n), FilesArgs(n));
  }

  lemma WorkerKeys(n: string)
    ensures Keys(WebArgs(n) + FilesArgs(n) + Cmds(n)) == KindKeys(Worker)
  {
    KeysAppend(WebArgs(n) + FilesArgs(n), Cmds(n));
    KeysAppend(WebArgs(n), FilesArgs(n));
  }

  lemma PanelKeys(n: string)
    ensures Keys(Cmds(n) + FilesArgs(n)) == KindKeys(Panel)
  {
    KeysAppend(Cmds(n), FilesArgs(n));
  }

  lemma DefaultKeysOf(name: string)
    ensures Keys(DefaultConfig(name)) == KindKeys(KindOf(name))
  {
    match KindOf(name)
    case ClusterManager => ClusterManagerKeys(name);
    case Worker => WorkerKeys(name);
    case Panel => PanelKeys(name);
    case Unknown =>
  }

  /**
   * Which attributes each kind of application has: no attribute twice, only
   * the cluster manager has an env file, only workers have web certificates
   * and the CA directory, and an unknown name has an empty table.
   */
  lemma KindKeysFacts(k: Kind)
    ensures Distinct(KindKeys(k))
    ensures KindKeys(k) == [] <==> k == Unknown
    ensures EnvFile in KindKeys(k) <==> k == ClusterManager
    ensures WebKeyFile in KindKeys(k) <==> k == Worker
    ensures WebCertFile in KindKeys(k) <==> k == Worker
    ensures CacertsDir in KindKeys(k) <==> k == Worker
    ensures k != Unknown ==> Cmd in KindKeys(k) && AppConfigFile in KindKeys(k)
  {
    match k
    case ClusterManager => ClusterManagerDistinct();
    case Worker => WorkerDistinct();
    case Panel => PanelDistinct();
    case Unknown =>
  }

  lemma ClusterManagerDistinct()
    ensures Distinct(KindKeys(ClusterManager))
  {
  }

  lemma WorkerDistinct()
    ensures Distinct(KindKeys(Worker))
  {
  }

  lemma PanelDistinct()
    ensures Distinct(KindKeys(Panel))
  {
  }

  /** `default_config(name)` has exactly the attributes of its kind. */
  lemma DefaultConfigKeys(name: string)
    ensures Distinct(Keys(DefaultConfig(name)))
    ensures DefaultConfig(name) == [] <==> KindOf(name) == Unknown
    ensures EnvFile in Keys(DefaultConfig(name)) <==> KindOf(name) == ClusterManager
    ensures WebKeyFile in Keys(DefaultConfig(name)) <==> KindOf(name) == Worker
    ensures KindOf(name) != Unknown ==> Cmd in Keys(DefaultConfig(name)) && AppConfigFile in Keys(DefaultConfig(name))
  {
    DefaultKeysOf(name);
    KindKeysFacts(KindOf(name));
  }

  lemma {:induction false} GetAppend(a: Entries, b: Entries, k: Attr)
    ensures Get(a + b, k) == if k in Keys(a) then Get(a, k) else Get(b, k)
  {
    if a == [] {
      assert a + b == b;
    } else {
      var ab := a + b;
      assert ab[0] == a[0];
      assert ab[1..] == a[1..] + b;
      assert Keys(a) == [a[0].0] + Keys(a[1..]);
      if a[0].0 != k {
        GetAppend(a[1..], b, k);
      }
    }
  }

  lemma GetSkip(d: Entries, k: Attr)
    requires d != [] && d[0].0 != k
    ensures Get(d, k) == Get(d[1..], k)
  {
  }

  lemma FilesLookups(n: string)
    ensures Get(FilesArgs(n), AppConfigFile) == Some("/var/lib/" + n + "/app.config")
    ensures Get(FilesArgs(n), OverlayConfigFile) == Some("/etc/" + n + "/overlay.config")
    ensures Get(FilesArgs(n), VmArgsFile) == Some("/etc/" + n + "/vm.args")
    ensures Keys(FilesArgs(n)) == [VmArgsFile, AppConfigFile, GeneratedConfigFile, OverlayConfigFile]
  {
    var f := FilesArgs(n);
    GetSkip(f, AppConfigFile);
    GetSkip(f, OverlayConfigFile);
    GetSkip(f[1..], OverlayConfigFile);
    GetSkip(f[1..][1..], OverlayConfigFile);
    assert Keys(f) == [f[0].0] + Keys(f[1..]);
    assert Keys(f[1..]) == [f[1].0] + Keys(f[1..][1..]);
  }

  lemma CmdsLookups(n: string)
    ensures Get(Cmds(n), StartCmd) == Some("service " + n + " start")
    ensures Keys(Cmds(n)) == [Cmd, StartCmd, StopCmd, StatusCmd]
  {
    var c := Cmds(n);
    GetSkip(c, StartCmd);
    assert Keys(c) == [c[0].0] + Keys(c[1..]);
    assert Keys(c[1..]) == [c[1].0] + Keys(c[1..][1..]);
  }

  /** The four looked-up entries of a table, as `PackagePaths` states them. */
  predicate HasPackagePaths(d: Entries, n: string)
  {
    Get(d, AppConfigFile) == Some("/var/lib/" + n + "/app.config") &&
    Get(d, OverlayConfigFile) == Some("/etc/" + n + "/overlay.config") &&
    Get(d, VmArgsFile) == Some("/etc/" + n + "/vm.args") &&
    Get(d, StartCmd) == Some("service " + n + " start")
  }

  lemma PrefixedPackagePaths(head: Entries, n: string)
    requires Keys(head) == [EnvFile] || Keys(head) == [WebKeyFile, WebCertFile, CacertsDir]
    ensures HasPackagePaths(head + FilesArgs(n) + Cmds(n), n)
  {
    var f := FilesArgs(n);
    var c := Cmds(n);
    assert head + f + c == head + (f + c);
    FilesCmdsPaths(n);
    PastHead(head, f + c, AppConfigFile);
    PastHead(head, f + c, OverlayConfigFile);
    PastHead(head, f + c, VmArgsFile);
    PastHead(head, f + c, StartCmd);
  }

  lemma PastHead(head: Entries, rest: Entries, k: Attr)
    requires k !in Keys(head)
    ensures Get(head + rest, k) == Get(rest, k)
  {
    GetAppend(head, rest, k);
  }

  lemma FilesCmdsPaths(n: string)
    ensures HasPackagePaths(FilesArgs(n) + Cmds(n), n)
  {
    var f := FilesArgs(n);
    var c := Cmds(n);
    FilesLookups(n);
    CmdsLookups(n);
    GetAppend(f, c, AppConfigFile);
    GetAppend(f, c, OverlayConfigFile);
    GetAppend(f, c, VmArgsFile);
    GetAppend(f, c, StartCmd);
  }

  lemma PanelPackagePaths(n: string)
    ensures HasPackagePaths(Cmds(n) + FilesArgs(n), n)
  {
    var f := FilesArgs(n);
    var c := Cmds(n);
    FilesLookups(n);
    CmdsLookups(n);
    GetAppend(c, f, AppConfigFile);
    GetAppend(c, f, OverlayConfigFile);
    GetAppend(c, f, VmArgsFile);
    GetAppend(c, f, StartCmd);
  }

  /**
   * The package-installation paths are fixed absolute paths under the
   * application's name, such as '/var/lib/<name>/app.config'.
   */
  lemma DefaultConfigPaths(name: string)
    requires KindOf(name) != Unknown
    ensures Get(DefaultConfig(name), AppConfigFile) == Some("/var/lib/" + name + "/app.config")
    ensures Get(DefaultConfig(name), OverlayConfigFile) == Some("/etc/" + name + "/overlay.config")
    ensures Get(DefaultConfig(name), VmArgsFile) == Some("/etc/" + name + "/vm.args")
    ensures Get(DefaultConfig(name), StartCmd) == Some("service " + name + " start")
  {
    match KindOf(name)
    case ClusterManager =>
      var e := EnvFileArgs(name);
      assert Keys(e) == [EnvFile];
      PrefixedPackagePaths(e, name);
    case Worker =>
      var w := WebArgs(name);
      assert Keys(w) == [WebKeyFile, WebCertFile, CacertsDir] by {
        assert Keys(w) == [w[0].0] + Keys(w[1..]);
        assert Keys(w[1..]) == [w[1].0] + Keys(w[1..][1..]);
      }
      PrefixedPackagePaths(w, name);
    case Panel =>
      PanelPackagePaths(name);
  }

  /**
   * `release_args_paths[arg]`: where a release built from sources keeps each
   * attribute; the table has an entry for every attribute.
   */
  function ReleaseArgPath(name: string, arg: Attr): string
  {
    match arg
    case VmArgsFile => "etc/vm.args"
    case AppConfigFile => "data/app.config"
    case GeneratedConfigFile => "etc/autogenerated.config"
    case OverlayConfigFile => "etc/overlay.config"
    case EnvFile => "lib/env.sh"
    case WebKeyFile => "etc/certs/web_key.pem"
    case WebCertFile => "etc/certs/web_cert.pem"
    case CacertsDir => "etc/cacerts/"
    case ProtocolKeyFile => "etc/certs/protocol_key.pem"
    case ProtocolCertFile => "etc/certs/protocol_cert.pem"
    case Cmd => "bin/" + name
    case StartCmd => "bin/" + name + " start"
    case StopCmd => "bin/" + name + " stop"
    case StatusCmd => "bin/" + name + " ping"
  }

  /**
   * The dict comprehension over the default keys: every attribute has a
   * release path, so the `if arg in release_args_paths` filter keeps them all.
   */
  function SourceConfig(name: string, keys: seq<Attr>, releasePath: string): (r: Entries)
    ensures Keys(r) == keys
    ensures forall i :: 0 <= i < |r| ==> r[i].1 == PathJoin(releasePath, ReleaseArgPath(name, r[i].0))
  {
    if keys == [] then []
    else [(keys[0], PathJoin(releasePath, ReleaseArgPath(name, keys[0])))] + SourceConfig(name, keys[1..], releasePath)
  }

  /**
   * An `Application`: `projectPath` and `releasePath` are None when the
   * application comes from a package (the constructor then leaves
   * `project_path` unset and `release_path` None).
   */
  datatype App = App(name: string, config: Entries, projectPath: Option<string>, releasePath: Option<string>)

  /** `Application(name, project_path, host_home_dir)`. */
  function NewApplication(name: string, projectPath: string, hostHomeDir: string): (a: App)
    ensures a.name == Underscored(name) && !HasChar(a.name, '-')
    ensures projectPath == [] ==> a.config == DefaultConfig(a.name) && a.releasePath == None
    ensures projectPath != [] ==>
              a.releasePath == Some(PathJoin(PathJoin(hostHomeDir, projectPath), "_build/default/rel/" + a.name))
    ensures projectPath != [] ==>
              Keys(a.config) == Keys(DefaultConfig(a.name)) &&
              forall i :: 0 <= i < |a.config| ==>
                a.config[i].1 == PathJoin(a.releasePath.value, ReleaseArgPath(a.name, a.config[i].0))
  {
    var n := ReplaceAll(name, "-", "_");
    if projectPath == [] then App(n, DefaultConfig(n), None, None)
    else
      var project := PathJoin(hostHomeDir, projectPath);
      var release := PathJoin(project, "_build/default/rel/" + n);
      App(n, SourceConfig(n, Keys(DefaultConfig(n)), release), Some(project), Some(release))
  }

  /** A source-mode app config lives in the release's data directory. */
  lemma SourceAppConfigFile(name: string, projectPath: string, hostHomeDir: string)
    requires projectPath != [] && KindOf(Underscored(name)) != Unknown
    ensures var a := NewApplication(name, projectPath, hostHomeDir);
            Get(a.config, AppConfigFile) == Some(PathJoin(a.releasePath.value, "data/app.config"))
  {
    var a := NewApplication(name, projectPath, hostHomeDir);
    var keys := Keys(DefaultConfig(a.name));
    assert a.config == SourceConfig(a.name, keys, a.releasePath.value);
    HasAppConfig(a.name);
    GetSourceConfig(a.name, keys, a.releasePath.value, AppConfigFile);
  }

  lemma HasAppConfig(name: string)
    requires KindOf(name) != Unknown
    ensures AppConfigFile in Keys(DefaultConfig(name))
  {
    DefaultKeysOf(name);
    var keys := KindKeys(KindOf(name));
    var i := match KindOf(name) case ClusterManager => 2 case Worker => 4 case _ => 5;
    assert keys[i] == AppConfigFile;
  }

  /** Looking up an attribute in the source-mode table. */
  lemma {:induction false} GetSourceConfig(name: string, keys: seq<Attr>, releasePath: string, k: Attr)
    ensures Get(SourceConfig(name, keys, releasePath), k) ==
            if k in keys then Some(PathJoin(releasePath, ReleaseArgPath(name, k))) else None
  {
    if keys != [] {
      assert keys == [keys[0]] + keys[1..];
      GetSourceConfig(name, keys[1..], releasePath, k);
    }
  }

  /**
   * For a normal home directory and a relative project path, the release
   * lies below the project: home, then project, then '_build/default/rel/<name>'.
   */
  lemma ReleasePathBelowHome(home: seq<string>, project: seq<string>, name: string)
    requires ValidComps(home) && ValidComps(project) && |project| >= 1 && ValidComp(Underscored(name))
    ensures NewApplication(name, Join(project, "/"), AbsOf(home)).releasePath ==
            Some(AbsOf(home + project + ["_build", "default", "rel", Underscored(name)]))
  {
    var u := Underscored(name);
    JoinHead(project);
    assert NewApplication(name, Join(project, "/"), AbsOf(home)).releasePath
        == Some(PathJoin(PathJoin(AbsOf(home), Join(project, "/")), "_build/default/rel/" + u));
    ReleaseJoin(home, project, u);
  }

  /** The release path joined component by component. */
  lemma ReleaseJoin(home: seq<string>, project: seq<string>, u: string)
    requires ValidComps(home) && ValidComps(project) && |project| >= 1 && ValidComp(u)
    ensures PathJoin(PathJoin(AbsOf(home), Join(project, "/")), "_build/default/rel/" + u)
         == AbsOf(home + project + ["_build", "default", "rel", u])
  {
    var rel := ["_build", "default", "rel", u];
    calc {
      PathJoin(PathJoin(AbsOf(home), Join(project, "/")), "_build/default/rel/" + u);
      { JoinBelow(home, project); }
      PathJoin(AbsOf(home + project), "_build/default/rel/" + u);
      { ReleaseComps(u); }
      PathJoin(AbsOf(home + project), Join(rel, "/"));
      { ReleaseComps(u); assert ValidComps(home + project); JoinBelow(home + project, rel); }
      AbsOf(home + project + rel);
    }
  }

  lemma ReleaseComps(u: string)
    requires ValidComp(u)
    ensures ValidComps(["_build", "default", "rel", u])
    ensures Join(["_build", "default", "rel", u], "/") == "_build/default/rel/" + u
  {
    var rel := ["_build", "default", "rel", u];
    assert rel[1..][1..][1..] == [u];
    assert Join(rel[1..][1..], "/") == "rel/" + u;
    assert Join(rel[1..], "/") == "default/rel/" + u;
    forall i | 0 <= i < 3 ensures ValidComp(rel[i]) {
      assert !HasChar(rel[i], '/');
    }
  }
}
