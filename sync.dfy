/**
 * Copying host-compiled sources into running pods
 * (scripts/utils/deployment/sources.py). For every pod substring recorded
 * under 'sources' in the deployment record, a worker process issues an
 * ordered sequence of commands: the rsync of each source tree, the overlay
 * copy, the panel's app.config patch, and last the write of the sentinel
 * file the pod's start script waits for.
 *
 * Commands are kept abstract (their argument vectors are built by `Pods`);
 * host and pod file tests, the service type of a pod substring, dict
 * iteration order and the pod listing are parameters. The worker processes
 * run independently, so their plans are laid out one after the other, each
 * with the exception that ended it early, if any.
 */
module Sync {
  import opened Util
  import opened Paths
  import opened Yaml
  import opened NamesAndPaths
  import opened KubernetesUtils
  import opened Pods
  import opened DeployNode
  import opened SourcesPaths
  import DeploymentData
  import LegacySources

  const OP_OZ_DIRS_TO_SYNC: seq<string> := ["_build", "priv", "src", "include"]
  const SOURCES_READY_FILE_PATH: string := "/tmp/sources_ready.txt"

  /** The names sources.py binds at module level, imports included. */
  const MODULE_NAMES: set<string> :=
    {"__author__", "__copyright__", "__license__", "os", "subprocess", "Process", "List", "IO", "Any", "Dict",
     "yaml", "Node", "pods", "terminal", "shell", "deployment_data", "SERVICE_ONECLIENT", "ONECLIENT_BIN_PATH",
     "get_service_type", "OP_OZ_DIRS_TO_SYNC", "SOURCES_READY_FILE_PATH", "WAIT_FOR_POD_TIMEOUT",
     "call_and_check_return_code", "modify_package_app_config", "modify_source_app_config",
     "create_ready_file_cmd", "copy_overlay_cfg", "rsync_source", "rsync_sources_for_oc",
     "rsync_sources_for_oz_op", "rsync_sources"}

  /** `sources.<name>`: an AttributeError for a name the module does not bind. */
  function Attribute(name: string): (r: Option<Error>)
    ensures r.None? <==> name in MODULE_NAMES
    ensures r.Some? ==> r.value == AttributeError
  {
    if name in MODULE_NAMES then None else Some(AttributeError)
  }

  /** sources.py has no `locate`; the worker functions are there. */
  lemma LocateUnbound()
    ensures Attribute("locate") == Some(AttributeError)
    ensures Attribute("rsync_sources").None? && Attribute("rsync_source").None?
  {
  }

  /** One command a worker issues, in the order it issues them. */
  datatype Step =
    | Wait(substring: string)                             // wait_for_pods_to_be_running
    | Exec(pod: string, command: seq<string>)             // exec_cmd(pod, command)
    | Rsync(source: string, destination: string)          // rsync_cmd(source, destination)
    | CopyFromPod(source: string, destination: string)    // copy_from_pod_cmd(source, destination)
    | PatchAppConfig(node: Node)                          // node.modify_node_app_config() on the host
    | RecordSource(pod: string, app: string, path: string) // deployment_data.add_source

  /** What the environment answers. */
  datatype World = World(
    isdir: string -> bool,                       // os.path.isdir on the host
    present: string -> bool,                     // os.path.exists on the host
    inPod: (string, string) -> bool,             // file_exists_in_pod(pod, path)
    serviceType: string -> string,               // get_service_type(pod substring)
    dictOrder: map<string, Value> -> seq<string>, // the order a dict yields its keys
    listing: seq<Component>,                     // the namespace's objects once the pods run
    hostFiles: map<string, string>,              // the host's files as the node's app.config patch finds them
    addSource: Option<Error>)                    // the exception `deployment_data.add_source` raises, if any

  /** The commands one worker issues, to its log file, and the exception that ended it early. */
  datatype PodPlan = PodPlan(logFile: string, steps: seq<Step>, error: Option<Error>)

  /**
   * `call_and_check_return_code(cmd)`: the command's code, unchanged, and
   * whether an error is reported; nothing is raised, so a failed command
   * never stops the commands after it.
   */
  function CallAndCheck(code: int): (r: (int, bool))
    ensures r.0 == code
    ensures r.1 <==> code != 0
  {
    (code, code != 0)
  }

  // ---------------------------------------------------------------------------
  // The sentinel

  /** `create_ready_file_cmd(panel_path)`. */
  function ReadyFileCmd(panelPath: string): (r: seq<string>)
    ensures |r| == 3 && r[0] == "bash" && r[1] == "-c"
    ensures panelPath != [] ==> StartsWith(r[2], "echo " + panelPath)
    ensures panelPath == [] ==> r[2] == "touch " + SOURCES_READY_FILE_PATH
  {
    if panelPath != [] then ["bash", "-c", "echo " + panelPath + " >> " + SOURCES_READY_FILE_PATH]
    else ["bash", "-c", "touch " + SOURCES_READY_FILE_PATH]
  }

  /** `create_ready_file_cmd`, built by appends. */
  method CreateReadyFileCmd(panelPath: string) returns (cmd: seq<string>)
    ensures cmd == ReadyFileCmd(panelPath)
  {
    cmd := ["bash", "-c"];
    if panelPath != [] {
      cmd := cmd + ["echo " + panelPath + " >> " + SOURCES_READY_FILE_PATH];
    } else {
      cmd := cmd + ["touch " + SOURCES_READY_FILE_PATH];
    }
  }

  /**
   * With a panel path the sentinel is appended to ('>>'), so every run adds
   * another line; without one it is only touched.
   */
  lemma ReadyFileAppends(panelPath: string)
    ensures Contains(ReadyFileCmd(panelPath)[2], ">>") <==> panelPath != []
  {
    var c := ReadyFileCmd(panelPath)[2];
    if panelPath != [] {
      var i := |"echo " + panelPath| + 1;
      assert c[i..i + 2] == ">>";
      ContainsAt(c, ">>", i);
    } else {
      assert forall j | 0 <= j < |c| :: c[j] != '>';
      forall i: nat ensures !OccursAt(">>", c, i) {
        if i + 2 <= |c| {
          assert c[i..i + 2][0] == c[i];
        }
      }
    }
  }

  // ---------------------------------------------------------------------------
  // rsync_source

  /** `rsync_file` for one host path: a mkdir in the pod for a directory, then an rsync if it exists. */
  function FileSteps(pod: string, filePath: string, podDest: string, w: World): seq<Step>
  {
    (if w.isdir(filePath) then [Exec(pod, ["bash", "-c", "mkdir -p " + filePath])] else [])
    + (if w.present(filePath) then [Rsync(filePath, podDest)] else [])
  }

  /** One `rsync_file` per entry of `files`, each on `source_path/<entry>`. */
  function EachFileSteps(pod: string, sourcePath: string, files: seq<string>, podDest: string, w: World): seq<Step>
  {
    if files == [] then []
    else EachFileSteps(pod, sourcePath, files[..|files| - 1], podDest, w)
         + FileSteps(pod, PathJoin(sourcePath, files[|files| - 1]), podDest, w)
  }

  /** What `rsync_source` issues. */
  function RsyncSourcePlan(pod: string, sourcePath: string, destPath: string, files: seq<string>, w: World): seq<Step>
  {
    if files != [] then EachFileSteps(pod, sourcePath, files, pod + ":" + destPath, w)
    else FileSteps(pod, sourcePath, pod + ":" + destPath, w)
  }

  /** `rsync_source(pod_name, source_path, dest_path, files_to_rsync)`, its jobs taken in start order. */
  method RsyncSource(pod: string, sourcePath: string, destPath: string, files: seq<string>, w: World)
    returns (steps: seq<Step>)
    ensures steps == RsyncSourcePlan(pod, sourcePath, destPath, files, w)
  {
    var podDest := pod + ":" + destPath;
    if files != [] {
      steps := [];
      var i := 0;
      while i < |files|
        invariant 0 <= i <= |files|
        invariant steps == EachFileSteps(pod, sourcePath, files[..i], podDest, w)
      {
        assert files[..i + 1][..i] == files[..i];
        steps := steps + FileSteps(pod, PathJoin(sourcePath, files[i]), podDest, w);
        i := i + 1;
      }
      assert files[..|files|] == files;
    } else {
      steps := FileSteps(pod, sourcePath, podDest, w);
    }
  }

  /** The host paths the rsync steps send, in order. */
  function Synced(steps: seq<Step>): seq<string>
  {
    if steps == [] then []
    else Synced(steps[..|steps| - 1]) + (if steps[|steps| - 1].Rsync? then [steps[|steps| - 1].source] else [])
  }

  lemma {:induction false} SyncedAppend(a: seq<Step>, b: seq<Step>)
    ensures Synced(a + b) == Synced(a) + Synced(b)
    decreases |b|
  {
    if b != [] {
      assert (a + b)[..|a + b| - 1] == a + b[..|b| - 1];
      assert (a + b)[|a + b| - 1] == b[|b| - 1];
      SyncedAppend(a, b[..|b| - 1]);
    } else {
      assert a + b == a;
    }
  }

  /** The paths of `paths` that exist on the host, in order. */
  function Existing(paths: seq<string>, present: string -> bool): seq<string>
  {
    if paths == [] then []
    else Existing(paths[..|paths| - 1], present) + (if present(paths[|paths| - 1]) then [paths[|paths| - 1]] else [])
  }

  /** Every rsync step of `steps` writes to `dest`. */
  predicate AllTo(steps: seq<Step>, dest: string)
  {
    forall i :: 0 <= i < |steps| && steps[i].Rsync? ==> steps[i].destination == dest
  }

  /** One `rsync_file` sends its path exactly when it exists, always to `podDest`. */
  lemma FileStepsSync(pod: string, filePath: string, podDest: string, w: World)
    ensures Synced(FileSteps(pod, filePath, podDest, w)) == (if w.present(filePath) then [filePath] else [])
    ensures AllTo(FileSteps(pod, filePath, podDest, w), podDest)
  {
    var f := FileSteps(pod, filePath, podDest, w);
    if w.isdir(filePath) {
      var mk := [f[0]];
      assert mk[..0] == [];
      assert Synced(mk) == [];
      if w.present(filePath) {
        assert f[..|f| - 1] == mk;
      } else {
        assert f == mk;
      }
    } else if w.present(filePath) {
      assert f[..|f| - 1] == [];
    }
  }

  /** The joined paths of all but the last entry, then the last one joined. */
  lemma JoinEachInit(base: string, files: seq<string>)
    requires files != []
    ensures var joined := JoinEach(base, files);
            joined[..|joined| - 1] == JoinEach(base, files[..|files| - 1]) &&
            joined[|joined| - 1] == PathJoin(base, files[|files| - 1])
  {
  }

  lemma {:induction false} EachFileSynced(pod: string, sourcePath: string, files: seq<string>, podDest: string, w: World)
    ensures Synced(EachFileSteps(pod, sourcePath, files, podDest, w)) == Existing(JoinEach(sourcePath, files), w.present)
    decreases |files|
  {
    if files != [] {
      var init := files[..|files| - 1];
      var last := PathJoin(sourcePath, files[|files| - 1]);
      EachFileSynced(pod, sourcePath, init, podDest, w);
      SyncedAppend(EachFileSteps(pod, sourcePath, init, podDest, w), FileSteps(pod, last, podDest, w));
      FileStepsSync(pod, last, podDest, w);
      JoinEachInit(sourcePath, files);
    }
  }

  lemma {:induction false} EachFileTo(pod: string, sourcePath: string, files: seq<string>, podDest: string, w: World)
    ensures AllTo(EachFileSteps(pod, sourcePath, files, podDest, w), podDest)
    decreases |files|
  {
    if files != [] {
      var init := files[..|files| - 1];
      EachFileTo(pod, sourcePath, init, podDest, w);
      FileStepsSync(pod, PathJoin(sourcePath, files[|files| - 1]), podDest, w);
    }
  }

  /**
   * `rsync_source` sends `source_path` itself when `files_to_rsync` is empty
   * and `source_path/<entry>` for each entry otherwise, those that exist and
   * in that order, always to 'pod:dest_path'.
   */
  lemma RsyncSourceSyncs(pod: string, sourcePath: string, destPath: string, files: seq<string>, w: World)
    ensures var plan := RsyncSourcePlan(pod, sourcePath, destPath, files, w);
            Synced(plan) == Existing(if files == [] then [sourcePath] else JoinEach(sourcePath, files), w.present)
            && AllTo(plan, pod + ":" + destPath)
  {
    if files != [] {
      EachFileSynced(pod, sourcePath, files, pod + ":" + destPath, w);
      EachFileTo(pod, sourcePath, files, pod + ":" + destPath, w);
    } else {
      FileStepsSync(pod, sourcePath, pod + ":" + destPath, w);
      assert [sourcePath][..0] == [];
    }
  }

  // ---------------------------------------------------------------------------
  // Configuration steps

  /** `copy_overlay_cfg`: the overlay config left in the pod by the package, copied into the release tree. */
  function OverlayConfigPath(source: string): string
  {
    "/etc/" + Underscored(source) + "/overlay.config"
  }

  function CopyOverlaySteps(source: string, sourcePath: string, pod: string, w: World): seq<Step>
  {
    if w.inPod(pod, OverlayConfigPath(source)) then
      var dest := PathJoin(sourcePath, "_build/default/rel/" + Underscored(source) + "/etc");
      [Exec(pod, ["bash", "-c", "cp " + OverlayConfigPath(source) + " " + dest])]
    else []
  }

  /** `modify_source_app_config`: patch the node's app.config and send it to the sourced panel's data dir. */
  function SourceConfigSteps(node: Node, sourcePath: string, panel: string, pod: string): seq<Step>
  {
    [PatchAppConfig(node),
     Rsync(AppConfigPath(node), pod + ":" + PathJoin(sourcePath, "_build/default/rel/" + panel + "/data"))]
  }

  /** The package panel's app.config in the pod. */
  function PackageConfig(pod: string, panel: string): string
  {
    pod + ":/var/lib/" + panel + "/app.config"
  }

  /** `modify_package_app_config`: fetch the package app.config, patch it, send it back. */
  function PackageConfigSteps(pod: string, panel: string, node: Node): seq<Step>
  {
    [CopyFromPod(PackageConfig(pod, panel), AppConfigPath(node)),
     PatchAppConfig(node),
     Rsync(AppConfigPath(node), Dirname(PackageConfig(pod, panel)))]
  }

  /** The package app.config goes back to the directory it came from. */
  lemma PackageConfigDir(pod: string, panel: string)
    requires panel != [] && panel[|panel| - 1] != '/' && !HasChar(panel, '/')
    ensures Dirname(PackageConfig(pod, panel)) == pod + ":/var/lib/" + panel
  {
    var head := pod + ":/var/lib/" + panel;
    var p := PackageConfig(pod, panel);
    assert p == head + "/app.config";
    assert p[|head|] == '/';
    forall k | |head| + 1 <= k < |p| ensures p[k] != '/' {
      assert p[k] == "app.config"[k - |head| - 1];
    }
    var i := AfterLastSlash(p);
    assert i == |head| + 1;
    assert p[..i] == head + "/";
    assert (head + "/")[..|head|] == head;
    assert head[|head| - 1] == panel[|panel| - 1];
    assert StripTrailingSlashes(head) == head;
    assert StripTrailingSlashes(head + "/") == head;
    assert !AllSlashes(head + "/") by {
      assert (head + "/")[|pod|] == ':';
    }
  }

  // ---------------------------------------------------------------------------
  // rsync_sources_for_oz_op

  /** The rsync of a source's four directories and its overlay config copy. */
  function SourceHead(pod: string, item: (string, string), w: World): seq<Step>
  {
    RsyncSourcePlan(pod, item.1, item.1, OP_OZ_DIRS_TO_SYNC, w) + CopyOverlaySteps(item.0, item.1, pod, w)
  }

  /** What one source of a onezone or oneprovider pod gets, in order, when nothing fails. */
  function SourceSteps(pod: string, item: (string, string), node: Node, panel: string, w: World): seq<Step>
  {
    SourceHead(pod, item, w)
    + (if Contains(item.0, APP_TYPE_PANEL) then SourceConfigSteps(node, item.1, panel, pod) else [])
  }

  /**
   * `node_cfg.modify_node_app_config()` as the worker runs it: a node
   * without a panel app raises StopIteration; otherwise the outcome of
   * copying and patching its app.config on the host's files.
   */
  function PatchOutcome(node: Node, w: World): (r: Result<()>)
    ensures FirstPanel(node.apps).None? ==> r == Fail(StopIteration)
    ensures FirstPanel(node.apps).Some? ==> r == NodeConfig(w.hostFiles, node).0
  {
    if FirstPanel(node.apps).None? then Fail(StopIteration) else NodeConfig(w.hostFiles, node).0
  }

  /**
   * One loop pass with the patch's outcome `patch`: a panel source whose
   * patch raises stops the worker right after the patch, before its
   * app.config is sent.
   */
  function SourceRun(pod: string, item: (string, string), node: Node, panel: string, patch: Result<()>, w: World)
    : (r: (seq<Step>, Option<Error>))
    ensures r.1.Some? <==> Contains(item.0, APP_TYPE_PANEL) && patch.Fail?
    ensures r.1.None? ==> r.0 == SourceSteps(pod, item, node, panel, w)
  {
    if Contains(item.0, APP_TYPE_PANEL) && patch.Fail? then
      (SourceHead(pod, item, w) + [PatchAppConfig(node)], Some(patch.error))
    else (SourceSteps(pod, item, node, panel, w), None)
  }

  /** The loop over the sources, which stops at the first source whose pass raises. */
  function SourcesRun(pod: string, items: seq<(string, string)>, node: Node, panel: string, patch: Result<()>, w: World)
    : (seq<Step>, Option<Error>)
  {
    if items == [] then ([], None)
    else
      var before := SourcesRun(pod, items[..|items| - 1], node, panel, patch, w);
      if before.1.Some? then before
      else
        var last := SourceRun(pod, items[|items| - 1], node, panel, patch, w);
        (before.0 + last.0, last.1)
  }

  /** A source list has a panel exactly when its prefix has one or its last item is one. */
  lemma PanelFromSourcesSnoc(items: seq<(string, string)>)
    requires items != []
    ensures PanelFromSources(items)
            <==> PanelFromSources(items[..|items| - 1]) || Contains(items[|items| - 1].0, APP_TYPE_PANEL)
  {
    var init := items[..|items| - 1];
    if PanelFromSources(items) && !Contains(items[|items| - 1].0, APP_TYPE_PANEL) {
      var i :| 0 <= i < |items| && Contains(items[i].0, APP_TYPE_PANEL);
      assert init[i] == items[i];
    }
    if PanelFromSources(init) {
      var i :| 0 <= i < |init| && Contains(init[i].0, APP_TYPE_PANEL);
      assert items[i] == init[i];
    }
  }

  /**
   * The loop raises exactly when a source is a panel and the patch fails,
   * with the patch's error; when it does not, it issues every source's steps.
   */
  lemma {:induction false} SourcesRunOutcome(pod: string, items: seq<(string, string)>, node: Node, panel: string,
                                             patch: Result<()>, w: World)
    ensures var run := SourcesRun(pod, items, node, panel, patch, w);
            (run.1.Some? <==> PanelFromSources(items) && patch.Fail?)
            && (run.1.Some? ==> run.1 == Some(patch.error))
            && (run.1.None? ==> run.0 == AllSourceSteps(pod, items, node, panel, w))
    decreases |items|
  {
    if items != [] {
      SourcesRunOutcome(pod, items[..|items| - 1], node, panel, patch, w);
      PanelFromSourcesSnoc(items);
    }
  }

  /** Once a prefix of the sources raised, the loop over all of them ends the same way. */
  lemma {:induction false} SourcesRunStops(pod: string, items: seq<(string, string)>, j: nat, node: Node, panel: string,
                                           patch: Result<()>, w: World)
    requires j <= |items| && SourcesRun(pod, items[..j], node, panel, patch, w).1.Some?
    ensures SourcesRun(pod, items, node, panel, patch, w) == SourcesRun(pod, items[..j], node, panel, patch, w)
    decreases |items|
  {
    if j < |items| {
      assert items[..|items| - 1][..j] == items[..j];
      SourcesRunStops(pod, items[..|items| - 1], j, node, panel, patch, w);
    } else {
      assert items[..j] == items;
    }
  }

  /** A raising loop has only prepared the pod, and its last step is the patch that raised. */
  lemma {:induction false} SourcesRunPreparing(pod: string, items: seq<(string, string)>, node: Node, panel: string,
                                               patch: Result<()>, w: World)
    ensures var run := SourcesRun(pod, items, node, panel, patch, w);
            AllPreparing(run.0) && (run.1.Some? ==> run.0 != [] && run.0[|run.0| - 1] == PatchAppConfig(node))
    decreases |items|
  {
    if items != [] {
      var init := items[..|items| - 1];
      var item := items[|items| - 1];
      SourcesRunPreparing(pod, init, node, panel, patch, w);
      var before := SourcesRun(pod, init, node, panel, patch, w);
      if before.1.None? {
        SourcePreparing(pod, item, node, panel, w);
        SourceHeadPreparing(pod, item, w);
        var last := SourceRun(pod, item, node, panel, patch, w);
        assert AllPreparing(last.0) by {
          if last.1.Some? {
            PreparingConcat(SourceHead(pod, item, w), [PatchAppConfig(node)]);
          }
        }
        PreparingConcat(before.0, last.0);
      }
    }
  }

  function AllSourceSteps(pod: string, items: seq<(string, string)>, node: Node, panel: string, w: World): seq<Step>
  {
    if items == [] then []
    else AllSourceSteps(pod, items[..|items| - 1], node, panel, w) + SourceSteps(pod, items[|items| - 1], node, panel, w)
  }

  /** Sources are handled one after another: the steps of a longer list extend those of its prefix. */
  lemma {:induction false} AllSourceStepsAppend(pod: string, a: seq<(string, string)>, b: seq<(string, string)>,
                                                node: Node, panel: string, w: World)
    ensures AllSourceSteps(pod, a + b, node, panel, w)
            == AllSourceSteps(pod, a, node, panel, w) + AllSourceSteps(pod, b, node, panel, w)
    decreases |b|
  {
    if b != [] {
      var init := b[..|b| - 1];
      assert (a + b)[..|a + b| - 1] == a + init;
      assert (a + b)[|a + b| - 1] == b[|b| - 1];
      AllSourceStepsAppend(pod, a, init, node, panel, w);
      var last := SourceSteps(pod, b[|b| - 1], node, panel, w);
      var before := AllSourceSteps(pod, a, node, panel, w);
      var rest := AllSourceSteps(pod, init, node, panel, w);
      assert AllSourceSteps(pod, a + b, node, panel, w) == (before + rest) + last;
      assert AllSourceSteps(pod, b, node, panel, w) == rest + last;
      SeqAssoc(before, rest, last);
    } else {
      assert a + b == a;
    }
  }

  lemma SeqAssoc<T>(x: seq<T>, y: seq<T>, z: seq<T>)
    ensures (x + y) + z == x + (y + z)
  {
  }

  /** `any('panel' in s for s, _ in items)`. */
  predicate PanelFromSources(items: seq<(string, string)>)
  {
    exists i | 0 <= i < |items| :: Contains(items[i].0, APP_TYPE_PANEL)
  }

  /** `panel_path` after the loop: the path of the last panel source, or ''. */
  function LastPanelPath(items: seq<(string, string)>): string
  {
    if items == [] then ""
    else if Contains(items[|items| - 1].0, APP_TYPE_PANEL) then items[|items| - 1].1
    else LastPanelPath(items[..|items| - 1])
  }

  /** The panel path is that of the last source whose name contains 'panel'. */
  lemma {:induction false} LastPanelPathIs(items: seq<(string, string)>, i: nat)
    requires i < |items| && Contains(items[i].0, APP_TYPE_PANEL)
    requires forall j :: i < j < |items| ==> !Contains(items[j].0, APP_TYPE_PANEL)
    ensures LastPanelPath(items) == items[i].1
    decreases |items|
  {
    if i < |items| - 1 {
      LastPanelPathIs(items[..|items| - 1], i);
    }
  }

  /** Without a panel source the panel path stays ''. */
  lemma {:induction false} NoPanelNoPath(items: seq<(string, string)>)
    requires !PanelFromSources(items)
    ensures LastPanelPath(items) == ""
    decreases |items|
  {
    if items != [] {
      var init := items[..|items| - 1];
      assert !PanelFromSources(init) by {
        forall i | 0 <= i < |init| ensures !Contains(init[i].0, APP_TYPE_PANEL) {
          assert init[i] == items[i];
        }
      }
      NoPanelNoPath(init);
    }
  }

  /** The steps after the sources: the package panel's config when no panel is sourced, then the sentinel. */
  function FinishSteps(pod: string, items: seq<(string, string)>, panel: string, node: Node): seq<Step>
  {
    if PanelFromSources(items) then [Exec(pod, ReadyFileCmd(LastPanelPath(items)))]
    else PackageConfigSteps(pod, panel, node) + [Exec(pod, ReadyFileCmd(""))]
  }

  /** `data.get(k)` on the loaded record: a non-dict has no `get`. */
  function GetOrNone(v: Value, key: string): (r: Result<Value>)
    ensures r.Ok? <==> v.VDict?
    ensures r.Ok? ==> r.value == (if key in v.fields then v.fields[key] else VNone)
  {
    GetOr(v, key, VNone)
  }

  /** `deployment_data_dict.get('sources').get(pod_substring)`. */
  function PodSourcesCfg(data: Value, substring: string): (r: Result<Value>)
    ensures r.Ok? <==> data.VDict? && "sources" in data.fields && data.fields["sources"].VDict?
    ensures r.Ok? ==> r.value == GetOrNone(data.fields["sources"], substring).value
  {
    var sources :- GetOrNone(data, "sources");
    GetOrNone(sources, substring)
  }

  /**
   * The (name, path) items of a pod's sources dict in dict order, up to the
   * first path that is not a string, and the TypeError that path raises
   * where the worker first uses it.
   */
  function PathItems(m: map<string, Value>, keys: seq<string>): (r: (seq<(string, string)>, Option<Error>))
    ensures forall i :: 0 <= i < |r.0| ==> r.0[i].0 in m && m[r.0[i].0] == VStr(r.0[i].1)
    ensures r.1.None? <==> forall i :: 0 <= i < |keys| && keys[i] in m ==> m[keys[i]].VStr?
    ensures r.1.Some? ==> r.1 == Some(TypeError)
    ensures (forall i :: 0 <= i < |keys| ==> keys[i] in m) ==>
              |r.0| <= |keys| && (forall i :: 0 <= i < |r.0| ==> r.0[i].0 == keys[i])
              && (r.1.None? ==> |r.0| == |keys|)
              && (r.1.Some? ==> |r.0| < |keys| && !m[keys[|r.0|]].VStr?)
  {
    if keys == [] then ([], None)
    else
      var init := PathItems(m, keys[..|keys| - 1]);
      var k := keys[|keys| - 1];
      if init.1.Some? then init
      else if k !in m then init
      else if m[k].VStr? then (init.0 + [(k, m[k].s)], None)
      else (init.0, Some(TypeError))
  }

  /**
   * What a onezone or oneprovider pod's worker looks up before syncing: the
   * items up to the first path that is not a string, and the error that
   * path raises once the items before it are synced.
   */
  datatype OzOpContext = OzOpContext(service: string, panel: string, node: Node, items: seq<(string, string)>,
                                     bad: Option<Error>)

  function OzOpContextOf(podName: string, nodesCfg: map<string, map<string, Node>>, data: Value, w: World)
    : (r: Result<OzOpContext>)
    ensures MatchPods(podName, w.listing) == [] ==> r == Fail(IndexError)
    ensures r.Ok? ==> var pod := MatchPods(podName, w.listing)[0];
              GetChartName(pod) == Some(r.value.service)
              && r.value.service in nodesCfg && "n" + GetNodeNum(podName) in nodesCfg[r.value.service]
              && r.value.node == nodesCfg[r.value.service]["n" + GetNodeNum(podName)]
              && r.value.panel == (if Contains(r.value.service, "zone") then "oz_panel" else "op_panel")
              && PodSourcesCfg(data, podName).Ok? && PodSourcesCfg(data, podName).value.VDict?
  {
    var matches := MatchPods(podName, w.listing);
    if matches == [] then Fail(IndexError)
    else match GetChartName(matches[0])
      case None => Fail(TypeError)
      case Some(service) =>
        var nodeName := [NODE_NAME] + GetNodeNum(podName);
        var panel := if Contains(service, "zone") then "oz_panel" else "op_panel";
        if service !in nodesCfg then Fail(KeyError(service))
        else if nodeName !in nodesCfg[service] then Fail(KeyError(nodeName))
        else
          var cfg :- PodSourcesCfg(data, podName);
          if !cfg.VDict? then Fail(AttributeError)
          else
            var items := PathItems(cfg.fields, w.dictOrder(cfg.fields));
            Ok(OzOpContext(service, panel, nodesCfg[service][nodeName], items.0, items.1))
  }

  /**
   * What the worker for onezone or oneprovider pod `podName` issues: a
   * failed lookup ends it after the wait; otherwise the sources are synced
   * until a patch or a path raises, and a worker that got through them
   * finishes.
   */
  function OzOpPlan(podName: string, nodesCfg: map<string, map<string, Node>>, data: Value, w: World, logFile: string)
    : (p: PodPlan)
    ensures p.logFile == logFile && |p.steps| >= 1 && p.steps[0] == Wait(podName)
    ensures OzOpContextOf(podName, nodesCfg, data, w).Fail? ==>
              p == PodPlan(logFile, [Wait(podName)], Some(OzOpContextOf(podName, nodesCfg, data, w).error))
    ensures p.error.None? <==>
              OzOpContextOf(podName, nodesCfg, data, w).Ok? && OzOpContextOf(podName, nodesCfg, data, w).value.bad.None?
              && PatchOutcome(OzOpContextOf(podName, nodesCfg, data, w).value.node, w).Ok?
  {
    match OzOpContextOf(podName, nodesCfg, data, w)
    case Fail(e) => PodPlan(logFile, [Wait(podName)], Some(e))
    case Ok(c) => OzOpRun(podName, c, w, logFile)
  }

  /** The worker once its lookups succeeded with context `c`. */
  function OzOpRun(podName: string, c: OzOpContext, w: World, logFile: string): (p: PodPlan)
    ensures p.logFile == logFile && |p.steps| >= 1 && p.steps[0] == Wait(podName)
    ensures p.error.None? <==> c.bad.None? && PatchOutcome(c.node, w).Ok?
  {
    var patch := PatchOutcome(c.node, w);
    var run := SourcesRun(podName, c.items, c.node, c.panel, patch, w);
    SourcesRunOutcome(podName, c.items, c.node, c.panel, patch, w);
    if run.1.Some? then PodPlan(logFile, [Wait(podName)] + run.0, run.1)
    else if c.bad.Some? then PodPlan(logFile, [Wait(podName)] + run.0, c.bad)
    else
      var finish := FinishRun(podName, c.items, c.panel, c.node, patch);
      PodPlan(logFile, [Wait(podName)] + run.0 + finish.0, finish.1)
  }

  /** The commands of a worker whose lookups and patches succeeded: wait, every source, then the finish. */
  function OzOpSteps(podName: string, c: OzOpContext, w: World): seq<Step>
  {
    [Wait(podName)] + AllSourceSteps(podName, c.items, c.node, c.panel, w) + FinishSteps(podName, c.items, c.panel, c.node)
  }

  /**
   * The steps after the sources with the patch's outcome `patch`: without a
   * panel source a failing patch stops the worker after the package
   * app.config is fetched and before the sentinel is written.
   */
  function FinishRun(pod: string, items: seq<(string, string)>, panel: string, node: Node, patch: Result<()>)
    : (r: (seq<Step>, Option<Error>))
    ensures r.1.Some? <==> !PanelFromSources(items) && patch.Fail?
    ensures r.1.None? ==> r.0 == FinishSteps(pod, items, panel, node)
  {
    if !PanelFromSources(items) && patch.Fail? then
      ([CopyFromPod(PackageConfig(pod, panel), AppConfigPath(node)), PatchAppConfig(node)], Some(patch.error))
    else (FinishSteps(pod, items, panel, node), None)
  }

  /** The steps after the sources, as `rsync_sources_for_oz_op` issues them. */
  method Finish(pod: string, items: seq<(string, string)>, panel: string, node: Node, patch: Result<()>,
                panelPath: string) returns (steps: seq<Step>, err: Option<Error>)
    requires panelPath == LastPanelPath(items)
    ensures (steps, err) == FinishRun(pod, items, panel, node, patch)
  {
    var panelFromSources := exists i | 0 <= i < |items| :: Contains(items[i].0, APP_TYPE_PANEL);
    if !panelFromSources {
      var fetch := CopyFromPod(PackageConfig(pod, panel), AppConfigPath(node));
      if patch.Fail? {
        return [fetch, PatchAppConfig(node)], Some(patch.error);
      }
      var ready := CreateReadyFileCmd("");
      steps := [fetch, PatchAppConfig(node), Rsync(AppConfigPath(node), Dirname(PackageConfig(pod, panel)))]
               + [Exec(pod, ready)];
    } else {
      var ready := CreateReadyFileCmd(panelPath);
      steps := [Exec(pod, ready)];
    }
    err := None;
  }

  /** The loop body of `rsync_sources_for_oz_op` for one (source, path) item. */
  method SyncSource(pod: string, item: (string, string), node: Node, panel: string, patch: Result<()>, w: World)
    returns (steps: seq<Step>, err: Option<Error>)
    ensures (steps, err) == SourceRun(pod, item, node, panel, patch, w)
  {
    var (source, sourcePath) := item;
    var synced := RsyncSource(pod, sourcePath, sourcePath, OP_OZ_DIRS_TO_SYNC, w);
    steps := synced + CopyOverlaySteps(source, sourcePath, pod, w);
    err := None;
    if !Contains(source, APP_TYPE_PANEL) {
      assert steps + [] == steps;
    } else {
      steps := steps + [PatchAppConfig(node)];
      if patch.Fail? {
        return steps, Some(patch.error);
      }
      steps := steps + [Rsync(AppConfigPath(node), pod + ":" + PathJoin(sourcePath, "_build/default/rel/" + panel + "/data"))];
      assert steps == SourceHead(pod, item, w) + SourceConfigSteps(node, sourcePath, panel, pod);
    }
  }

  /** One more source handled: its steps follow, and it sets the panel path when it is a panel. */
  lemma SourcesSnoc(pod: string, items: seq<(string, string)>, i: nat, node: Node, panel: string, patch: Result<()>,
                    w: World)
    requires i < |items|
    ensures AllSourceSteps(pod, items[..i + 1], node, panel, w)
            == AllSourceSteps(pod, items[..i], node, panel, w) + SourceSteps(pod, items[i], node, panel, w)
    ensures LastPanelPath(items[..i + 1])
            == if Contains(items[i].0, APP_TYPE_PANEL) then items[i].1 else LastPanelPath(items[..i])
    ensures var before := SourcesRun(pod, items[..i], node, panel, patch, w);
            var one := SourceRun(pod, items[i], node, panel, patch, w);
            before.1.None? ==> SourcesRun(pod, items[..i + 1], node, panel, patch, w) == (before.0 + one.0, one.1)
  {
    assert items[..i + 1][..i] == items[..i];
    assert items[..i + 1][i] == items[i];
  }

  /**
   * The loop of `rsync_sources_for_oz_op` over the pod's sources, with its
   * `panel_path`; it returns at the first pass that raises.
   */
  method SyncSources(pod: string, items: seq<(string, string)>, node: Node, panel: string, patch: Result<()>, w: World)
    returns (steps: seq<Step>, panelPath: string, err: Option<Error>)
    ensures (steps, err) == SourcesRun(pod, items, node, panel, patch, w)
    ensures err.None? ==> panelPath == LastPanelPath(items)
  {
    steps := [];
    panelPath := "";
    var i := 0;
    while i < |items|
      invariant 0 <= i <= |items|
      invariant (steps, None) == SourcesRun(pod, items[..i], node, panel, patch, w)
      invariant panelPath == LastPanelPath(items[..i])
    {
      var more, e := SyncSource(pod, items[i], node, panel, patch, w);
      SourcesSnoc(pod, items, i, node, panel, patch, w);
      steps := steps + more;
      if e.Some? {
        SourcesRunStops(pod, items, i + 1, node, panel, patch, w);
        return steps, panelPath, e;
      }
      if Contains(items[i].0, APP_TYPE_PANEL) {
        panelPath := items[i].1;
      }
      i := i + 1;
    }
    assert items[..|items|] == items;
    err := None;
  }

  /** `rsync_sources_for_oz_op(pod_name, nodes_cfg, deployment_data_dict, log_file_path)`. */
  method RsyncSourcesForOzOp(podName: string, nodesCfg: map<string, map<string, Node>>, data: Value, w: World,
                             logFile: string) returns (p: PodPlan)
    ensures p == OzOpPlan(podName, nodesCfg, data, w, logFile)
  {
    var ctx := OzOpContextOf(podName, nodesCfg, data, w);
    if ctx.Fail? {
      return PodPlan(logFile, [Wait(podName)], Some(ctx.error));
    }
    var c := ctx.value;
    var patch := PatchOutcome(c.node, w);
    var synced, panelPath, err := SyncSources(podName, c.items, c.node, c.panel, patch, w);
    if err.Some? {
      return PodPlan(logFile, [Wait(podName)] + synced, err);
    }
    if c.bad.Some? {
      return PodPlan(logFile, [Wait(podName)] + synced, c.bad);
    }
    var finish, finishErr := Finish(podName, c.items, c.panel, c.node, patch, panelPath);
    p := PodPlan(logFile, [Wait(podName)] + synced + finish, finishErr);
  }

  /** An exec step that only prepares the pod: a mkdir or a cp, never the sentinel. */
  predicate Preparing(s: Step)
  {
    s.Exec? ==> |s.command| == 3 && (StartsWith(s.command[2], "mkdir -p ") || StartsWith(s.command[2], "cp "))
  }

  predicate AllPreparing(steps: seq<Step>)
  {
    forall i :: 0 <= i < |steps| ==> Preparing(steps[i])
  }

  lemma EachFilePreparing(pod: string, sourcePath: string, files: seq<string>, podDest: string, w: World)
    ensures AllPreparing(EachFileSteps(pod, sourcePath, files, podDest, w))
    decreases |files|
  {
    if files != [] {
      EachFilePreparing(pod, sourcePath, files[..|files| - 1], podDest, w);
      var last := PathJoin(sourcePath, files[|files| - 1]);
      assert StartsWith("mkdir -p " + last, "mkdir -p ");
    }
  }

  lemma {:induction false} AllSourcePreparing(pod: string, items: seq<(string, string)>, node: Node, panel: string, w: World)
    ensures AllPreparing(AllSourceSteps(pod, items, node, panel, w))
    decreases |items|
  {
    if items != [] {
      AllSourcePreparing(pod, items[..|items| - 1], node, panel, w);
      SourcePreparing(pod, items[|items| - 1], node, panel, w);
      PreparingConcat(AllSourceSteps(pod, items[..|items| - 1], node, panel, w),
                      SourceSteps(pod, items[|items| - 1], node, panel, w));
    }
  }

  /** A source's rsyncs and overlay copy only prepare the pod. */
  lemma SourceHeadPreparing(pod: string, item: (string, string), w: World)
    ensures AllPreparing(SourceHead(pod, item, w))
  {
    EachFilePreparing(pod, item.1, OP_OZ_DIRS_TO_SYNC, pod + ":" + item.1, w);
    var ocp := OverlayConfigPath(item.0);
    var dest := PathJoin(item.1, "_build/default/rel/" + Underscored(item.0) + "/etc");
    assert StartsWith("cp " + ocp + " " + dest, "cp ");
    var copy := CopyOverlaySteps(item.0, item.1, pod, w);
    assert AllPreparing(copy);
    PreparingConcat(RsyncSourcePlan(pod, item.1, item.1, OP_OZ_DIRS_TO_SYNC, w), copy);
  }

  /** One source's steps only prepare the pod: its mkdirs, rsyncs, overlay copy and config patch. */
  lemma SourcePreparing(pod: string, item: (string, string), node: Node, panel: string, w: World)
    ensures AllPreparing(SourceSteps(pod, item, node, panel, w))
  {
    SourceHeadPreparing(pod, item, w);
    var conf := if Contains(item.0, APP_TYPE_PANEL) then SourceConfigSteps(node, item.1, panel, pod) else [];
    assert AllPreparing(conf);
    PreparingConcat(SourceHead(pod, item, w), conf);
  }

  /**
   * A successful onezone or oneprovider worker ends with the sentinel write,
   * and no command before it touches the sentinel. The sentinel records the
   * last panel source's path when a panel is sourced; otherwise it is only
   * touched, right after the package app.config has been fetched, patched
   * and sent back to '/var/lib/<panel>'.
   */
  lemma OzOpPlanShape(podName: string, nodesCfg: map<string, map<string, Node>>, data: Value, w: World, logFile: string)
    requires OzOpContextOf(podName, nodesCfg, data, w).Ok?
    requires OzOpContextOf(podName, nodesCfg, data, w).value.bad.None?
    requires PatchOutcome(OzOpContextOf(podName, nodesCfg, data, w).value.node, w).Ok?
    ensures var c := OzOpContextOf(podName, nodesCfg, data, w).value;
            var s := OzOpPlan(podName, nodesCfg, data, w, logFile).steps;
            var n := |s|;
            s[n - 1] == Exec(podName, ReadyFileCmd(if PanelFromSources(c.items) then LastPanelPath(c.items) else ""))
            && AllPreparing(s[..n - 1])
            && (!PanelFromSources(c.items) ==>
                  s[n - 4..n - 1] == [CopyFromPod(PackageConfig(podName, c.panel), AppConfigPath(c.node)),
                                     PatchAppConfig(c.node),
                                     Rsync(AppConfigPath(c.node), podName + ":/var/lib/" + c.panel)])
  {
    var c := OzOpContextOf(podName, nodesCfg, data, w).value;
    OzOpPlanSteps(podName, nodesCfg, data, w, logFile);
    OzOpStepsShape(podName, c, w);
  }

  /** A worker whose lookups and patches succeed issues the steps OzOpSteps lays out. */
  lemma OzOpPlanSteps(podName: string, nodesCfg: map<string, map<string, Node>>, data: Value, w: World, logFile: string)
    requires OzOpContextOf(podName, nodesCfg, data, w).Ok?
    requires OzOpContextOf(podName, nodesCfg, data, w).value.bad.None?
    requires PatchOutcome(OzOpContextOf(podName, nodesCfg, data, w).value.node, w).Ok?
    ensures OzOpPlan(podName, nodesCfg, data, w, logFile)
            == PodPlan(logFile, OzOpSteps(podName, OzOpContextOf(podName, nodesCfg, data, w).value, w), None)
  {
    var c := OzOpContextOf(podName, nodesCfg, data, w).value;
    SourcesRunOutcome(podName, c.items, c.node, c.panel, PatchOutcome(c.node, w), w);
  }

  /**
   * A worker whose app.config patch raises, once it reaches a patch, ends
   * with that error right after the patch and has never written the
   * sentinel: every step it issued only prepared the pod.
   */
  lemma OzOpPatchFails(podName: string, nodesCfg: map<string, map<string, Node>>, data: Value, w: World, logFile: string)
    requires OzOpContextOf(podName, nodesCfg, data, w).Ok?
    requires PatchOutcome(OzOpContextOf(podName, nodesCfg, data, w).value.node, w).Fail?
    requires var c := OzOpContextOf(podName, nodesCfg, data, w).value; c.bad.None? || PanelFromSources(c.items)
    ensures var c := OzOpContextOf(podName, nodesCfg, data, w).value;
            var p := OzOpPlan(podName, nodesCfg, data, w, logFile);
            p.error == Some(PatchOutcome(c.node, w).error)
            && p.steps[|p.steps| - 1] == PatchAppConfig(c.node) && AllPreparing(p.steps)
  {
    OzOpRunPatchFails(podName, OzOpContextOf(podName, nodesCfg, data, w).value, w, logFile);
  }

  /** OzOpPatchFails for a given context. */
  lemma OzOpRunPatchFails(podName: string, c: OzOpContext, w: World, logFile: string)
    requires PatchOutcome(c.node, w).Fail?
    requires c.bad.None? || PanelFromSources(c.items)
    ensures var p := OzOpRun(podName, c, w, logFile);
            p.error == Some(PatchOutcome(c.node, w).error)
            && p.steps[|p.steps| - 1] == PatchAppConfig(c.node) && AllPreparing(p.steps)
  {
    var patch := PatchOutcome(c.node, w);
    var run := SourcesRun(podName, c.items, c.node, c.panel, patch, w);
    SourcesRunOutcome(podName, c.items, c.node, c.panel, patch, w);
    SourcesRunPreparing(podName, c.items, c.node, c.panel, patch, w);
    var p := OzOpRun(podName, c, w, logFile);
    PreparingConcat([Wait(podName)], run.0);
    if run.1.Some? {
      assert p.steps == [Wait(podName)] + run.0;
    } else {
      var finish := [CopyFromPod(PackageConfig(podName, c.panel), AppConfigPath(c.node)), PatchAppConfig(c.node)];
      assert p.steps == [Wait(podName)] + run.0 + finish;
      PreparingConcat([Wait(podName)] + run.0, finish);
    }
  }

  /**
   * A path that is not a string ends the worker after the sources before it
   * are synced, without the sentinel.
   */
  lemma OzOpBadPath(podName: string, nodesCfg: map<string, map<string, Node>>, data: Value, w: World, logFile: string)
    requires OzOpContextOf(podName, nodesCfg, data, w).Ok?
    requires OzOpContextOf(podName, nodesCfg, data, w).value.bad.Some?
    requires var c := OzOpContextOf(podName, nodesCfg, data, w).value;
             PatchOutcome(c.node, w).Ok? || !PanelFromSources(c.items)
    ensures var c := OzOpContextOf(podName, nodesCfg, data, w).value;
            var p := OzOpPlan(podName, nodesCfg, data, w, logFile);
            p.error == Some(TypeError)
            && p.steps == [Wait(podName)] + AllSourceSteps(podName, c.items, c.node, c.panel, w)
            && AllPreparing(p.steps)
  {
    var c := OzOpContextOf(podName, nodesCfg, data, w).value;
    var cfg := PodSourcesCfg(data, podName).value;
    assert c.bad == PathItems(cfg.fields, w.dictOrder(cfg.fields)).1;
    SourcesRunOutcome(podName, c.items, c.node, c.panel, PatchOutcome(c.node, w), w);
    OzOpHeadPreparing(podName, c, w);
  }

  lemma OzOpStepsShape(podName: string, c: OzOpContext, w: World)
    requires c.panel == "oz_panel" || c.panel == "op_panel"
    ensures var s := OzOpSteps(podName, c, w);
            var n := |s|;
            s[n - 1] == Exec(podName, ReadyFileCmd(if PanelFromSources(c.items) then LastPanelPath(c.items) else ""))
            && AllPreparing(s[..n - 1])
            && (!PanelFromSources(c.items) ==>
                  s[n - 4..n - 1] == [CopyFromPod(PackageConfig(podName, c.panel), AppConfigPath(c.node)),
                                     PatchAppConfig(c.node),
                                     Rsync(AppConfigPath(c.node), podName + ":/var/lib/" + c.panel)])
  {
    if PanelFromSources(c.items) {
      OzOpStepsPanel(podName, c, w);
    } else {
      OzOpStepsPackage(podName, c, w);
    }
  }

  /** The steps before the finish only prepare the pod. */
  lemma OzOpHeadPreparing(podName: string, c: OzOpContext, w: World)
    ensures AllPreparing([Wait(podName)] + AllSourceSteps(podName, c.items, c.node, c.panel, w))
  {
    AllSourcePreparing(podName, c.items, c.node, c.panel, w);
    PreparingConcat([Wait(podName)], AllSourceSteps(podName, c.items, c.node, c.panel, w));
  }

  /** With a sourced panel, the sentinel write with its path follows the preparing steps. */
  lemma OzOpStepsPanel(podName: string, c: OzOpContext, w: World)
    requires PanelFromSources(c.items)
    ensures var s := OzOpSteps(podName, c, w);
            s[|s| - 1] == Exec(podName, ReadyFileCmd(LastPanelPath(c.items))) && AllPreparing(s[..|s| - 1])
  {
    var head := [Wait(podName)] + AllSourceSteps(podName, c.items, c.node, c.panel, w);
    var last := Exec(podName, ReadyFileCmd(LastPanelPath(c.items)));
    OzOpHeadPreparing(podName, c, w);
    PreparedThenLast(head, [], last);
    assert OzOpSteps(podName, c, w) == head + ([] + [last]);
  }

  /** Without one, the package app.config is fetched, patched and sent back before the sentinel is touched. */
  lemma OzOpStepsPackage(podName: string, c: OzOpContext, w: World)
    requires c.panel == "oz_panel" || c.panel == "op_panel"
    requires !PanelFromSources(c.items)
    ensures var s := OzOpSteps(podName, c, w);
            s[|s| - 1] == Exec(podName, ReadyFileCmd("")) && AllPreparing(s[..|s| - 1]) &&
            s[|s| - 4..|s| - 1] == [CopyFromPod(PackageConfig(podName, c.panel), AppConfigPath(c.node)),
                                   PatchAppConfig(c.node),
                                   Rsync(AppConfigPath(c.node), podName + ":/var/lib/" + c.panel)]
  {
    var head := [Wait(podName)] + AllSourceSteps(podName, c.items, c.node, c.panel, w);
    var last := Exec(podName, ReadyFileCmd(""));
    PanelNoSlash(c.panel);
    PackageConfigDir(podName, c.panel);
    var pkg := PackageConfigSteps(podName, c.panel, c.node);
    assert AllPreparing(pkg);
    OzOpHeadPreparing(podName, c, w);
    PreparedThenLast(head, pkg, last);
    assert OzOpSteps(podName, c, w) == head + (pkg + [last]);
  }

  /** Preparing steps, more preparing steps, then a last step. */
  lemma PreparedThenLast(head: seq<Step>, mid: seq<Step>, last: Step)
    requires AllPreparing(head) && AllPreparing(mid)
    ensures var s := head + (mid + [last]);
            s[|s| - 1] == last && AllPreparing(s[..|s| - 1]) && s[|s| - 1 - |mid|..|s| - 1] == mid
  {
    var s := head + (mid + [last]);
    assert s[..|s| - 1] == head + mid;
    PreparingConcat(head, mid);
  }

  /** The panel directories have plain names. */
  lemma PanelNoSlash(panel: string)
    requires panel == "oz_panel" || panel == "op_panel"
    ensures panel != [] && panel[|panel| - 1] != '/' && !HasChar(panel, '/')
  {
    forall i | 0 <= i < |panel| ensures panel[i] != '/' {
      if panel == "oz_panel" {
        assert panel[i] in "oz_panel";
      } else {
        assert panel[i] in "op_panel";
      }
    }
  }

  lemma PreparingConcat(a: seq<Step>, b: seq<Step>)
    requires AllPreparing(a) && AllPreparing(b)
    ensures AllPreparing(a + b)
  {
    forall i | 0 <= i < |a + b| ensures Preparing((a + b)[i]) {
      if i < |a| {
        assert (a + b)[i] == a[i];
      } else {
        assert (a + b)[i] == b[i - |a|];
      }
    }
  }

  // ---------------------------------------------------------------------------
  // rsync_sources_for_oc

  /** What one client pod gets: each binary synced to the binary path and recorded, then the sentinel touched. */
  function OcPathSteps(pod: string, paths: seq<string>, w: World): seq<Step>
  {
    if paths == [] then []
    else OcPathSteps(pod, paths[..|paths| - 1], w) + OcPathStep(pod, paths[|paths| - 1], w)
  }

  /** One binary: synced to the binary path, then recorded. */
  function OcPathStep(pod: string, path: string, w: World): seq<Step>
  {
    RsyncSourcePlan(pod, path, ONECLIENT_BIN_PATH, [], w) + [RecordSource(pod, SERVICE_ONECLIENT, path)]
  }

  function OcPodSteps(pod: string, paths: seq<string>, w: World): seq<Step>
  {
    OcPathSteps(pod, paths, w) + [Exec(pod, ReadyFileCmd(""))]
  }

  /** The loop over one client pod's binaries: each synced, then recorded. */
  method OcPathsSync(pod: string, paths: seq<string>, w: World) returns (steps: seq<Step>)
    ensures steps == OcPathSteps(pod, paths, w)
  {
    steps := [];
    var i := 0;
    while i < |paths|
      invariant 0 <= i <= |paths|
      invariant steps == OcPathSteps(pod, paths[..i], w)
    {
      var synced := RsyncSource(pod, paths[i], ONECLIENT_BIN_PATH, [], w);
      steps := steps + synced + [RecordSource(pod, SERVICE_ONECLIENT, paths[i])];
      assert paths[..i + 1][..i] == paths[..i];
      i := i + 1;
    }
    assert paths[..|paths|] == paths;
  }

  /** One client pod's part of the worker's loop. */
  method OcPodSync(pod: string, paths: seq<string>, w: World) returns (steps: seq<Step>)
    ensures steps == OcPodSteps(pod, paths, w)
  {
    steps := OcPathsSync(pod, paths, w);
    var ready := CreateReadyFileCmd("");
    steps := steps + [Exec(pod, ready)];
  }

  /** The source paths recorded by `add_source`, in order. */
  function Recorded(steps: seq<Step>): seq<string>
  {
    if steps == [] then []
    else Recorded(steps[..|steps| - 1]) + (if steps[|steps| - 1].RecordSource? then [steps[|steps| - 1].path] else [])
  }

  lemma {:induction false} RecordedAppend(a: seq<Step>, b: seq<Step>)
    ensures Recorded(a + b) == Recorded(a) + Recorded(b)
    decreases |b|
  {
    if b != [] {
      assert (a + b)[..|a + b| - 1] == a + b[..|b| - 1];
      assert (a + b)[|a + b| - 1] == b[|b| - 1];
      RecordedAppend(a, b[..|b| - 1]);
    } else {
      assert a + b == a;
    }
  }

  /** Syncing one binary records nothing: only the `add_source` after it does. */
  lemma RecordedOne(pod: string, p: string)
    ensures Recorded([RecordSource(pod, SERVICE_ONECLIENT, p)]) == [p]
  {
    assert [RecordSource(pod, SERVICE_ONECLIENT, p)][..0] == [];
  }

  lemma RsyncRecordsNothing(pod: string, path: string, dest: string, w: World)
    ensures Recorded(RsyncSourcePlan(pod, path, dest, [], w)) == []
  {
    var f := RsyncSourcePlan(pod, path, dest, [], w);
    if w.isdir(path) {
      var mk := [f[0]];
      assert mk[..0] == [];
      assert Recorded(mk) == [];
      if w.present(path) {
        assert f[..|f| - 1] == mk;
      } else {
        assert f == mk;
      }
    } else if w.present(path) {
      assert f[..|f| - 1] == [];
    }
  }

  /** Every binary path of a client pod is synced and recorded, in dict order. */
  lemma {:induction false} OcRecordsAll(pod: string, paths: seq<string>, w: World)
    ensures Recorded(OcPathSteps(pod, paths, w)) == paths
    decreases |paths|
  {
    if paths != [] {
      var init := paths[..|paths| - 1];
      var p := paths[|paths| - 1];
      var pre := OcPathSteps(pod, init, w);
      var one := OcPathStep(pod, p, w);
      assert OcPathSteps(pod, paths, w) == pre + one;
      calc {
        Recorded(pre + one);
        { RecordedAppend(pre, one); }
        Recorded(pre) + Recorded(one);
        { OcRecordsAll(pod, init, w); OcPathRecorded(pod, p, w); }
        init + [p];
        paths;
      }
    } else {
      assert OcPathSteps(pod, paths, w) == [];
    }
  }

  /** One binary's steps record exactly that binary. */
  lemma OcPathRecorded(pod: string, p: string, w: World)
    ensures Recorded(OcPathStep(pod, p, w)) == [p]
  {
    var f := RsyncSourcePlan(pod, p, ONECLIENT_BIN_PATH, [], w);
    RsyncRecordsNothing(pod, p, ONECLIENT_BIN_PATH, w);
    RecordedAppend(f, [RecordSource(pod, SERVICE_ONECLIENT, p)]);
    RecordedOne(pod, p);
  }

  /** A client pod's commands end with the sentinel being touched, after every binary is recorded. */
  lemma OcPodEnds(pod: string, paths: seq<string>, w: World)
    ensures var s := OcPodSteps(pod, paths, w);
            s[|s| - 1] == Exec(pod, ReadyFileCmd("")) && Recorded(s[..|s| - 1]) == paths
  {
    var s := OcPodSteps(pod, paths, w);
    assert s[..|s| - 1] == OcPathSteps(pod, paths, w);
    OcRecordsAll(pod, paths, w);
  }

  /**
   * What a client pod's records would leave in the deployment record, had
   * `add_source` been the update of legacy sources.py:63-69: each path is
   * stored in turn under the pod and the oneclient service, so the last
   * path the pod's sources dict yields is the one read back.
   */
  lemma OcPodStoresLast(pod: string, paths: seq<string>, w: World, data: Value)
    requires paths != [] && LegacySources.Writable(data, pod)
    ensures var r := LegacySources.StorePaths(data, pod, SERVICE_ONECLIENT, Recorded(OcPodSteps(pod, paths, w)));
            r.Ok? && LegacySources.LegacySourcesPath(r.value, pod, SERVICE_ONECLIENT) == Some(VStr(paths[|paths| - 1]))
  {
    var s := OcPodSteps(pod, paths, w);
    OcPodEnds(pod, paths, w);
    assert s == s[..|s| - 1] + [s[|s| - 1]];
    RecordedAppend(s[..|s| - 1], [s[|s| - 1]]);
    assert [s[|s| - 1]][..0] == [];
    assert Recorded([s[|s| - 1]]) == [];
    assert Recorded(s) == paths;
    LegacySources.StorePathsLastWins(data, pod, SERVICE_ONECLIENT, paths);
  }

  /** The client pods' steps, pod after pod in match order. */
  function EachOcPod(pods: seq<Component>, paths: seq<string>, w: World): seq<Step>
  {
    if pods == [] then []
    else EachOcPod(pods[..|pods| - 1], paths, w) + OcPodSteps(GetName(pods[|pods| - 1]), paths, w)
  }

  /**
   * What the worker for client pod substring `substring` issues. The
   * sources dict is looked up once, before the loop; its values are taken
   * at the first pod, so a missing dict only fails once a pod matched. A
   * path that is not a string raises at the first pod, after the paths
   * before it are synced and recorded. When recording raises
   * (`w.addSource`), the worker ends at the first pod's first record,
   * right after the first rsync.
   */
  function OcPlan(substring: string, data: Value, w: World, logFile: string): (p: PodPlan)
    ensures p.logFile == logFile && |p.steps| >= 1 && p.steps[0] == Wait(substring)
    ensures MatchPods(substring, w.listing) == [] && PodSourcesCfg(data, substring).Ok? ==> p == PodPlan(logFile, [Wait(substring)], None)
  {
    var pods := MatchPods(substring, w.listing);
    match PodSourcesCfg(data, substring)
    case Fail(e) => PodPlan(logFile, [Wait(substring)], Some(e))
    case Ok(cfg) =>
      if pods == [] then PodPlan(logFile, [Wait(substring)], None)
      else if !cfg.VDict? then PodPlan(logFile, [Wait(substring)], Some(AttributeError))
      else
        var (items, bad) := PathItems(cfg.fields, w.dictOrder(cfg.fields));
        if w.addSource.Some? && items != [] then
          PodPlan(logFile, [Wait(substring)] + OcPathStep(GetName(pods[0]), items[0].1, w), w.addSource)
        else if bad.Some? then PodPlan(logFile, [Wait(substring)] + OcPathSteps(GetName(pods[0]), ItemPaths(items), w), bad)
        else PodPlan(logFile, [Wait(substring)] + EachOcPod(pods, ItemPaths(items), w), None)
  }

  /**
   * A client worker meeting a path that is not a string has recorded the
   * paths before it at the first pod and raises TypeError there, without
   * touching the sentinel. When recording raises, the first path still
   * ends the worker at its record if it is a string.
   */
  lemma OcPlanBadPath(substring: string, data: Value, w: World, logFile: string)
    requires MatchPods(substring, w.listing) != []
    requires PodSourcesCfg(data, substring).Ok? && PodSourcesCfg(data, substring).value.VDict?
    requires var m := PodSourcesCfg(data, substring).value.fields;
             exists i :: 0 <= i < |w.dictOrder(m)| && w.dictOrder(m)[i] in m && !m[w.dictOrder(m)[i]].VStr?
    ensures var m := PodSourcesCfg(data, substring).value.fields;
            var p := OcPlan(substring, data, w, logFile);
            var paths := ItemPaths(PathItems(m, w.dictOrder(m)).0);
            var recording := w.addSource.Some? && paths != [];
            p.error == (if recording then w.addSource else Some(TypeError))
            && Recorded(p.steps) == (if recording then [paths[0]] else paths)
            && p.steps[|p.steps| - 1] != Exec(GetName(MatchPods(substring, w.listing)[0]), ReadyFileCmd(""))
  {
    var m := PodSourcesCfg(data, substring).value.fields;
    var pod := GetName(MatchPods(substring, w.listing)[0]);
    var paths := ItemPaths(PathItems(m, w.dictOrder(m)).0);
    assert [Wait(substring)][..0] == [];
    if w.addSource.Some? && paths != [] {
      var one := OcPathStep(pod, paths[0], w);
      OcPathRecorded(pod, paths[0], w);
      RecordedAppend([Wait(substring)], one);
    } else {
      var steps := OcPathSteps(pod, paths, w);
      OcRecordsAll(pod, paths, w);
      RecordedAppend([Wait(substring)], steps);
      OcPathStepsEnd(pod, paths, w);
    }
  }

  /**
   * A client worker as written: `add_source` is not bound in
   * deployment_data.py, so once a pod matched and its first path is a
   * string, the worker rsyncs that one path, raises an AttributeError at
   * its record and never writes the sentinel, on any pod: every command
   * it issues only prepares the pod.
   */
  lemma OcPlanAsWritten(substring: string, data: Value, w: World, logFile: string)
    requires w.addSource == DeploymentData.Attribute("add_source")
    requires MatchPods(substring, w.listing) != []
    requires PodSourcesCfg(data, substring).Ok? && PodSourcesCfg(data, substring).value.VDict?
    requires var m := PodSourcesCfg(data, substring).value.fields;
             PathItems(m, w.dictOrder(m)).0 != []
    ensures var m := PodSourcesCfg(data, substring).value.fields;
            var p := OcPlan(substring, data, w, logFile);
            var first := PathItems(m, w.dictOrder(m)).0[0].1;
            p.error == Some(AttributeError)
            && p.steps == [Wait(substring)] + OcPathStep(GetName(MatchPods(substring, w.listing)[0]), first, w)
            && Recorded(p.steps) == [first]
            && AllPreparing(p.steps)
  {
    DeploymentData.RecordingHelpersUnbound();
    var m := PodSourcesCfg(data, substring).value.fields;
    var pod := GetName(MatchPods(substring, w.listing)[0]);
    var first := PathItems(m, w.dictOrder(m)).0[0].1;
    assert OcPlan(substring, data, w, logFile) == PodPlan(logFile, [Wait(substring)] + OcPathStep(pod, first, w), w.addSource);
    OcFirstRecordSteps(substring, pod, first, w);
  }

  /** The commands up to a client pod's first record: one rsync, recording only that path. */
  lemma OcFirstRecordSteps(substring: string, pod: string, first: string, w: World)
    ensures Recorded([Wait(substring)] + OcPathStep(pod, first, w)) == [first]
    ensures AllPreparing([Wait(substring)] + OcPathStep(pod, first, w))
  {
    var one := OcPathStep(pod, first, w);
    OcPathRecorded(pod, first, w);
    RecordedAppend([Wait(substring)], one);
    assert [Wait(substring)][..0] == [];
    assert StartsWith("mkdir -p " + first, "mkdir -p ");
    assert AllPreparing(FileSteps(pod, first, pod + ":" + ONECLIENT_BIN_PATH, w));
    PreparingConcat([Wait(substring)], one);
  }

  /** A client pod's path steps end with a record or nothing, never with the sentinel. */
  lemma OcPathStepsEnd(pod: string, paths: seq<string>, w: World)
    ensures var s := OcPathSteps(pod, paths, w); s == [] || s[|s| - 1].RecordSource?
  {
  }

  /** The paths of (name, path) items. */
  function ItemPaths(items: seq<(string, string)>): (r: seq<string>)
    ensures |r| == |items| && forall i :: 0 <= i < |items| ==> r[i] == items[i].1
  {
    if items == [] then [] else [items[0].1] + ItemPaths(items[1..])
  }

  /** The loop of `rsync_sources_for_oc` over the matching pods. */
  method SyncOcPods(pods: seq<Component>, paths: seq<string>, w: World) returns (steps: seq<Step>)
    ensures steps == EachOcPod(pods, paths, w)
  {
    steps := [];
    var i := 0;
    while i < |pods|
      invariant 0 <= i <= |pods|
      invariant steps == EachOcPod(pods[..i], paths, w)
    {
      var podSteps := OcPodSync(GetName(pods[i]), paths, w);
      steps := steps + podSteps;
      assert pods[..i + 1][..i] == pods[..i];
      i := i + 1;
    }
    assert pods[..|pods|] == pods;
  }

  /** `rsync_sources_for_oc(pod_substring, deployment_data_dict, log_file_path)`. */
  method RsyncSourcesForOc(substring: string, data: Value, w: World, logFile: string) returns (p: PodPlan)
    ensures p == OcPlan(substring, data, w, logFile)
  {
    var pods := MatchPods(substring, w.listing);
    var cfg := PodSourcesCfg(data, substring);
    if cfg.Fail? {
      return PodPlan(logFile, [Wait(substring)], Some(cfg.error));
    }
    if pods == [] {
      return PodPlan(logFile, [Wait(substring)], None);
    }
    if !cfg.value.VDict? {
      return PodPlan(logFile, [Wait(substring)], Some(AttributeError));
    }
    var items, bad := PathItems(cfg.value.fields, w.dictOrder(cfg.value.fields)).0,
                      PathItems(cfg.value.fields, w.dictOrder(cfg.value.fields)).1;
    if w.addSource.Some? && items != [] {
      var synced := RsyncSource(GetName(pods[0]), items[0].1, ONECLIENT_BIN_PATH, [], w);
      return PodPlan(logFile, [Wait(substring)] + synced + [RecordSource(GetName(pods[0]), SERVICE_ONECLIENT, items[0].1)],
                     w.addSource);
    }
    if bad.Some? {
      var synced := OcPathsSync(GetName(pods[0]), ItemPaths(items), w);
      return PodPlan(logFile, [Wait(substring)] + synced, bad);
    }
    var synced := SyncOcPods(pods, ItemPaths(items), w);
    p := PodPlan(logFile, [Wait(substring)] + synced, None);
  }

  // ---------------------------------------------------------------------------
  // rsync_sources

  /** The worker started for pod substring `key`, logging to '<log dir>/<key>_rsync.log'. */
  function PlanFor(key: string, logDir: string, nodesCfg: map<string, map<string, Node>>, data: Value, w: World)
    : (p: PodPlan)
    ensures p.logFile == PathJoin(logDir, key + "_rsync.log")
    ensures |p.steps| >= 1 && p.steps[0] == Wait(key)
  {
    var logFile := PathJoin(logDir, key + "_rsync.log");
    if w.serviceType(key) == SERVICE_ONECLIENT then OcPlan(key, data, w, logFile)
    else OzOpPlan(key, nodesCfg, data, w, logFile)
  }

  /** A list whose items are all strings. */
  predicate AllStrings(items: seq<Value>)
  {
    forall i :: 0 <= i < |items| ==> items[i].VStr?
  }

  /**
   * The pod substrings `rsync_sources` iterates over the record's
   * 'sources': a dict's keys, a list's items, a string's characters; None
   * and the other scalars are not iterable.
   */
  function SourceKeys(data: Value, w: World): (r: Result<seq<string>>)
    ensures r.Ok? <==> data.VDict? && "sources" in data.fields &&
                       match data.fields["sources"]
                       case VDict(_) => true
                       case VStr(_) => true
                       case VList(items) => AllStrings(items)
                       case _ => false
    ensures !data.VDict? ==> r == Fail(AttributeError)
    ensures r.Ok? ==> match data.fields["sources"]
                      case VDict(m) => r.value == w.dictOrder(m)
                      case VStr(t) => |r.value| == |t| && forall i :: 0 <= i < |t| ==> r.value[i] == [t[i]]
                      case VList(items) => |r.value| == |items| && forall i :: 0 <= i < |items| ==> r.value[i] == items[i].s
                      case _ => false
  {
    if !data.VDict? then Fail(AttributeError)
    else match GetOrNone(data, "sources").value
      case VDict(m) => Ok(w.dictOrder(m))
      case VStr(t) => Ok(seq(|t|, i requires 0 <= i < |t| => [t[i]]))
      case VList(items) =>
        if AllStrings(items) then Ok(seq(|items|, i requires 0 <= i < |items| => items[i].s))
        else Fail(TypeError)
      case _ => Fail(TypeError)
  }

  /**
   * `rsync_sources(deployment_dir, log_directory_path, nodes_cfg)` over the
   * loaded record: one worker per pod substring, in dict order, the
   * oneclient one exactly when the substring's service type is oneclient.
   */
  function SyncPlans(logDir: string, nodesCfg: map<string, map<string, Node>>, data: Value, w: World)
    : (r: Result<seq<PodPlan>>)
    ensures r.Ok? <==> SourceKeys(data, w).Ok?
    ensures r.Ok? ==> |r.value| == |SourceKeys(data, w).value|
    ensures r.Ok? ==> forall i :: 0 <= i < |r.value| ==>
              var key := SourceKeys(data, w).value[i];
              r.value[i].logFile == PathJoin(logDir, key + "_rsync.log")
              && |r.value[i].steps| >= 1 && r.value[i].steps[0] == Wait(key)
              && (w.serviceType(key) == SERVICE_ONECLIENT ==> r.value[i] == OcPlan(key, data, w, r.value[i].logFile))
              && (w.serviceType(key) != SERVICE_ONECLIENT ==> r.value[i] == OzOpPlan(key, nodesCfg, data, w, r.value[i].logFile))
  {
    var keys :- SourceKeys(data, w);
    Ok(seq(|keys|, i requires 0 <= i < |keys| => PlanFor(keys[i], logDir, nodesCfg, data, w)))
  }

  /** The worker `rsync_sources` starts for one pod substring: a client's or a onezone/oneprovider one. */
  method RsyncSourcesFor(key: string, logDir: string, nodesCfg: map<string, map<string, Node>>, data: Value, w: World)
    returns (plan: PodPlan)
    ensures plan == PlanFor(key, logDir, nodesCfg, data, w)
  {
    var logFile := PathJoin(logDir, key + "_rsync.log");
    if w.serviceType(key) == SERVICE_ONECLIENT {
      plan := RsyncSourcesForOc(key, data, w, logFile);
    } else {
      plan := RsyncSourcesForOzOp(key, nodesCfg, data, w, logFile);
    }
  }

  /** `rsync_sources`, the workers taken in start order. */
  method RsyncSources(logDir: string, nodesCfg: map<string, map<string, Node>>, data: Value, w: World)
    returns (r: Result<seq<PodPlan>>)
    ensures r == SyncPlans(logDir, nodesCfg, data, w)
  {
    var keys := SourceKeys(data, w);
    if keys.Fail? {
      return Fail(keys.error);
    }
    var plans := StartWorkers(keys.value, logDir, nodesCfg, data, w);
    assert plans == seq(|keys.value|, j requires 0 <= j < |keys.value| => PlanFor(keys.value[j], logDir, nodesCfg, data, w));
    r := Ok(plans);
  }

  /** The loop of `rsync_sources`: one worker per pod substring, in order. */
  method StartWorkers(keys: seq<string>, logDir: string, nodesCfg: map<string, map<string, Node>>, data: Value,
                      w: World) returns (plans: seq<PodPlan>)
    ensures |plans| == |keys|
    ensures forall j :: 0 <= j < |keys| ==> plans[j] == PlanFor(keys[j], logDir, nodesCfg, data, w)
  {
    plans := [];
    var i := 0;
    while i < |keys|
      invariant 0 <= i <= |keys|
      invariant |plans| == i
      invariant forall j :: 0 <= j < i ==> plans[j] == PlanFor(keys[j], logDir, nodesCfg, data, w)
    {
      var plan := RsyncSourcesFor(keys[i], logDir, nodesCfg, data, w);
      plans := plans + [plan];
      i := i + 1;
    }
  }

  /**
   * The node a worker patches is the one the pod was generated for:
   * 'n' + get_node_num(gen_pod_name(service, 'n' + k)) is 'n' + k again.
   */
  lemma NodeNameRestored(release: string, service: string, k: string)
    requires !HasChar(k, NODE_NAME) && !HasChar(k, '-')
    ensures GenPodName(release, service, [NODE_NAME] + k).Ok?
    ensures [NODE_NAME] + GetNodeNum(GenPodName(release, service, [NODE_NAME] + k).value) == [NODE_NAME] + k
  {
    GenPodNameOfNode(release, service, k);
    GetNodeNumOf(release + "-" + service, k);
    assert release + "-" + service + "-" + k == (release + "-" + service) + "-" + k;
  }
}
