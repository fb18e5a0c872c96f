/**
 * Helm command builders and the deployment guard
 * (scripts/utils/k8s/helm.py). The current namespace and release name,
 * which the scripts read from the user configuration, are parameters, and
 * so is the exit code of `helm get`, which the scripts obtain by running it.
 */
module Helm {
  import opened Util

  /** A release name argument: Python's `None` or a string; both `None` and '' are falsy. */
  function ReleaseOrCurrent(release: Option<string>, current: string): (r: string)
    ensures release.Some? && release.value != [] ==> r == release.value
    ensures release.None? || release.value == [] ==> r == current
  {
    if release.Some? && release.value != [] then release.value else current
  }

  /** `install_cmd(chart_path, values_paths, release_name)`: the fixed head, then '-f <path>' per values file. */
  method InstallCmd(chartPath: string, valuesPaths: seq<string>, release: Option<string>,
                    namespace: string, current: string) returns (cmd: seq<string>)
    ensures cmd == InstallHead(chartPath, namespace, ReleaseOrCurrent(release, current)) + Pairs("-f", valuesPaths)
  {
    var name := ReleaseOrCurrent(release, current);
    cmd := ["helm", "install", chartPath, "--namespace", namespace, "--name", name];
    var i := 0;
    while i < |valuesPaths|
      invariant 0 <= i <= |valuesPaths|
      invariant cmd == InstallHead(chartPath, namespace, name) + Pairs("-f", valuesPaths[..i])
    {
      PairsSnoc("-f", valuesPaths[..i], valuesPaths[i]);
      assert valuesPaths[..i + 1] == valuesPaths[..i] + [valuesPaths[i]];
      cmd := cmd + ["-f", valuesPaths[i]];
      i := i + 1;
    }
    assert valuesPaths[..i] == valuesPaths;
  }

  /**
   * The install command has length 7 + 2n: the head naming the chart,
   * namespace and release, then '-f' and each values file in order, which
   * is also what helm reads back as its values files.
   */
  lemma InstallCmdShape(chartPath: string, valuesPaths: seq<string>, release: Option<string>,
                        namespace: string, current: string)
    ensures var cmd := InstallHead(chartPath, namespace, ReleaseOrCurrent(release, current)) + Pairs("-f", valuesPaths);
            |cmd| == 7 + 2 * |valuesPaths|
            && cmd[..7] == ["helm", "install", chartPath, "--namespace", namespace, "--name", ReleaseOrCurrent(release, current)]
            && (forall i :: 0 <= i < |valuesPaths| ==> cmd[7 + 2 * i] == "-f" && cmd[8 + 2 * i] == valuesPaths[i])
            && FlagArgs(cmd[7..], "-f") == valuesPaths
  {
    var cmd := InstallHead(chartPath, namespace, ReleaseOrCurrent(release, current)) + Pairs("-f", valuesPaths);
    assert cmd[7..] == Pairs("-f", valuesPaths);
    PairsAt("-f", valuesPaths);
    FlagArgsOfPairs("-f", valuesPaths);
  }

  function InstallHead(chartPath: string, namespace: string, release: string): seq<string>
  {
    ["helm", "install", chartPath, "--namespace", namespace, "--name", release]
  }

  /** The names helm.py binds at module level: its dunder strings, its imports and its functions. */
  const MODULE_NAMES: set<string> :=
    {"__author__", "__copyright__", "__license__", "sys", "List", "user_config", "terminal", "shell",
     "install_cmd", "add_repo_cmd", "get_deployment_cmd", "delete_deployment_cmd", "deployment_exists",
     "clean_deployment", "ensure_deployment"}

  /** `helm.<name>`: looking a name up on the module raises AttributeError unless the module binds it. */
  function Attribute(name: string): (r: Option<Error>)
    ensures r.None? <==> name in MODULE_NAMES
    ensures r.Some? ==> r.value == AttributeError
  {
    if name in MODULE_NAMES then None else Some(AttributeError)
  }

  /** `add_repo_cmd(name, url)`. */
  function AddRepoCmd(name: string, url: string): (r: seq<string>)
    ensures |r| == 5 && r[..3] == ["helm", "repo", "add"] && r[3] == name && r[4] == url
  {
    ["helm", "repo", "add", name, url]
  }

  /** `get_deployment_cmd(name)`. */
  function GetDeploymentCmd(name: string): (r: seq<string>)
    ensures |r| == 3 && r[..2] == ["helm", "get"] && r[2] == name
  {
    ["helm", "get", name]
  }

  /** `delete_deployment_cmd(name)`: the release is purged, not only deleted. */
  function DeleteDeploymentCmd(name: string): (r: seq<string>)
    ensures |r| == 4 && r[..3] == ["helm", "delete", "--purge"] && r[3] == name
  {
    ["helm", "delete", "--purge", name]
  }

  /**
   * `deployment_exists()`: `helm get <current release>` is run (its exit
   * code is given by `run`) and the deployment exists iff it exits with 0.
   */
  predicate DeploymentExists(current: string, run: seq<string> -> int)
  {
    run(GetDeploymentCmd(current)) == 0
  }

  /** `clean_deployment(deployment_name)`: the command it runs. */
  function CleanDeploymentCmd(name: Option<string>, current: string): (r: seq<string>)
    ensures r == DeleteDeploymentCmd(ReleaseOrCurrent(name, current))
    ensures name.Some? && name.value != [] ==> r[3] == name.value
    ensures name.None? || name.value == [] ==> r[3] == current
  {
    DeleteDeploymentCmd(ReleaseOrCurrent(name, current))
  }

  /**
   * `ensure_deployment(exists, fail_with_error)`, with `exists` as `expected`: returns normally (None)
   * when the deployment's presence is as expected; otherwise the script
   * exits, with 1 as an error and with 0 as information.
   */
  function EnsureDeployment(expected: bool, failWithError: bool, current: string, run: seq<string> -> int)
    : (r: Option<Error>)
    ensures r.None? <==> (expected <==> DeploymentExists(current, run))
    ensures r.Some? ==> r.value == Exit(if failWithError then 1 else 0)
  {
    if expected != DeploymentExists(current, run) then Some(Exit(if failWithError then 1 else 0)) else None
  }
}
