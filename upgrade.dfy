/**
 * Upgrading or rolling back a running deployment (scripts/onenv_upgrade.py):
 * the `--set` values built for a stateful set, the values files of the
 * upgrade command, the `helm diff` variant, and the dispatch in `main`.
 *
 * The helm command builders `upgrade_cmd`, `rollback_cmd`, `diff_cmd` and
 * `get_values_cmd`, the stateful-set matcher `match_components_verbose` and
 * the previous-values path helper are not part of this model: the scripts'
 * helm module and deployments directory module do not define them. Their
 * results are parameters: `upgradeTokens` and `rollbackTokens` give the
 * command lines, `matched` the stateful set picked, `prevValuesPath` the
 * file the previous values are dumped to, and `now` the timestamp.
 */
module Upgrade {
  import opened Util
  import opened NamesAndPaths
  import opened KubernetesUtils
  import opened Helm

  /** `--set key=value` pairs, in order. */
  type SetValues = seq<(string, string)>

  const IMAGE_KEY: string := "image"
  const TIMESTAMP_KEY: string := "deployFromSources.timestamp"

  /** `str.format` of an optional chart label: None prints as `None`. */
  function ChartText(chart: Option<string>): string
  {
    if chart.Some? then chart.value else "None"
  }

  /** `'{}.{}.{}'.format(ONEDATA_3P, chart_name, key)`. */
  function Qualified(chart: Option<string>, key: string): string
  {
    ONEDATA_3P + "." + ChartText(chart) + "." + key
  }

  /** The pairs before qualification: the image if given, then the sources timestamp if asked for. */
  function RawSetValues(image: string, sources: bool, now: string): SetValues
  {
    (if image != [] then [(IMAGE_KEY, image)] else []) + (if sources then [(TIMESTAMP_KEY, now)] else [])
  }

  function QualifyAll(chart: Option<string>, raw: SetValues): (r: SetValues)
    ensures |r| == |raw|
    ensures forall i :: 0 <= i < |raw| ==> r[i] == (Qualified(chart, raw[i].0), raw[i].1)
  {
    seq(|raw|, i requires 0 <= i < |raw| => (Qualified(chart, raw[i].0), raw[i].1))
  }

  /**
   * What `parse_set_values(image, sources, stateful_set)` returns; reading
   * the chart label of a missing stateful set is an AttributeError.
   */
  function SetValuesOf(image: string, sources: bool, statefulSet: Option<Component>, now: string): Result<SetValues>
  {
    if statefulSet.None? then Fail(AttributeError)
    else Ok(QualifyAll(GetChartName(statefulSet.value), RawSetValues(image, sources, now)))
  }

  /** `parse_set_values`: append the pairs, then qualify every key. */
  method ParseSetValues(image: string, sources: bool, statefulSet: Option<Component>, now: string)
    returns (r: Result<SetValues>)
    ensures r == SetValuesOf(image, sources, statefulSet, now)
  {
    if statefulSet.None? {
      return Fail(AttributeError);
    }
    var setValues: SetValues := [];
    var chart := GetChartName(statefulSet.value);
    if image != [] {
      setValues := setValues + [(IMAGE_KEY, image)];
    }
    if sources {
      setValues := setValues + [(TIMESTAMP_KEY, now)];
    }
    assert setValues == RawSetValues(image, sources, now);
    r := Ok(QualifyAll(chart, setValues));
  }

  /**
   * The image pair is there iff an image is given, and first; the
   * timestamp pair iff sources are asked for, and last; and every key is
   * qualified by `onedata-3p.<chart>.`.
   */
  lemma SetValuesShape(image: string, sources: bool, c: Component, now: string)
    ensures var r := SetValuesOf(image, sources, Some(c), now);
            var chart := GetChartName(c);
            r.Ok? &&
            |r.value| == (if image != [] then 1 else 0) + (if sources then 1 else 0) &&
            ((exists i :: 0 <= i < |r.value| && r.value[i] == (Qualified(chart, IMAGE_KEY), image)) <==> image != []) &&
            (image != [] ==> r.value[0] == (Qualified(chart, IMAGE_KEY), image)) &&
            ((exists i :: 0 <= i < |r.value| && r.value[i] == (Qualified(chart, TIMESTAMP_KEY), now)) <==> sources) &&
            (sources ==> r.value[|r.value| - 1] == (Qualified(chart, TIMESTAMP_KEY), now)) &&
            (forall i :: 0 <= i < |r.value| ==> StartsWith(r.value[i].0, ONEDATA_3P + "." + ChartText(chart) + "."))
  {
    var chart := GetChartName(c);
    var raw := RawSetValues(image, sources, now);
    var r := QualifyAll(chart, raw);
    var p := ONEDATA_3P + "." + ChartText(chart) + ".";
    assert Qualified(chart, IMAGE_KEY) != Qualified(chart, TIMESTAMP_KEY) by {
      assert |Qualified(chart, IMAGE_KEY)| == |p| + 5;
      assert |Qualified(chart, TIMESTAMP_KEY)| == |p| + 27;
    }
    forall i | 0 <= i < |r| ensures StartsWith(r[i].0, p) {
      assert r[i].0 == p + raw[i].0;
      assert (p + raw[i].0)[..|p|] == p;
    }
    var img := (Qualified(chart, IMAGE_KEY), image);
    var ts := (Qualified(chart, TIMESTAMP_KEY), now);
    if image != [] && sources {
      assert raw == [(IMAGE_KEY, image), (TIMESTAMP_KEY, now)];
      assert r == [img, ts];
      assert r[0] == img && r[1] == ts;
    } else if image != [] {
      assert raw == [(IMAGE_KEY, image)];
      assert r == [img];
      assert r[0] == img;
      assert forall i :: 0 <= i < |r| ==> r[i] != ts;
    } else if sources {
      assert raw == [(TIMESTAMP_KEY, now)];
      assert r == [ts];
      assert r[0] == ts;
      assert forall i :: 0 <= i < |r| ==> r[i] != img;
    } else {
      assert raw == [];
      assert r == [];
    }
  }

  // ---------------------------------------------------------------------------
  // Commands

  /**
   * The values files of `upgrade_deployment_cmd`: the dumped previous
   * values first, then the given files in order.
   */
  function ValuesFiles(prevValuesPath: string, files: seq<string>): (r: seq<string>)
    ensures |r| == 1 + |files| && r[0] == prevValuesPath && r[1..] == files
  {
    if files != [] then [prevValuesPath] + files else [prevValuesPath]
  }

  /** `cmd[1:]`: Python slicing, empty for an empty command. */
  function DropFirst(cmd: seq<string>): (r: seq<string>)
    ensures cmd != [] ==> [cmd[0]] + r == cmd
    ensures cmd == [] ==> r == []
  {
    if cmd == [] then [] else cmd[1..]
  }

  /** What the script does to the host and the cluster, in order. */
  datatype Action =
    | DumpPrevValues(path: string)           // helm get values, written to the path
    | Call(argv: seq<string>)
    | Diff(args: seq<string>)                // call(helm.diff_cmd(args))
    | RsyncSourcesForPods(pods: PodSet)

  /** Which pods `rsync_sources_for_pods` gets: all pods, or a stateful set's. */
  datatype PodSet = AllPods | StatefulSetPods(name: string)

  /** The oracles for the command builders that are not part of this model. */
  datatype Builders = Builders(
    upgradeTokens: (seq<string>, Option<SetValues>, string) -> seq<string>,
    rollbackTokens: string -> seq<string>)

  /**
   * Running `cmd`, or with `show_diff` only showing the difference:
   * `helm diff` in place of the leading `helm`, and nothing is synced.
   */
  function RunOrDiff(cmd: seq<string>, showDiff: bool, pods: PodSet): (r: seq<Action>)
    ensures showDiff ==> r == [Diff(DropFirst(cmd))]
    ensures !showDiff ==> r == [Call(cmd), RsyncSourcesForPods(pods)]
  {
    if showDiff then [Diff(DropFirst(cmd))] else [Call(cmd), RsyncSourcesForPods(pods)]
  }

  /** `upgrade_deployment_cmd(...)`: dump the previous values, then build the command. */
  function UpgradeDeploymentCmd(b: Builders, prevValuesPath: string, files: seq<string>,
                                setValues: Option<SetValues>, chartsPath: string): (seq<Action>, seq<string>)
  {
    ([DumpPrevValues(prevValuesPath)], b.upgradeTokens(ValuesFiles(prevValuesPath, files), setValues, chartsPath))
  }

  /** `upgrade_stateful_set(...)`: no extra values file; the set's pods are synced. */
  function UpgradeStatefulSet(b: Builders, prevValuesPath: string, statefulSet: Component, setValues: SetValues,
                              chartsPath: string, showDiff: bool): (r: seq<Action>)
    ensures |r| >= 2 && r[0] == DumpPrevValues(prevValuesPath)
    ensures showDiff ==> |r| == 2 && r[1].Diff?
    ensures !showDiff ==> |r| == 3 && r[1].Call? && r[2] == RsyncSourcesForPods(StatefulSetPods(GetName(statefulSet)))
  {
    var (dump, cmd) := UpgradeDeploymentCmd(b, prevValuesPath, [], Some(setValues), chartsPath);
    dump + RunOrDiff(cmd, showDiff, StatefulSetPods(GetName(statefulSet)))
  }

  /** `upgrade_deployment(...)`: the given values file after the previous values; every pod is synced. */
  function UpgradeDeployment(b: Builders, prevValuesPath: string, file: string, setValues: Option<SetValues>,
                             chartsPath: string, showDiff: bool): (r: seq<Action>)
    ensures |r| >= 2 && r[0] == DumpPrevValues(prevValuesPath)
    ensures showDiff ==> |r| == 2 && r[1].Diff?
    ensures !showDiff ==> |r| == 3 && r[1].Call? && r[2] == RsyncSourcesForPods(AllPods)
  {
    var (dump, cmd) := UpgradeDeploymentCmd(b, prevValuesPath, [file], setValues, chartsPath);
    dump + RunOrDiff(cmd, showDiff, AllPods)
  }

  /** `rollback(version, show_diff)`. */
  function Rollback(b: Builders, version: string, showDiff: bool): (r: seq<Action>)
    ensures showDiff ==> |r| == 1 && r[0].Diff?
    ensures !showDiff ==> |r| == 2 && r[0] == Call(b.rollbackTokens(version)) && r[1] == RsyncSourcesForPods(AllPods)
  {
    RunOrDiff(b.rollbackTokens(version), showDiff, AllPods)
  }

  // ---------------------------------------------------------------------------
  // main

  /** The parsed command line; an absent string option is the empty string. */
  datatype UpgradeArgs = UpgradeArgs(
    image: string,
    statefulSetSubstring: string,
    rollback: bool,
    sources: bool,
    rollbackVersion: string,
    yamlValues: string,
    showDiff: bool,
    localChartsPath: string)

  /** The cluster as `main` sees it: the current release, helm's exit codes, and the matched set. */
  datatype Cluster = Cluster(current: string, run: seq<string> -> int, matched: Option<Component>)

  /** The stateful-set branch, with the missing set checked before its chart is read. */
  function StatefulSetBranch(a: UpgradeArgs, c: Cluster, b: Builders, prevValuesPath: string, now: string)
    : (r: Result<seq<Action>>)
    requires a.sources || a.image != []
    ensures r.Fail? <==> c.matched.None?
    ensures r.Fail? ==> r.error == Exit(1)
    ensures r.Ok? ==> |r.value| >= 2 && r.value[0] == DumpPrevValues(prevValuesPath)
  {
    if c.matched.None? then Fail(Exit(1))
    else
      var setValues := SetValuesOf(a.image, a.sources, c.matched, now).value;
      if a.yamlValues != [] then
        Ok(UpgradeDeployment(b, prevValuesPath, a.yamlValues, Some(setValues), a.localChartsPath, a.showDiff))
      else
        Ok(UpgradeStatefulSet(b, prevValuesPath, c.matched.value, setValues, a.localChartsPath, a.showDiff))
  }

  /**
   * `main()` after parsing: the deployment must exist; then a stateful set
   * (which needs `--sources` or `--image`), else a values file, else a
   * rollback, else nothing. The stateful-set branch is the one as written,
   * so a pattern that matches no set raises before the `exit(1)`.
   */
  function MainPlan(a: UpgradeArgs, c: Cluster, b: Builders, prevValuesPath: string, now: string)
    : (r: Result<seq<Action>>)
    ensures var ensured := EnsureDeployment(true, true, c.current, c.run);
            r.Fail? <==> ensured.Some? || (a.statefulSetSubstring != [] && (!(a.sources || a.image != []) || c.matched.None?))
    ensures !DeploymentExists(c.current, c.run) ==> r == Fail(Exit(1))
    ensures DeploymentExists(c.current, c.run) && a.statefulSetSubstring != [] ==>
              r.Fail? ==> r.error == (if a.sources || a.image != [] then AttributeError else Exit(1))
    ensures r.Ok? && (a.statefulSetSubstring != [] || a.yamlValues != []) ==>
              |r.value| >= 2 && r.value[0] == DumpPrevValues(prevValuesPath)
    ensures r.Ok? && a.statefulSetSubstring == [] && a.yamlValues == [] ==>
              r.value == (if a.rollback then Rollback(b, a.rollbackVersion, a.showDiff) else [])
  {
    var ensured := EnsureDeployment(true, true, c.current, c.run);
    if ensured.Some? then Fail(ensured.value)
    else if a.statefulSetSubstring != [] then
      if a.sources || a.image != [] then StatefulSetBranchAsWritten(a, c, b, prevValuesPath, now)
      else Fail(Exit(1))
    else if a.yamlValues != [] then
      Ok(UpgradeDeployment(b, prevValuesPath, a.yamlValues, None, a.localChartsPath, a.showDiff))
    else if a.rollback then Ok(Rollback(b, a.rollbackVersion, a.showDiff))
    else Ok([])
  }

  /**
   * The stateful-set branch as written: `parse_set_values` reads the chart
   * label of the matched set before the check for a missing set.
   */
  function StatefulSetBranchAsWritten(a: UpgradeArgs, c: Cluster, b: Builders, prevValuesPath: string, now: string)
    : (r: Result<seq<Action>>)
  {
    var setValues :- SetValuesOf(a.image, a.sources, c.matched, now);
    if c.matched.None? then Fail(Exit(1))
    else if a.yamlValues != [] then
      Ok(UpgradeDeployment(b, prevValuesPath, a.yamlValues, Some(setValues), a.localChartsPath, a.showDiff))
    else
      Ok(UpgradeStatefulSet(b, prevValuesPath, c.matched.value, setValues, a.localChartsPath, a.showDiff))
  }

  /**
   * As written, a stateful-set pattern that matches nothing ends in an
   * AttributeError instead of the intended `exit(1)`; with a match, both
   * agree.
   */
  lemma MissingSetCrashes(a: UpgradeArgs, c: Cluster, b: Builders, prevValuesPath: string, now: string)
    requires a.sources || a.image != []
    ensures c.matched.None? ==>
              StatefulSetBranchAsWritten(a, c, b, prevValuesPath, now) == Fail(AttributeError) &&
              StatefulSetBranch(a, c, b, prevValuesPath, now) == Fail(Exit(1))
    ensures c.matched.Some? ==>
              StatefulSetBranchAsWritten(a, c, b, prevValuesPath, now) == StatefulSetBranch(a, c, b, prevValuesPath, now)
  {
  }

  /** A stateful set without `--sources` or `--image` exits with 1, whatever else is given. */
  lemma StatefulSetNeedsSourcesOrImage(a: UpgradeArgs, c: Cluster, b: Builders, prevValuesPath: string, now: string)
    requires a.statefulSetSubstring != [] && !a.sources && a.image == []
    ensures MainPlan(a, c, b, prevValuesPath, now) == Fail(Exit(1))
  {
  }

  /**
   * With `--show-diff` nothing is upgraded, rolled back or synced: the only
   * actions are dumping the previous values and showing a diff.
   */
  lemma ShowDiffChangesNothing(a: UpgradeArgs, c: Cluster, b: Builders, prevValuesPath: string, now: string)
    requires a.showDiff && MainPlan(a, c, b, prevValuesPath, now).Ok?
    ensures forall act :: act in MainPlan(a, c, b, prevValuesPath, now).value ==> act.DumpPrevValues? || act.Diff?
  {
    var r := MainPlan(a, c, b, prevValuesPath, now).value;
    if a.statefulSetSubstring != [] {
      var sv := SetValuesOf(a.image, a.sources, c.matched, now).value;
      if a.yamlValues != [] {
        var u := UpgradeDeployment(b, prevValuesPath, a.yamlValues, Some(sv), a.localChartsPath, true);
        assert r == u && u == [u[0], u[1]];
      } else {
        var u := UpgradeStatefulSet(b, prevValuesPath, c.matched.value, sv, a.localChartsPath, true);
        assert r == u && u == [u[0], u[1]];
      }
    } else if a.yamlValues != [] {
      var u := UpgradeDeployment(b, prevValuesPath, a.yamlValues, None, a.localChartsPath, true);
      assert r == u && u == [u[0], u[1]];
    } else if a.rollback {
      var u := Rollback(b, a.rollbackVersion, true);
      assert r == u && u == [u[0]];
    }
  }

  /**
   * Every upgrade passes the previous values first and syncs the pods only
   * after the upgrade command has run.
   */
  lemma UpgradeOrder(b: Builders, prevValuesPath: string, file: string, setValues: Option<SetValues>, chartsPath: string)
    ensures var r := UpgradeDeployment(b, prevValuesPath, file, setValues, chartsPath, false);
            r == [DumpPrevValues(prevValuesPath),
                  Call(b.upgradeTokens([prevValuesPath, file], setValues, chartsPath)),
                  RsyncSourcesForPods(AllPods)]
  {
    assert ValuesFiles(prevValuesPath, [file]) == [prevValuesPath, file];
  }

  /** The diff runs the command without its leading `helm`. */
  lemma DiffDropsHelm(rest: seq<string>)
    ensures RunOrDiff(["helm"] + rest, true, AllPods) == [Diff(rest)]
  {
    assert (["helm"] + rest)[1..] == rest;
  }
}
