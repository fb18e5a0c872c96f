/**
 * Bringing up a deployment from a scenario
 * (scripts/utils/deployment/scenario_runner.py): how the scenario key is
 * found, how the helm install command is assembled, and in which order the
 * steps of `run_scenario` happen.
 *
 * The steps that copy files, parse and generate configuration, register
 * the release and sync sources are recorded as abstract actions (their
 * effects are modelled in their own modules); the exit code of every
 * command run with `check_call` is a parameter.
 */
module ScenarioRunner {
  import opened Util
  import opened Paths
  import opened Yaml
  import opened NamesAndPaths
  import opened Helm
  import DeploymentData

  const CHART_VERSION: string := "0.2.15-rc1"

  // ---------------------------------------------------------------------------
  // get_scenario_key

  /** `\d+p` at the start of `s`: a run of digits, then 'p'. */
  predicate DigitsThenP(s: string)
    decreases |s|
  {
    |s| >= 2 && IsDigit(s[0]) && (s[1] == 'p' || DigitsThenP(s[1..]))
  }

  /** `re.match(r'onedata-\d+p', key)`: anchored at the start, not at the end. */
  predicate IsScenarioKey(key: string)
  {
    StartsWith(key, "onedata-") && DigitsThenP(key[8..])
  }

  /** The scan agrees with the pattern: some k >= 1 digits followed by 'p'. */
  lemma {:induction false} DigitsThenPIff(s: string)
    ensures DigitsThenP(s) <==> exists k :: 1 <= k < |s| && AllDigits(s[..k]) && s[k] == 'p'
    decreases |s|
  {
    if DigitsThenP(s) {
      if s[1] == 'p' {
        assert AllDigits(s[..1]);
      } else {
        DigitsThenPIff(s[1..]);
        var k :| 1 <= k < |s[1..]| && AllDigits(s[1..][..k]) && s[1..][k] == 'p';
        assert s[..k + 1] == [s[0]] + s[1..][..k];
        assert AllDigits(s[..k + 1]);
        assert s[k + 1] == 'p';
      }
    }
    if exists k :: 1 <= k < |s| && AllDigits(s[..k]) && s[k] == 'p' {
      var k :| 1 <= k < |s| && AllDigits(s[..k]) && s[k] == 'p';
      assert IsDigit(s[..k][0]);
      if k > 1 {
        assert s[1..][..k - 1] == s[..k][1..];
        assert s[1..][k - 1] == 'p';
        DigitsThenPIff(s[1..]);
      }
    }
  }

  /** `next((key for key in sources_val if re.match(...)), '')`, the keys in iteration order. */
  function GetScenarioKey(keys: seq<string>): (r: string)
    ensures r == [] || IsScenarioKey(r)
  {
    if keys == [] then ""
    else if IsScenarioKey(keys[0]) then keys[0]
    else GetScenarioKey(keys[1..])
  }

  /** The key found is the first key that matches. */
  lemma {:induction false} GetScenarioKeyFirst(keys: seq<string>, i: nat)
    requires i < |keys| && IsScenarioKey(keys[i])
    requires forall j :: 0 <= j < i ==> !IsScenarioKey(keys[j])
    ensures GetScenarioKey(keys) == keys[i]
  {
    if i > 0 {
      GetScenarioKeyFirst(keys[1..], i - 1);
    }
  }

  /** Without a matching key the result is ''. */
  lemma {:induction false} GetScenarioKeyNone(keys: seq<string>)
    requires forall j :: 0 <= j < |keys| ==> !IsScenarioKey(keys[j])
    ensures GetScenarioKey(keys) == ""
  {
    if keys != [] {
      GetScenarioKeyNone(keys[1..]);
    }
  }

  /** A key such as 'onedata-2p-extra' matches, since the pattern is not anchored at the end. */
  lemma ScenarioKeyPrefixOnly()
    ensures IsScenarioKey("onedata-12p-extra")
    ensures !IsScenarioKey("onedata-p")
  {
    assert "onedata-12p-extra"[8..] == "12p-extra";
    assert "12p-extra"[1..] == "2p-extra";
    assert "onedata-p"[8..] == "p";
  }

  // ---------------------------------------------------------------------------
  // The helm install command

  /** The helm install command `run_scenario` assembles. */
  function ScenarioInstallCmd(localChart: string, namespace: string, release: string, myValues: string,
                              customConfig: string, baseSources: string, debug: bool, dryRun: bool,
                              sources: bool): seq<string>
  {
    InstallHead(if localChart != [] then CROSS_SUPPORT_JOB else CROSS_SUPPORT_JOB_REPO_PATH, namespace, release)
    + Pairs("-f", [myValues, customConfig])
    + (if debug then ["--debug"] else [])
    + (if dryRun then ["--dry-run"] else [])
    + (if sources then ["-f", baseSources] else [])
    + (if localChart == [] then ["--version", CHART_VERSION] else [])
  }

  /** `run_scenario`'s extensions of `helm_install_cmd`, made one after another. */
  method BuildInstallCmd(localChart: string, namespace: string, release: string, myValues: string,
                         customConfig: string, baseSources: string, debug: bool, dryRun: bool, sources: bool)
    returns (cmd: seq<string>)
    ensures cmd == ScenarioInstallCmd(localChart, namespace, release, myValues, customConfig, baseSources,
                                      debug, dryRun, sources)
  {
    var chart := if localChart != [] then CROSS_SUPPORT_JOB else CROSS_SUPPORT_JOB_REPO_PATH;
    cmd := InstallCmd(chart, [myValues, customConfig], None, namespace, release);
    if debug {
      cmd := cmd + ["--debug"];
    }
    if dryRun {
      cmd := cmd + ["--dry-run"];
    }
    if sources {
      cmd := cmd + ["-f", baseSources];
    }
    if localChart == [] {
      cmd := cmd + ["--version", CHART_VERSION];
    }
  }

  /** The head and values part of the command: 11 tokens, the last four being the two '-f' pairs. */
  lemma InstallPrefix(chart: string, namespace: string, release: string, myValues: string, customConfig: string)
    ensures var p := InstallHead(chart, namespace, release) + Pairs("-f", [myValues, customConfig]);
            |p| == 11 && p[7..] == ["-f", myValues, "-f", customConfig]
  {
    assert [myValues, customConfig][1..] == [customConfig];
    assert [customConfig][1..] == [];
    assert Pairs("-f", [customConfig]) == ["-f", customConfig] + Pairs("-f", []);
    assert Pairs("-f", [myValues, customConfig]) == ["-f", myValues] + Pairs("-f", [customConfig]);
  }

  /**
   * The values files helm reads are MyValues, then CustomConfig, then the
   * sources values exactly when sources are enabled.
   */
  lemma ScenarioValuesOrder(localChart: string, namespace: string, release: string, myValues: string,
                            customConfig: string, baseSources: string, debug: bool, dryRun: bool, sources: bool)
    ensures var cmd := ScenarioInstallCmd(localChart, namespace, release, myValues, customConfig, baseSources,
                                          debug, dryRun, sources);
            FlagArgs(cmd[7..], "-f") == [myValues, customConfig] + (if sources then [baseSources] else [])
  {
    var chart := if localChart != [] then CROSS_SUPPORT_JOB else CROSS_SUPPORT_JOB_REPO_PATH;
    var cmd := ScenarioInstallCmd(localChart, namespace, release, myValues, customConfig, baseSources,
                                  debug, dryRun, sources);
    var head := InstallHead(chart, namespace, release);
    var vals := Pairs("-f", [myValues, customConfig]);
    InstallPrefix(chart, namespace, release, myValues, customConfig);
    var d := if debug then ["--debug"] else [];
    var dr := if dryRun then ["--dry-run"] else [];
    var src := if sources then ["-f", baseSources] else [];
    var ver := if localChart == [] then ["--version", CHART_VERSION] else [];
    var tail := d + dr + src + ver;
    assert vals == ["-f", myValues, "-f", customConfig] by {
      assert (head + vals)[7..] == vals;
    }
    calc {
      FlagArgs(cmd[7..], "-f");
      { DropHead(head, vals, d, dr, src, ver); }
      FlagArgs(vals + tail, "-f");
      { FlagArgsAppend(vals, tail, "-f"); }
      FlagArgs(vals, "-f") + FlagArgs(tail, "-f");
      { FlagArgsOfPairs("-f", [myValues, customConfig]); TailFlags(debug, dryRun, sources, baseSources, localChart); }
      [myValues, customConfig] + (if sources then [baseSources] else []);
    }
  }

  /** Dropping the head of a command built by appends leaves the later parts, regrouped. */
  lemma DropHead(head: seq<string>, a: seq<string>, b: seq<string>, c: seq<string>, e: seq<string>, f: seq<string>)
    ensures (head + a + b + c + e + f)[|head|..] == a + (b + c + e + f)
  {
    var x := head + a + b + c + e + f;
    var y := a + (b + c + e + f);
    assert |x[|head|..]| == |y|;
    forall i | 0 <= i < |y| ensures x[|head|..][i] == y[i] {
    }
  }

  /** After the values files only the sources values file is a '-f' argument. */
  lemma TailFlags(debug: bool, dryRun: bool, sources: bool, baseSources: string, localChart: string)
    ensures var tail := (if debug then ["--debug"] else []) + (if dryRun then ["--dry-run"] else [])
                        + (if sources then ["-f", baseSources] else [])
                        + (if localChart == [] then ["--version", CHART_VERSION] else []);
            FlagArgs(tail, "-f") == (if sources then [baseSources] else [])
  {
    var d := if debug then ["--debug"] else [];
    var dr := if dryRun then ["--dry-run"] else [];
    var src := if sources then ["-f", baseSources] else [];
    var ver := if localChart == [] then ["--version", CHART_VERSION] else [];
    assert d + dr + src + ver == (d + dr) + (src + ver);
    FlagsSkipped(d + dr, src + ver);
    if sources {
      assert (src + ver)[2..] == ver;
    } else {
      assert src + ver == ver;
    }
    if localChart == [] {
      assert ver[1..] == [CHART_VERSION];
      assert FlagArgs(ver, "-f") == FlagArgs(ver[1..], "-f") == [];
    } else {
      assert ver == [];
    }
  }

  /** '--version <chart version>' ends the command exactly when there is no local chart. */
  lemma ScenarioVersionFlag(localChart: string, namespace: string, release: string, myValues: string,
                            customConfig: string, baseSources: string, debug: bool, dryRun: bool, sources: bool)
    ensures var cmd := ScenarioInstallCmd(localChart, namespace, release, myValues, customConfig, baseSources,
                                          debug, dryRun, sources);
            localChart == [] <==> |cmd| >= 2 && cmd[|cmd| - 2..] == ["--version", CHART_VERSION]
  {
    var cmd := ScenarioInstallCmd(localChart, namespace, release, myValues, customConfig, baseSources,
                                  debug, dryRun, sources);
    if localChart != [] {
      var chart := CROSS_SUPPORT_JOB;
      InstallPrefix(chart, namespace, release, myValues, customConfig);
      var p := InstallHead(chart, namespace, release) + Pairs("-f", [myValues, customConfig]);
      if sources {
        assert cmd[|cmd| - 2] == "-f";
      } else if dryRun {
        assert cmd[|cmd| - 1] == "--dry-run";
      } else if debug {
        assert cmd[|cmd| - 1] == "--debug";
      } else {
        assert cmd == p;
        assert cmd[|cmd| - 2] == "-f";
      }
    }
  }

  /** '--debug' comes right before '--dry-run' when both are asked for. */
  lemma ScenarioDebugFlags(localChart: string, namespace: string, release: string, myValues: string,
                           customConfig: string, baseSources: string, dryRun: bool, sources: bool)
    ensures var cmd := ScenarioInstallCmd(localChart, namespace, release, myValues, customConfig, baseSources,
                                          true, dryRun, sources);
            cmd[11] == "--debug" && (dryRun ==> cmd[12] == "--dry-run")
  {
    var chart := if localChart != [] then CROSS_SUPPORT_JOB else CROSS_SUPPORT_JOB_REPO_PATH;
    InstallPrefix(chart, namespace, release, myValues, customConfig);
  }

  /** The debug flags are not '-f' and take no value, so the '-f' scan steps over them. */
  lemma FlagsSkipped(flags: seq<string>, rest: seq<string>)
    requires |flags| <= 2 && forall i :: 0 <= i < |flags| ==> flags[i] == "--debug" || flags[i] == "--dry-run"
    ensures FlagArgs(flags + rest, "-f") == FlagArgs(rest, "-f")
  {
    if |flags| == 1 {
      if rest != [] {
        assert (flags + rest)[1..] == rest;
      }
    } else if |flags| == 2 {
      assert (flags + rest)[1..] == [flags[1]] + rest;
      if rest != [] {
        assert ([flags[1]] + rest)[1..] == rest;
      }
    } else {
      assert flags + rest == rest;
    }
  }

  // ---------------------------------------------------------------------------
  // run_scenario

  /** What `run_scenario` does, in order. */
  datatype Action =
    | Mkdir(path: string)                                   // os.mkdir
    | CopyTree(source: string, destination: string)         // shutil.copytree
    | Run(argv: seq<string>, cwd: string, log: Option<string>) // subprocess.check_call
    | AddOnedataRepo                                        // helm.add_onedata_repo()
    | ParseEnvConfig(scenarioKey: string)                   // config_parser.parse_env_config
    | GenerateConfigs(scenarioKey: string)                  // config_generator.generate_configs
    | AddRelease(release: string)                           // deployment_data.add_release
    | RsyncSources(deploymentDir: string, logDir: string)   // sources.rsync_sources
    | ConfigureOs                                           // configure_os

  /** The paths `run_scenario` derives from the deployment dir and the scenario name. */
  datatype Layout = Layout(original: string, charts: string, logs: string, scenario: string,
                           baseSources: string, myValues: string, customConfig: string)

  function LayoutOf(deploymentDir: string, scenario: string): (l: Layout)
    ensures l.charts == PathJoin(deploymentDir, "charts") && l.logs == PathJoin(deploymentDir, "logs")
    ensures l.baseSources == PathJoin(l.scenario, "SourcesVal.yaml")
    ensures l.myValues == PathJoin(l.scenario, "MyValues.yaml")
    ensures l.customConfig == PathJoin(l.scenario, "CustomConfig.yaml")
    ensures l.scenario == PathJoin(deploymentDir, PathJoin("scenarios", scenario))
  {
    var original := PathJoin("scenarios", scenario);
    var dir := PathJoin(deploymentDir, original);
    Layout(original, PathJoin(deploymentDir, "charts"), PathJoin(deploymentDir, "logs"), dir,
           PathJoin(dir, "SourcesVal.yaml"), PathJoin(dir, "MyValues.yaml"), PathJoin(dir, "CustomConfig.yaml"))
  }

  /** What `run_scenario` is given besides the deployment dir. */
  datatype Inputs = Inputs(
    localChart: string,               // local_chart_path ('' for none)
    debug: bool,
    dryRun: bool,
    namespace: string,                // the current namespace
    release: string,                  // the current release name
    scenarioKeys: seq<string>,        // the keys of SourcesVal.yaml, in iteration order
    run: seq<string> -> int,          // the exit code of each command run with check_call
    fileOp: Action -> Option<Error>,  // the exception os.mkdir or shutil.copytree raises for a Mkdir or CopyTree, if any
    repoAdded: Option<Error>,         // the exception adding the onedata chart repository raises, if any
    parsed: Option<Error>,            // the exception config_parser.parse_env_config raises, if any
    generated: Option<Error>,         // the exception config_generator.generate_configs raises, if any
    releaseAdded: Option<Error>,      // the exception recording the release raises, if any
    synced: Option<Error>,            // the exception sources.rsync_sources raises, if any
    configured: Option<Error>)        // the exception configure_os raises, if any

  /** The `make` that updates the chart dependencies of a local chart. */
  function MakeCharts(l: Layout): Action
  {
    Run(["make", CROSS_SUPPORT_JOB], l.charts, Some(PathJoin(l.logs, "make_charts.log")))
  }

  /** Whether the env config enables sources (`env_cfg.get('sources')` is truthy). */
  predicate SourcesOn(envCfg: map<string, Value>)
  {
    "sources" in envCfg && Truthy(envCfg["sources"])
  }

  /** The helm install command for this layout and env config. */
  function HelmCmd(l: Layout, envCfg: map<string, Value>, inp: Inputs): seq<string>
  {
    ScenarioInstallCmd(inp.localChart, inp.namespace, inp.release, l.myValues, l.customConfig,
                       l.baseSources, inp.debug, inp.dryRun, SourcesOn(envCfg))
  }

  /** The actions after the scenario key is known, up to and including the helm install. */
  function InstallActions(l: Layout, envCfg: map<string, Value>, inp: Inputs): seq<Action>
  {
    var key := GetScenarioKey(inp.scenarioKeys);
    [ParseEnvConfig(key)]
    + (if SourcesOn(envCfg) then [GenerateConfigs(key)] else [])
    + [Run(HelmCmd(l, envCfg, inp), l.charts, None)]
  }

  /** Whether the env config asks for the pods' OS configuration (`env_cfg.get('os-config')` is truthy). */
  predicate OsConfigOn(envCfg: map<string, Value>)
  {
    "os-config" in envCfg && Truthy(envCfg["os-config"])
  }

  /** The actions after a successful helm install, when none of them raises. */
  function FinalActions(deploymentDir: string, l: Layout, envCfg: map<string, Value>, release: string): seq<Action>
  {
    [AddRelease(release)]
    + (if SourcesOn(envCfg) then [RsyncSources(deploymentDir, l.logs)] else [])
    + (if OsConfigOn(envCfg) then [ConfigureOs] else [])
  }

  /**
   * The actions after a successful helm install and the exception that
   * ends them: recording the release always comes first, and when it
   * raises nothing else happens; a failing sync ends the run before the OS
   * configuration.
   */
  function FinalRun(deploymentDir: string, l: Layout, envCfg: map<string, Value>, inp: Inputs)
    : (r: (seq<Action>, Option<Error>))
    ensures |r.0| >= 1 && r.0[0] == AddRelease(inp.release)
    ensures r.0 <= FinalActions(deploymentDir, l, envCfg, inp.release)
    ensures r.1.None? ==> r.0 == FinalActions(deploymentDir, l, envCfg, inp.release)
    ensures inp.releaseAdded.Some? ==> r == ([AddRelease(inp.release)], inp.releaseAdded)
    ensures r.1.Some? <==> inp.releaseAdded.Some? || (SourcesOn(envCfg) && inp.synced.Some?)
                           || (OsConfigOn(envCfg) && inp.configured.Some?)
    ensures r.1.Some? ==> r.1 == (if inp.releaseAdded.Some? then inp.releaseAdded
                                  else if SourcesOn(envCfg) && inp.synced.Some? then inp.synced
                                  else inp.configured)
  {
    if inp.releaseAdded.Some? then ([AddRelease(inp.release)], inp.releaseAdded)
    else
    var synced := [AddRelease(inp.release)] + (if SourcesOn(envCfg) then [RsyncSources(deploymentDir, l.logs)] else []);
    if SourcesOn(envCfg) && inp.synced.Some? then (synced, inp.synced)
    else if OsConfigOn(envCfg) then (synced + [ConfigureOs], inp.configured)
    else (synced, None)
  }

  /**
   * Whether the helm install ran and succeeded: the chart preparation
   * succeeded, the env config was parsed, the configs were generated when
   * sources are on, and helm exited with 0.
   */
  predicate HelmSucceeded(l: Layout, envCfg: map<string, Value>, inp: Inputs)
  {
    PrepareRun(l, inp).1.None?
    && inp.parsed.None? && (!SourcesOn(envCfg) || inp.generated.None?)
    && inp.run(HelmCmd(l, envCfg, inp)) == 0
  }

  /** The actions before the helm install: the copies and the chart preparation. */
  function PrepareActions(l: Layout, inp: Inputs): seq<Action>
  {
    [Mkdir(l.logs), CopyTree(l.original, l.scenario)]
    + (if inp.localChart != [] then [CopyTree(inp.localChart, l.charts), MakeCharts(l)]
       else [Mkdir(l.charts), AddOnedataRepo])
  }

  /** The exception an action raises, if any: a command run with `check_call` raises on a non-zero exit code. */
  function StepError(a: Action, inp: Inputs): Option<Error>
  {
    match a
    case Mkdir(_) => inp.fileOp(a)
    case CopyTree(_, _) => inp.fileOp(a)
    case Run(argv, _, _) => if inp.run(argv) != 0 then Some(CommandFailed(inp.run(argv))) else None
    case AddOnedataRepo => inp.repoAdded
    case ParseEnvConfig(_) => inp.parsed
    case GenerateConfigs(_) => inp.generated
    case AddRelease(_) => inp.releaseAdded
    case RsyncSources(_, _) => inp.synced
    case ConfigureOs => inp.configured
  }

  /**
   * Straight-line code over `actions`: the actions taken, which end with
   * the first one that raises, and that exception.
   */
  function Until(actions: seq<Action>, inp: Inputs): (r: (seq<Action>, Option<Error>))
    ensures r.0 <= actions
    ensures r.1.None? <==> forall i :: 0 <= i < |actions| ==> StepError(actions[i], inp).None?
    ensures r.1.None? ==> r.0 == actions
    ensures r.1.Some? ==> r.0 != [] && r.1 == StepError(r.0[|r.0| - 1], inp)
                          && forall i :: 0 <= i < |r.0| - 1 ==> StepError(r.0[i], inp).None?
  {
    if actions == [] then ([], None)
    else
      var e := StepError(actions[0], inp);
      if e.Some? then ([actions[0]], e)
      else
        var rest := Until(actions[1..], inp);
        assert forall i :: 1 <= i < |actions| ==> actions[i] == actions[1..][i - 1];
        ([actions[0]] + rest.0, rest.1)
  }

  /** The copies and the chart preparation, up to the first that raises. */
  function PrepareRun(l: Layout, inp: Inputs): (seq<Action>, Option<Error>)
  {
    Until(PrepareActions(l, inp), inp)
  }

  /**
   * `run_scenario(deployment_dir, local_chart_path, debug, dry_run, timeout)`
   * over the loaded env config: the actions taken, in order, and the
   * exception that ended it early, if any.
   */
  function ScenarioPlan(deploymentDir: string, envCfg: Value, inp: Inputs): (r: (seq<Action>, Option<Error>))
  {
    if !envCfg.VDict? then ([], Some(AttributeError))
    else
      var scenario := if "scenario" in envCfg.fields then envCfg.fields["scenario"] else VNone;
      if !scenario.VStr? then ([], Some(TypeError))
      else PlanFrom(deploymentDir, LayoutOf(deploymentDir, scenario.s), envCfg.fields, inp)
  }

  /** `run_scenario` once the paths are known. */
  function PlanFrom(deploymentDir: string, l: Layout, envCfg: map<string, Value>, inp: Inputs)
    : (seq<Action>, Option<Error>)
  {
    var prepared := PrepareRun(l, inp);
    if prepared.1.Some? then prepared
    else
      var prepare := PrepareActions(l, inp);
      var key := GetScenarioKey(inp.scenarioKeys);
      if inp.parsed.Some? then (prepare + [ParseEnvConfig(key)], inp.parsed)
      else if SourcesOn(envCfg) && inp.generated.Some? then
        (prepare + [ParseEnvConfig(key), GenerateConfigs(key)], inp.generated)
      else
        var install := InstallActions(l, envCfg, inp);
        var code := inp.run(HelmCmd(l, envCfg, inp));
        if code != 0 then (prepare + install, Some(CommandFailed(code)))
        else
          var final := FinalRun(deploymentDir, l, envCfg, inp);
          (prepare + install + final.0, final.1)
  }

  /** The copies and the chart preparation, one after another, stopping at the first that raises. */
  method PrepareChart(l: Layout, inp: Inputs) returns (actions: seq<Action>, err: Option<Error>)
    ensures (actions, err) == PrepareRun(l, inp)
  {
    var charts, last;
    if inp.localChart != [] {
      charts, last := CopyTree(inp.localChart, l.charts), MakeCharts(l);
    } else {
      charts, last := Mkdir(l.charts), AddOnedataRepo;
    }
    ghost var steps := [Mkdir(l.logs), CopyTree(l.original, l.scenario), charts, last];
    assert steps == PrepareActions(l, inp);
    actions := [Mkdir(l.logs)];
    err := StepError(Mkdir(l.logs), inp);
    if err.Some? {
      UntilFirstFailure(steps, 0, inp);
      assert actions == steps[..1];
      return;
    }
    actions := actions + [CopyTree(l.original, l.scenario)];
    err := StepError(CopyTree(l.original, l.scenario), inp);
    if err.Some? {
      UntilFirstFailure(steps, 1, inp);
      assert actions == steps[..2];
      return;
    }
    actions := actions + [charts];
    err := StepError(charts, inp);
    if err.Some? {
      UntilFirstFailure(steps, 2, inp);
      assert actions == steps[..3];
      return;
    }
    actions := actions + [last];
    assert actions == steps[..4] == steps;
    err := StepError(last, inp);
    if err.Some? {
      UntilFirstFailure(steps, 3, inp);
    } else {
      UntilNoFailure(steps, inp);
    }
  }

  /** Without an action that raises, all of them are taken. */
  lemma UntilNoFailure(actions: seq<Action>, inp: Inputs)
    requires forall i :: 0 <= i < |actions| ==> StepError(actions[i], inp).None?
    ensures Until(actions, inp) == (actions, None)
  {
  }

  /** The first action that raises ends the run with its exception. */
  lemma {:induction false} UntilFirstFailure(actions: seq<Action>, i: nat, inp: Inputs)
    requires i < |actions| && StepError(actions[i], inp).Some?
    requires forall j :: 0 <= j < i ==> StepError(actions[j], inp).None?
    ensures Until(actions, inp) == (actions[..i + 1], StepError(actions[i], inp))
  {
    if i > 0 {
      assert StepError(actions[0], inp).None?;
      assert actions[1..][i - 1] == actions[i];
      assert forall j :: 0 <= j < i - 1 ==> actions[1..][j] == actions[j + 1];
      UntilFirstFailure(actions[1..], i - 1, inp);
      assert actions[..i + 1] == [actions[0]] + actions[1..][..i];
    } else {
      assert actions[..1] == [actions[0]];
    }
  }

  /**
   * The env config parse, the config generation and the helm install: the
   * actions taken, the exception that ended them, and helm's exit code
   * (0 when helm did not run).
   */
  method InstallChart(l: Layout, envCfg: Value, inp: Inputs) returns (actions: seq<Action>, err: Option<Error>, code: int)
    requires envCfg.VDict?
    ensures var key := GetScenarioKey(inp.scenarioKeys);
            if inp.parsed.Some? then actions == [ParseEnvConfig(key)] && err == inp.parsed && code == 0
            else if SourcesOn(envCfg.fields) && inp.generated.Some? then
              actions == [ParseEnvConfig(key), GenerateConfigs(key)] && err == inp.generated && code == 0
            else actions == InstallActions(l, envCfg.fields, inp) && err.None? && code == inp.run(HelmCmd(l, envCfg.fields, inp))
  {
    var key := GetScenarioKey(inp.scenarioKeys);
    actions := [ParseEnvConfig(key)];
    code := 0;
    if inp.parsed.Some? {
      return actions, inp.parsed, 0;
    }
    var sources := Truthy(GetOr(envCfg, "sources", VNone).value);
    if sources {
      actions := actions + [GenerateConfigs(key)];
      if inp.generated.Some? {
        return actions, inp.generated, 0;
      }
    }
    var helm := BuildInstallCmd(inp.localChart, inp.namespace, inp.release, l.myValues, l.customConfig,
                                l.baseSources, inp.debug, inp.dryRun, sources);
    actions := actions + [Run(helm, l.charts, None)];
    err := None;
    code := inp.run(helm);
  }

  /** The release record, the source sync and the OS configuration after a successful install. */
  method FinishDeployment(deploymentDir: string, l: Layout, envCfg: Value, inp: Inputs)
    returns (actions: seq<Action>, err: Option<Error>)
    requires envCfg.VDict?
    ensures (actions, err) == FinalRun(deploymentDir, l, envCfg.fields, inp)
  {
    actions := [AddRelease(inp.release)];
    if inp.releaseAdded.Some? {
      return actions, inp.releaseAdded;
    }
    if Truthy(GetOr(envCfg, "sources", VNone).value) {
      actions := actions + [RsyncSources(deploymentDir, l.logs)];
      if inp.synced.Some? {
        return actions, inp.synced;
      }
    }
    assert actions == [AddRelease(inp.release)] + (if SourcesOn(envCfg.fields) then [RsyncSources(deploymentDir, l.logs)] else []);
    err := None;
    if Truthy(GetOr(envCfg, "os-config", VNone).value) {
      actions := actions + [ConfigureOs];
      err := inp.configured;
    }
  }

  /** `run_scenario`, its side effects recorded one after another. */
  method RunScenario(deploymentDir: string, envCfg: Value, inp: Inputs)
    returns (actions: seq<Action>, error: Option<Error>)
    ensures (actions, error) == ScenarioPlan(deploymentDir, envCfg, inp)
  {
    if !envCfg.VDict? {
      return [], Some(AttributeError);
    }
    var scenario := GetOr(envCfg, "scenario", VNone).value;
    if !scenario.VStr? {
      return [], Some(TypeError);
    }
    var l := LayoutOf(deploymentDir, scenario.s);
    var prepare, prepareErr := PrepareChart(l, inp);
    if prepareErr.Some? {
      return prepare, prepareErr;
    }
    var install, err, code := InstallChart(l, envCfg, inp);
    if err.Some? {
      return prepare + install, err;
    }
    if code != 0 {
      return prepare + install, Some(CommandFailed(code));
    }
    var final, finalErr := FinishDeployment(deploymentDir, l, envCfg, inp);
    actions, error := prepare + install + final, finalErr;
  }

  /** No release recorded and no sources synced. */
  predicate NothingRecorded(actions: seq<Action>)
  {
    forall i :: 0 <= i < |actions| ==> !actions[i].AddRelease? && !actions[i].RsyncSources?
  }

  lemma NothingRecordedConcat(a: seq<Action>, b: seq<Action>)
    requires NothingRecorded(a) && NothingRecorded(b)
    ensures NothingRecorded(a + b)
  {
    forall i | 0 <= i < |a + b| ensures !(a + b)[i].AddRelease? && !(a + b)[i].RsyncSources? {
      if i < |a| {
        assert (a + b)[i] == a[i];
      } else {
        assert (a + b)[i] == b[i - |a|];
      }
    }
  }

  lemma NothingRecordedPrefix(a: seq<Action>, b: seq<Action>)
    requires a <= b && NothingRecorded(b)
    ensures NothingRecorded(a)
  {
    forall i | 0 <= i < |a| ensures !a[i].AddRelease? && !a[i].RsyncSources? {
      assert a[i] == b[i];
    }
  }

  /** Before the helm install has succeeded nothing is recorded or synced. */
  lemma NothingRecordedBeforeInstall(l: Layout, envCfg: map<string, Value>, inp: Inputs)
    ensures NothingRecorded(PrepareActions(l, inp) + InstallActions(l, envCfg, inp))
  {
    NothingRecordedConcat(PrepareActions(l, inp), InstallActions(l, envCfg, inp));
  }

  /** The release is recorded right after the helm install, with nothing recorded before it. */
  predicate ReleaseAfterInstall(actions: seq<Action>, l: Layout, envCfg: map<string, Value>, inp: Inputs)
  {
    exists k :: 0 < k < |actions|
      && NothingRecorded(actions[..k])
      && actions[k - 1] == Run(HelmCmd(l, envCfg, inp), l.charts, None)
      && actions[k] == AddRelease(inp.release)
  }

  /**
   * The release is recorded exactly when the helm install ran and
   * succeeded, and then right after it; a run that raised after that
   * raised in recording the release, which then is the last action, or in
   * rsync_sources or configure_os.
   */
  lemma PlanFromRecords(deploymentDir: string, l: Layout, envCfg: map<string, Value>, inp: Inputs)
    ensures var r := PlanFrom(deploymentDir, l, envCfg, inp);
            (NothingRecorded(r.0) <==> !HelmSucceeded(l, envCfg, inp))
            && (HelmSucceeded(l, envCfg, inp) ==>
                  ReleaseAfterInstall(r.0, l, envCfg, inp)
                  && (r.1.None? || r.1 == inp.releaseAdded || r.1 == inp.synced || r.1 == inp.configured))
            && (HelmSucceeded(l, envCfg, inp) && inp.releaseAdded.Some? ==>
                  r == (PrepareActions(l, inp) + InstallActions(l, envCfg, inp) + [AddRelease(inp.release)], inp.releaseAdded))
  {
    var r := PlanFrom(deploymentDir, l, envCfg, inp);
    var prepare := PrepareActions(l, inp);
    var key := GetScenarioKey(inp.scenarioKeys);
    assert NothingRecorded(prepare);
    if HelmSucceeded(l, envCfg, inp) {
      var before := prepare + InstallActions(l, envCfg, inp);
      var final := FinalRun(deploymentDir, l, envCfg, inp);
      assert r.0 == before + final.0;
      NothingRecordedBeforeInstall(l, envCfg, inp);
      var k := |before|;
      assert r.0[..k] == before;
      assert r.0[k - 1] == before[k - 1] == Run(HelmCmd(l, envCfg, inp), l.charts, None);
      assert r.0[k] == AddRelease(inp.release);
    } else if PrepareRun(l, inp).1.Some? {
      NothingRecordedPrefix(PrepareRun(l, inp).0, prepare);
    } else if inp.parsed.Some? {
      NothingRecordedConcat(prepare, [ParseEnvConfig(key)]);
    } else if SourcesOn(envCfg) && inp.generated.Some? {
      NothingRecordedConcat(prepare, [ParseEnvConfig(key), GenerateConfigs(key)]);
    } else {
      NothingRecordedBeforeInstall(l, envCfg, inp);
    }
  }

  /**
   * A run that ends early has neither recorded the release nor synced
   * sources, unless the exception came from recording the release, from
   * rsync_sources or from configure_os, all after the helm install.
   */
  lemma ScenarioEarlyEnd(deploymentDir: string, envCfg: Value, inp: Inputs)
    requires ScenarioPlan(deploymentDir, envCfg, inp).1.Some?
    ensures var r := ScenarioPlan(deploymentDir, envCfg, inp);
            NothingRecorded(r.0) || r.1 == inp.releaseAdded || r.1 == inp.synced || r.1 == inp.configured
  {
    if envCfg.VDict? && "scenario" in envCfg.fields && envCfg.fields["scenario"].VStr? {
      var l := LayoutOf(deploymentDir, envCfg.fields["scenario"].s);
      PlanFromRecords(deploymentDir, l, envCfg.fields, inp);
    }
  }

  /**
   * A run that completes records the release right after the helm install
   * succeeded and before anything else, and recording it did not raise;
   * then it syncs sources, only when they are enabled, and last configures
   * the pods' operating systems when an os-config is given.
   */
  lemma ScenarioCompleted(deploymentDir: string, envCfg: Value, inp: Inputs)
    requires ScenarioPlan(deploymentDir, envCfg, inp).1.None?
    ensures envCfg.VDict? && "scenario" in envCfg.fields && envCfg.fields["scenario"].VStr?
    ensures inp.releaseAdded.None?
    ensures var actions := ScenarioPlan(deploymentDir, envCfg, inp).0;
            var l := LayoutOf(deploymentDir, envCfg.fields["scenario"].s);
            exists k :: 0 < k < |actions|
              && NothingRecorded(actions[..k])
              && actions[k - 1] == Run(HelmCmd(l, envCfg.fields, inp), l.charts, None)
              && inp.run(HelmCmd(l, envCfg.fields, inp)) == 0
              && actions[k] == AddRelease(inp.release)
              && actions[k + 1..] == (if SourcesOn(envCfg.fields) then [RsyncSources(deploymentDir, l.logs)] else [])
                                     + (if OsConfigOn(envCfg.fields) then [ConfigureOs] else [])
  {
    var l := LayoutOf(deploymentDir, envCfg.fields["scenario"].s);
    PlanFromCompleted(deploymentDir, l, envCfg.fields, inp);
  }

  lemma PlanFromCompleted(deploymentDir: string, l: Layout, envCfg: map<string, Value>, inp: Inputs)
    requires PlanFrom(deploymentDir, l, envCfg, inp).1.None?
    ensures inp.releaseAdded.None?
    ensures var actions := PlanFrom(deploymentDir, l, envCfg, inp).0;
            exists k :: 0 < k < |actions|
              && NothingRecorded(actions[..k])
              && actions[k - 1] == Run(HelmCmd(l, envCfg, inp), l.charts, None)
              && inp.run(HelmCmd(l, envCfg, inp)) == 0
              && actions[k] == AddRelease(inp.release)
              && actions[k + 1..] == (if SourcesOn(envCfg) then [RsyncSources(deploymentDir, l.logs)] else [])
                                     + (if OsConfigOn(envCfg) then [ConfigureOs] else [])
  {
    var actions := PlanFrom(deploymentDir, l, envCfg, inp).0;
    var before := PrepareActions(l, inp) + InstallActions(l, envCfg, inp);
    var after := FinalActions(deploymentDir, l, envCfg, inp.release);
    assert actions == before + after;
    NothingRecordedBeforeInstall(l, envCfg, inp);
    var k := |before|;
    assert actions[..k] == before;
    assert actions[k - 1] == before[k - 1] == Run(HelmCmd(l, envCfg, inp), l.charts, None);
    assert actions[k..] == after;
    assert actions[k + 1..] == after[1..];
  }

  // ---------------------------------------------------------------------------
  // helm.add_onedata_repo and deployment_data.add_release as written

  /**
   * The run as written: helm.py binds no `add_onedata_repo` and
   * deployment_data.py no `add_release`, so each call raises the
   * AttributeError of the attribute lookup.
   */
  function AsWritten(inp: Inputs): (w: Inputs)
    ensures w.repoAdded == Some(AttributeError) && w.releaseAdded == Some(AttributeError)
    ensures w.(repoAdded := inp.repoAdded, releaseAdded := inp.releaseAdded) == inp
  {
    inp.(repoAdded := Helm.Attribute("add_onedata_repo"), releaseAdded := DeploymentData.Attribute("add_release"))
  }

  /**
   * As written, every run whose helm install succeeds stops with an
   * AttributeError right after it, at the call that records the release:
   * neither sources nor the pods' operating systems are ever touched.
   */
  lemma InstalledThenFails(deploymentDir: string, l: Layout, envCfg: map<string, Value>, inp: Inputs)
    requires HelmSucceeded(l, envCfg, AsWritten(inp))
    ensures PlanFrom(deploymentDir, l, envCfg, AsWritten(inp))
            == (PrepareActions(l, inp) + InstallActions(l, envCfg, inp) + [AddRelease(inp.release)], Some(AttributeError))
  {
    PlanFromRecords(deploymentDir, l, envCfg, AsWritten(inp));
  }

  /** Neither sources are synced nor the pods' operating systems configured. */
  predicate PodsUntouched(actions: seq<Action>)
  {
    forall i :: 0 <= i < |actions| ==> !actions[i].RsyncSources? && actions[i] != ConfigureOs
  }

  /**
   * As written no run completes, and none touches the pods: the env config
   * is rejected, a step before the install raises, helm fails, or the
   * release cannot be recorded.
   */
  lemma NoRunCompletes(deploymentDir: string, envCfg: Value, inp: Inputs)
    ensures var r := ScenarioPlan(deploymentDir, envCfg, AsWritten(inp));
            r.1.Some? && PodsUntouched(r.0)
  {
    if envCfg.VDict? && "scenario" in envCfg.fields && envCfg.fields["scenario"].VStr? {
      PlanFromNeverCompletes(deploymentDir, LayoutOf(deploymentDir, envCfg.fields["scenario"].s), envCfg.fields, inp);
    }
  }

  lemma PlanFromNeverCompletes(deploymentDir: string, l: Layout, envCfg: map<string, Value>, inp: Inputs)
    ensures var r := PlanFrom(deploymentDir, l, envCfg, AsWritten(inp));
            r.1.Some? && PodsUntouched(r.0)
  {
    var w := AsWritten(inp);
    var r := PlanFrom(deploymentDir, l, envCfg, w);
    var before := PrepareActions(l, inp) + InstallActions(l, envCfg, inp);
    PodsUntouchedUpToRecord(l, envCfg, inp);
    if HelmSucceeded(l, envCfg, w) {
      InstalledThenFails(deploymentDir, l, envCfg, inp);
    } else {
      PlanBeforeInstall(deploymentDir, l, envCfg, w);
      PodsUntouchedPrefix(r.0, before + [AddRelease(inp.release)]);
    }
  }

  /** Up to the call that records the release, the pods are not touched. */
  lemma PodsUntouchedUpToRecord(l: Layout, envCfg: map<string, Value>, inp: Inputs)
    ensures PodsUntouched(PrepareActions(l, inp) + InstallActions(l, envCfg, inp) + [AddRelease(inp.release)])
  {
  }

  lemma PodsUntouchedPrefix(a: seq<Action>, b: seq<Action>)
    requires a <= b && PodsUntouched(b)
    ensures PodsUntouched(a)
  {
    forall i | 0 <= i < |a| ensures !a[i].RsyncSources? && a[i] != ConfigureOs {
      assert a[i] == b[i];
    }
  }

  /** Until the helm install has succeeded, a run takes only actions up to the install, and raises. */
  lemma PlanBeforeInstall(deploymentDir: string, l: Layout, envCfg: map<string, Value>, inp: Inputs)
    requires !HelmSucceeded(l, envCfg, inp)
    ensures var r := PlanFrom(deploymentDir, l, envCfg, inp);
            r.1.Some? && r.0 <= PrepareActions(l, inp) + InstallActions(l, envCfg, inp)
  {
  }

  /**
   * As written, every run without a local chart whose directories are
   * created and copied stops with an AttributeError right after creating
   * the charts directory: nothing is parsed, installed or recorded.
   */
  lemma WithoutLocalChartFails(deploymentDir: string, envCfg: Value, inp: Inputs)
    requires inp.localChart == []
    requires envCfg.VDict? && "scenario" in envCfg.fields && envCfg.fields["scenario"].VStr?
    requires var l := LayoutOf(deploymentDir, envCfg.fields["scenario"].s);
             inp.fileOp(Mkdir(l.logs)).None? && inp.fileOp(CopyTree(l.original, l.scenario)).None?
             && inp.fileOp(Mkdir(l.charts)).None?
    ensures var l := LayoutOf(deploymentDir, envCfg.fields["scenario"].s);
            ScenarioPlan(deploymentDir, envCfg, AsWritten(inp))
            == ([Mkdir(l.logs), CopyTree(l.original, l.scenario), Mkdir(l.charts), AddOnedataRepo], Some(AttributeError))
  {
    var l := LayoutOf(deploymentDir, envCfg.fields["scenario"].s);
    var w := AsWritten(inp);
    var steps := PrepareActions(l, w);
    assert steps == [Mkdir(l.logs), CopyTree(l.original, l.scenario), Mkdir(l.charts), AddOnedataRepo];
    UntilFirstFailure(steps, 3, w);
    assert steps[..4] == steps;
  }

  /**
   * As intended, a run without a local chart whose directories are created
   * and copied and whose repository is added prepares the chart fully and
   * goes on to parse the env config.
   */
  lemma WithoutLocalChartPrepares(l: Layout, inp: Inputs)
    requires inp.localChart == [] && inp.repoAdded.None?
    requires inp.fileOp(Mkdir(l.logs)).None? && inp.fileOp(CopyTree(l.original, l.scenario)).None?
             && inp.fileOp(Mkdir(l.charts)).None?
    ensures PrepareRun(l, inp) == ([Mkdir(l.logs), CopyTree(l.original, l.scenario), Mkdir(l.charts), AddOnedataRepo], None)
  {
    var steps := PrepareActions(l, inp);
    assert steps == [Mkdir(l.logs), CopyTree(l.original, l.scenario), Mkdir(l.charts), AddOnedataRepo];
    UntilNoFailure(steps, inp);
  }
}
