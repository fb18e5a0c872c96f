/**
 * Locating the host-compiled source trees a deployment runs from, and the
 * lookups that read the recorded locations back with package-mode
 * fallbacks. The file-system tests (`os.path.isdir`, `os.path.isfile`) and
 * the working directory are parameters; the bookkeeping calls that store a
 * located tree in the deployment record are returned as values.
 */
module SourcesPaths {
  import opened Util
  import opened Paths
  import opened Yaml
  import opened NamesAndPaths
  import opened DeploymentsDir
  import opened DeploymentData

  /**
   * What a successful locate asks the deployment record to store:
   * `add_source(pod, app, location)` or
   * `add_oneclient_deployment(pod, path)`. deployment_data.py binds
   * neither name, so as written each call raises an AttributeError
   * (`RecordAsWritten`); a `Located` holds the record the intended call
   * would store.
   */
  datatype SourceRecord =
    | AddSource(pod: string, app: string, location: string)
    | AddOneclientDeployment(pod: string, path: string)

  datatype Located = Located(location: string, record: SourceRecord)

  /** `RELEASE_DIRS_TO_CHECK.get(app, [])`: the directory names a source tree may have. */
  function ReleaseDirsToCheck(app: string): (r: seq<string>)
    ensures forall i :: 0 <= i < |r| ==> r[i] != []
  {
    if app == SERVICE_ONECLIENT then ["oneclient"]
    else if app == APP_OZ_PANEL then ["oz-panel", "oz_panel", "onepanel"]
    else if app == APP_ONEZONE then ["oz-worker", "oz_worker"]
    else if app == APP_OP_PANEL then ["op-panel", "op_panel", "onepanel"]
    else if app == APP_ONEPROVIDER then ["op-worker", "op_worker"]
    else if app == APP_CLUSTER_MANAGER then ["cluster-manager", "cluster_manager"]
    else []
  }

  /** `[join_path(base, p) for p in dirs]`. */
  function JoinEach(base: string, dirs: seq<string>): (r: seq<string>)
    ensures |r| == |dirs|
    ensures forall i :: 0 <= i < |dirs| ==> r[i] == PathJoin(base, dirs[i])
  {
    if dirs == [] then [] else [PathJoin(base, dirs[0])] + JoinEach(base, dirs[1..])
  }

  /**
   * `paths_to_check`: every directory name under the working directory,
   * then under its parent, then under its grandparent.
   */
  function Candidates(cwd: string, dirs: seq<string>): (r: seq<string>)
    ensures |r| == 3 * |dirs|
    ensures forall i :: 0 <= i < |dirs| ==>
              r[i] == PathJoin(cwd, dirs[i])
              && r[|dirs| + i] == PathJoin(PathJoin(cwd, "../"), dirs[i])
              && r[2 * |dirs| + i] == PathJoin(PathJoin(cwd, "../../"), dirs[i])
  {
    JoinEach(cwd, dirs) + JoinEach(PathJoin(cwd, "../"), dirs) + JoinEach(PathJoin(cwd, "../../"), dirs)
  }

  /** The index of the first path that passes `test`, as `next(...)` finds it. */
  function FirstWhere(paths: seq<string>, test: string -> bool): (r: Option<nat>)
    ensures r.Some? ==> r.value < |paths| && test(paths[r.value])
    ensures r.Some? ==> forall j :: 0 <= j < r.value ==> !test(paths[j])
    ensures r.None? <==> forall j :: 0 <= j < |paths| ==> !test(paths[j])
  {
    if paths == [] then None
    else if test(paths[0]) then Some(0)
    else match FirstWhere(paths[1..], test)
      case None => None
      case Some(i) => Some(i + 1)
  }

  /** The first path that passes `test` is the one `FirstWhere` finds. */
  lemma {:induction false} FirstWhereIs(paths: seq<string>, test: string -> bool, k: nat)
    requires k < |paths| && test(paths[k])
    requires forall j :: 0 <= j < k ==> !test(paths[j])
    ensures FirstWhere(paths, test) == Some(k)
  {
    if k > 0 {
      FirstWhereIs(paths[1..], test, k - 1);
    }
  }

  /**
   * `get_sources_location(app)`: the normalized first candidate that is a
   * directory; `sys.exit(1)` when there is none. A candidate is never the
   * empty string, so `not location` only catches the missing one.
   */
  function GetSourcesLocation(app: string, cwd: string, isdir: string -> bool): (r: Result<string>)
    ensures var c := Candidates(cwd, ReleaseDirsToCheck(app));
            (r.Ok? <==> exists i :: 0 <= i < |c| && isdir(c[i]))
            && (r.Fail? ==> r.error == Exit(1))
            && (r.Ok? ==> FirstWhere(c, isdir).Some? && r.value == NormPath(c[FirstWhere(c, isdir).value]))
  {
    var c := Candidates(cwd, ReleaseDirsToCheck(app));
    match FirstWhere(c, isdir)
    case None => Fail(Exit(1))
    case Some(i) => Ok(NormPath(c[i]))
  }

  /** An app without listed directory names has no candidates and always exits. */
  lemma UnknownAppExits(app: string, cwd: string, isdir: string -> bool)
    requires ReleaseDirsToCheck(app) == []
    ensures GetSourcesLocation(app, cwd, isdir) == Fail(Exit(1))
  {
  }

  /** A candidate directly under the working directory comes before every parent-level one. */
  lemma FirstLevelFirst(cwd: string, dirs: seq<string>, isdir: string -> bool, k: nat)
    requires k < |dirs| && isdir(PathJoin(cwd, dirs[k]))
    requires forall j :: 0 <= j < k ==> !isdir(PathJoin(cwd, dirs[j]))
    ensures FirstWhere(Candidates(cwd, dirs), isdir) == Some(k)
  {
    var c := Candidates(cwd, dirs);
    forall j | 0 <= j < k ensures !isdir(c[j]) {
      assert c[j] == PathJoin(cwd, dirs[j]);
    }
    FirstWhereIs(c, isdir, k);
  }

  /**
   * A directory name found directly under the working directory wins over
   * every candidate of the parent levels.
   */
  lemma NearestLevelWins(app: string, cwd: string, isdir: string -> bool, k: nat)
    requires k < |ReleaseDirsToCheck(app)|
    requires isdir(PathJoin(cwd, ReleaseDirsToCheck(app)[k]))
    requires forall j :: 0 <= j < k ==> !isdir(PathJoin(cwd, ReleaseDirsToCheck(app)[j]))
    ensures GetSourcesLocation(app, cwd, isdir) == Ok(NormPath(PathJoin(cwd, ReleaseDirsToCheck(app)[k])))
  {
    var dirs := ReleaseDirsToCheck(app);
    FirstLevelFirst(cwd, dirs, isdir, k);
    assert Candidates(cwd, dirs)[k] == PathJoin(cwd, dirs[k]);
  }

  /** The oneclient binary candidates `join(location, src_dir, SERVICE_ONECLIENT)`. */
  function BinaryCandidates(location: string, sourcesDirs: seq<string>): (r: seq<string>)
    ensures |r| == |sourcesDirs|
    ensures forall i :: 0 <= i < |sourcesDirs| ==> r[i] == PathJoin(PathJoin(location, sourcesDirs[i]), SERVICE_ONECLIENT)
  {
    if sourcesDirs == [] then []
    else [PathJoin(PathJoin(location, sourcesDirs[0]), SERVICE_ONECLIENT)] + BinaryCandidates(location, sourcesDirs[1..])
  }

  /** The pod substring `locate_oc` records the binary under. */
  function OcPodSubstring(serviceName: string, generatePodName: bool, release: string): (r: Result<string>)
    ensures !generatePodName ==> r == Ok(serviceName)
  {
    if !generatePodName then Ok(serviceName)
    else GenPodName(release, serviceName, SERVICE_ONECLIENT)
  }

  /**
   * `locate_oc(...)`: the source tree of the app, and the first existing
   * oneclient binary below it, recorded under the pod substring; exits 1
   * when no binary exists. `sourcesDirs` is `oneclient_sources_dirs(
   * sources_type)`, one of the names sources_paths.py imports from
   * names_and_paths.py although that module does not bind it; the value
   * it would give is a parameter. The record is the one the intended
   * `add_oneclient_deployment` would store; `LocateOcAsWritten` is the
   * call as written.
   */
  function LocateOcOf(app: string, serviceName: string, generatePodName: bool, sourcesDirs: seq<string>,
                      release: string, cwd: string, isdir: string -> bool, isfile: string -> bool): (r: Result<Located>)
    ensures r.Ok? ==> GetSourcesLocation(app, cwd, isdir) == Ok(r.value.location)
    ensures r.Ok? ==> var f := FirstWhere(BinaryCandidates(r.value.location, sourcesDirs), isfile);
                      f.Some? && r.value.record.AddOneclientDeployment?
                      && r.value.record.path == BinaryCandidates(r.value.location, sourcesDirs)[f.value]
    ensures r.Ok? && !generatePodName ==> r.value.record.pod == serviceName
    ensures r.Fail? && GetSourcesLocation(app, cwd, isdir).Ok? && OcPodSubstring(serviceName, generatePodName, release).Ok?
            ==> r.error == Exit(1)
  {
    var location :- GetSourcesLocation(app, cwd, isdir);
    var pod :- OcPodSubstring(serviceName, generatePodName, release);
    var paths := BinaryCandidates(location, sourcesDirs);
    match FirstWhere(paths, isfile)
    case None => Fail(Exit(1))
    case Some(i) => Ok(Located(location, AddOneclientDeployment(pod, paths[i])))
  }

  /** The for/else search: the index of the first path that passes `test`. */
  method FindFirst(paths: seq<string>, test: string -> bool) returns (r: Option<nat>)
    ensures r == FirstWhere(paths, test)
  {
    var i := 0;
    while i < |paths|
      invariant i <= |paths|
      invariant forall j :: 0 <= j < i ==> !test(paths[j])
    {
      if test(paths[i]) {
        FirstWhereIs(paths, test, i);
        return Some(i);
      }
      i := i + 1;
    }
    return None;
  }

  /** `locate_oc`, with its for/else search over the binary candidates. */
  method LocateOc(app: string, serviceName: string, generatePodName: bool, sourcesDirs: seq<string>,
                  release: string, cwd: string, isdir: string -> bool, isfile: string -> bool)
    returns (r: Result<Located>)
    ensures r == LocateOcOf(app, serviceName, generatePodName, sourcesDirs, release, cwd, isdir, isfile)
  {
    var location :- GetSourcesLocation(app, cwd, isdir);
    var pod :- OcPodSubstring(serviceName, generatePodName, release);
    var paths := BinaryCandidates(location, sourcesDirs);
    var found := FindFirst(paths, isfile);
    if found.Some? {
      return Ok(Located(location, AddOneclientDeployment(pod, paths[found.value])));
    }
    return Fail(Exit(1));
  }

  /** The deployment_data helper a record is handed to. */
  function RecordHelper(record: SourceRecord): (r: string)
    ensures record.AddSource? <==> r == "add_source"
    ensures record.AddOneclientDeployment? <==> r == "add_oneclient_deployment"
  {
    match record
    case AddSource(_, _, _) => "add_source"
    case AddOneclientDeployment(_, _) => "add_oneclient_deployment"
  }

  /**
   * Handing a record to deployment_data as written: looking the helper up
   * in the module raises the AttributeError, if any.
   */
  function RecordAsWritten(record: SourceRecord): (r: Option<Error>)
    ensures r.Some? <==> RecordHelper(record) !in MODULE_NAMES
  {
    Attribute(RecordHelper(record))
  }

  /** Neither record can be stored as written: the helper lookup raises an AttributeError. */
  lemma RecordingAlwaysFails(record: SourceRecord)
    ensures RecordAsWritten(record) == Some(AttributeError)
  {
    RecordingHelpersUnbound();
  }

  /**
   * `locate_oc(...)` as written: the lookup of `LocateOcOf`, after which
   * `deployment_data.add_oneclient_deployment` raises.
   */
  function LocateOcAsWritten(app: string, serviceName: string, generatePodName: bool, sourcesDirs: seq<string>,
                             release: string, cwd: string, isdir: string -> bool, isfile: string -> bool): (r: Result<Located>)
    ensures LocateOcOf(app, serviceName, generatePodName, sourcesDirs, release, cwd, isdir, isfile).Fail? ==>
              r == LocateOcOf(app, serviceName, generatePodName, sourcesDirs, release, cwd, isdir, isfile)
  {
    var l :- LocateOcOf(app, serviceName, generatePodName, sourcesDirs, release, cwd, isdir, isfile);
    match RecordAsWritten(l.record)
    case Some(e) => Fail(e)
    case None => Ok(l)
  }

  /**
   * As written `locate_oc` never returns: where the intended lookup finds
   * a binary, recording it raises an AttributeError; otherwise it fails as
   * the lookup does.
   */
  lemma LocateOcAlwaysFails(app: string, serviceName: string, generatePodName: bool, sourcesDirs: seq<string>,
                            release: string, cwd: string, isdir: string -> bool, isfile: string -> bool)
    ensures LocateOcAsWritten(app, serviceName, generatePodName, sourcesDirs, release, cwd, isdir, isfile).Fail?
    ensures LocateOcOf(app, serviceName, generatePodName, sourcesDirs, release, cwd, isdir, isfile).Ok? ==>
              LocateOcAsWritten(app, serviceName, generatePodName, sourcesDirs, release, cwd, isdir, isfile) == Fail(AttributeError)
  {
    var l := LocateOcOf(app, serviceName, generatePodName, sourcesDirs, release, cwd, isdir, isfile);
    if l.Ok? {
      RecordingAlwaysFails(l.value.record);
    }
  }

  /**
   * `locate_oz_op(app, service, service_type, node_name)` as written: once
   * the sources are located, `gen_pod_name` is called with three
   * arguments, while it takes two, so the call raises a TypeError before
   * anything is checked or recorded.
   */
  function LocateOzOpAsWritten(app: string, cwd: string, isdir: string -> bool): (r: Result<Located>)
  {
    var location :- GetSourcesLocation(app, cwd, isdir);
    Fail(TypeError)
  }

  /**
   * As written `locate_oz_op` never succeeds: where the intended lookup
   * records a location, the call raises a TypeError instead; where the
   * sources cannot be located both exit with 1.
   */
  lemma LocateOzOpAlwaysFails(app: string, pod: string, cwd: string, isdir: string -> bool)
    ensures LocateOzOpAsWritten(app, cwd, isdir).Fail?
    ensures LocateOzOp(app, pod, cwd, isdir).Ok? ==> LocateOzOpAsWritten(app, cwd, isdir) == Fail(TypeError)
    ensures GetSourcesLocation(app, cwd, isdir).Fail? ==>
              LocateOzOpAsWritten(app, cwd, isdir) == LocateOzOp(app, pod, cwd, isdir) == Fail(Exit(1))
  {
  }

  /**
   * With the `gen_pod_name` call mended, `locate_oz_op` would still not
   * return: the `add_source` call after the release-directory check raises
   * an AttributeError.
   */
  lemma LocateOzOpRecordFails(app: string, pod: string, cwd: string, isdir: string -> bool)
    requires LocateOzOp(app, pod, cwd, isdir).Ok?
    ensures RecordAsWritten(LocateOzOp(app, pod, cwd, isdir).value.record) == Some(AttributeError)
    ensures RecordHelper(LocateOzOp(app, pod, cwd, isdir).value.record) == "add_source"
  {
    RecordingAlwaysFails(LocateOzOp(app, pod, cwd, isdir).value.record);
  }

  /**
   * `locate_oz_op(...)` as intended: the source tree of the app, accepted
   * only when it holds the app's release directory, and then recorded
   * under the pod. The pod name is a parameter, standing for
   * `gen_pod_name(service, node_name)`.
   */
  function LocateOzOp(app: string, pod: string, cwd: string, isdir: string -> bool): (r: Result<Located>)
    ensures r.Ok? <==> GetSourcesLocation(app, cwd, isdir).Ok?
                       && isdir(PathJoin(GetSourcesLocation(app, cwd, isdir).value, RelSourcesDir(app)))
    ensures r.Ok? ==> r.value.location == GetSourcesLocation(app, cwd, isdir).value
                      && r.value.record == AddSource(pod, app, r.value.location)
    ensures r.Fail? ==> r.error == Exit(1)
  {
    var location :- GetSourcesLocation(app, cwd, isdir);
    if !isdir(PathJoin(location, RelSourcesDir(app))) then Fail(Exit(1))
    else Ok(Located(location, AddSource(pod, app, location)))
  }

  /**
   * `data['sources'][pod_name][app]` with a KeyError read as "not
   * recorded"; indexing a non-dict is still a TypeError.
   */
  function SourcesEntry(data: Value, pod: string, app: string): (r: Result<Option<Value>>)
    ensures r.Ok? && r.value.Some? <==> GetPath(data, ["sources", pod, app]).Ok?
    ensures r.Ok? && r.value.Some? ==> r.value.value == GetPath(data, ["sources", pod, app]).value
    ensures data.VDict? && "sources" !in data.fields ==> r == Ok(None)
    ensures (data.VDict? && "sources" in data.fields && data.fields["sources"].VDict?
             && pod !in data.fields["sources"].fields) ==> r == Ok(None)
    ensures !data.VDict? ==> r == Fail(TypeError)
  {
    match GetPath(data, ["sources", pod, app])
    case Ok(v) => Ok(Some(v))
    case Fail(e) => if e.KeyError? then Ok(None) else Fail(e)
  }

  /** `get_sources_path(app, pod_name)`: the recorded location, read from the current record. */
  function GetSourcesPath(d: Deployments, app: string, pod: string): (r: Result<Option<Value>>)
    reads d
    ensures d.CurrentName().Fail? ==> r.Fail?
    ensures d.CurrentName().Ok? && d.CurrentName().value !in d.records ==> r == Ok(None)
  {
    var data :- Get(d, EmptyDict);
    SourcesEntry(data, pod, app)
  }

  /**
   * `join_path(bin_path, rel)` when a location is recorded (a truthy
   * value), `abs` otherwise; joining onto a non-string is a TypeError.
   */
  function RecordedOr(bin: Option<Value>, rel: string, abs: string): (r: Result<string>)
    ensures (bin.None? || !Truthy(bin.value)) ==> r == Ok(abs)
    ensures bin.Some? && bin.value.VStr? && bin.value.s != [] ==> r == Ok(PathJoin(bin.value.s, rel))
  {
    if bin.Some? && Truthy(bin.value) then
      if bin.value.VStr? then Ok(PathJoin(bin.value.s, rel)) else Fail(TypeError)
    else Ok(abs)
  }

  /** `get_start_script_path(app, pod_name)`. */
  function GetStartScriptPath(d: Deployments, app: string, pod: string): (r: Result<string>)
    reads d
    ensures GetSourcesPath(d, app, pod) == Ok(None) ==> r == Ok(AbsStartScriptFile(app))
    ensures var b := GetSourcesPath(d, app, pod);
            b.Ok? && b.value.Some? && b.value.value.VStr? && b.value.value.s != [] ==>
              r == Ok(PathJoin(b.value.value.s, RelStartScriptFile(app)))
  {
    var bin :- GetSourcesPath(d, app, pod);
    RecordedOr(bin, RelStartScriptFile(app), AbsStartScriptFile(app))
  }

  /** `get_logs_dir(app, pod_name)`. */
  function GetLogsDir(d: Deployments, app: string, pod: string): (r: Result<string>)
    reads d
    ensures GetSourcesPath(d, app, pod) == Ok(None) ==> r == Ok(AbsLogsDir(app))
    ensures var b := GetSourcesPath(d, app, pod);
            b.Ok? && b.value.Some? && b.value.value.VStr? && b.value.value.s != [] ==>
              r == Ok(PathJoin(b.value.value.s, RelLogsDir(app)))
  {
    var bin :- GetSourcesPath(d, app, pod);
    RecordedOr(bin, RelLogsDir(app), AbsLogsDir(app))
  }

  /** The log file name: '.log' is appended iff the name has no '.'. */
  function LogFileName(logfile: string): (r: string)
    ensures HasChar(r, '.')
    ensures HasChar(logfile, '.') <==> r == logfile
    ensures !HasChar(logfile, '.') ==> r == logfile + ".log"
  {
    if !HasChar(logfile, '.') then
      assert (logfile + ".log")[|logfile|] == '.';
      logfile + ".log"
    else logfile
  }

  /** `get_logs_file(app, pod_name, logfile)`. */
  function GetLogsFile(d: Deployments, app: string, pod: string, logfile: string): (r: Result<string>)
    reads d
    ensures r.Ok? <==> GetLogsDir(d, app, pod).Ok?
    ensures r.Ok? ==> r.value == PathJoin(GetLogsDir(d, app, pod).value, LogFileName(logfile))
  {
    var dir :- GetLogsDir(d, app, pod);
    Ok(PathJoin(dir, LogFileName(logfile)))
  }
}
