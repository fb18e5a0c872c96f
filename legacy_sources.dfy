/**
 * The earlier revision of source location kept in `scripts/sources.py`:
 * candidates under the working directory and its parent only, and the
 * location stored into the deployment record directly, as
 * `record['sources'][pod][app]`. The record is the loaded
 * `deployment_data.yml` of that revision (an empty dict when the file is
 * missing).
 */
module LegacySources {
  import opened Util
  import opened Paths
  import opened Yaml
  import opened NamesAndPaths
  import opened DeploymentData
  import opened SourcesPaths

  /** `release_dirs_to_check(app)`: as in the current revision, without oneclient. */
  function LegacyReleaseDirs(app: string): seq<string>
  {
    if app == APP_OZ_PANEL then ["oz-panel", "oz_panel", "onepanel"]
    else if app == APP_ONEZONE then ["oz-worker", "oz_worker"]
    else if app == APP_OP_PANEL then ["op-panel", "op_panel", "onepanel"]
    else if app == APP_ONEPROVIDER then ["op-worker", "op_worker"]
    else if app == APP_CLUSTER_MANAGER then ["cluster-manager", "cluster_manager"]
    else []
  }

  /** `paths_to_check`: every directory name under the working directory, then under its parent. */
  function LegacyCandidates(cwd: string, dirs: seq<string>): (r: seq<string>)
    ensures |r| == 2 * |dirs|
    ensures forall i :: 0 <= i < |dirs| ==>
              r[i] == PathJoin(cwd, dirs[i]) && r[|dirs| + i] == PathJoin(PathJoin(cwd, "../"), dirs[i])
  {
    JoinEach(cwd, dirs) + JoinEach(PathJoin(cwd, "../"), dirs)
  }

  /**
   * Lines 64-69: `'sources'` and `['sources'][pod]` are created as empty
   * dicts when missing, then `['sources'][pod][app]` is set. A non-dict on
   * the way is a TypeError.
   */
  function AddSourceEntry(data: Value, pod: string, app: string, location: string): (r: Result<Value>)
  {
    var d1 :- if data.VDict? && "sources" in data.fields then Ok(data) else SetKey(data, "sources", EmptyDict);
    var sources :- Lookup(d1, "sources");
    var d2 :- if sources.VDict? && pod in sources.fields then Ok(d1) else SetPath(d1, ["sources", pod], EmptyDict);
    SetPath(d2, ["sources", pod, app], VStr(location))
  }

  /** Whether every level the update walks through is a dict. */
  predicate Writable(data: Value, pod: string)
  {
    data.VDict?
    && ("sources" in data.fields ==> data.fields["sources"].VDict?)
    && ("sources" in data.fields && pod in data.fields["sources"].fields ==> data.fields["sources"].fields[pod].VDict?)
  }

  /** `v[a][b] = x` on dicts. */
  lemma SetPath2(v: Value, a: string, b: string, x: Value)
    requires v.VDict? && a in v.fields && v.fields[a].VDict?
    ensures SetPath(v, [a, b], x) == Ok(VDict(v.fields[a := VDict(v.fields[a].fields[b := x])]))
  {
    assert [a, b][1..] == [b];
  }

  /** `v[a][b][c] = x` on dicts. */
  lemma SetPath3(v: Value, a: string, b: string, c: string, x: Value)
    requires v.VDict? && a in v.fields && v.fields[a].VDict?
    requires b in v.fields[a].fields && v.fields[a].fields[b].VDict?
    ensures var s := v.fields[a];
            SetPath(v, [a, b, c], x) == Ok(VDict(v.fields[a := VDict(s.fields[b := VDict(s.fields[b].fields[c := x])])]))
  {
    assert [a, b, c][1..] == [b, c];
    SetPath2(v.fields[a], b, c, x);
  }

  /** On a record whose levels are dicts, the update is the record with `[sources][pod][app]` set. */
  lemma AddSourceEntryValue(data: Value, pod: string, app: string, location: string)
    requires Writable(data, pod)
    ensures var s := if "sources" in data.fields then data.fields["sources"] else EmptyDict;
            var e := if pod in s.fields then s.fields[pod] else EmptyDict;
            AddSourceEntry(data, pod, app, location)
              == Ok(VDict(data.fields["sources" := VDict(s.fields[pod := VDict(e.fields[app := VStr(location)])])]))
  {
    var s := if "sources" in data.fields then data.fields["sources"] else EmptyDict;
    var e := if pod in s.fields then s.fields[pod] else EmptyDict;
    var d1 := if "sources" in data.fields then data else VDict(data.fields["sources" := EmptyDict]);
    assert d1.fields["sources"] == s;
    var d2 := if pod in s.fields then d1 else VDict(d1.fields["sources" := VDict(s.fields[pod := EmptyDict])]);
    if pod !in s.fields {
      SetPath2(d1, "sources", pod, EmptyDict);
    }
    assert d2.fields["sources"].fields[pod] == e;
    assert (if data.VDict? && "sources" in data.fields then Ok(data) else SetKey(data, "sources", EmptyDict)) == Ok(d1);
    assert Lookup(d1, "sources") == Ok(s);
    assert (if s.VDict? && pod in s.fields then Ok(d1) else SetPath(d1, ["sources", pod], EmptyDict)) == Ok(d2);
    assert AddSourceEntry(data, pod, app, location) == SetPath(d2, ["sources", pod, app], VStr(location));
    SetPath3(d2, "sources", pod, app, VStr(location));
    var e' := VDict(e.fields[app := VStr(location)]);
    assert d2.fields["sources"].fields[pod := e'] == s.fields[pod := e'];
    assert d2.fields["sources" := VDict(s.fields[pod := VDict(e.fields[app := VStr(location)])])]
        == data.fields["sources" := VDict(s.fields[pod := VDict(e.fields[app := VStr(location)])])];
  }

  /**
   * The update succeeds exactly on a record whose levels are dicts; it
   * sets `[sources][pod][app]` and leaves every other top-level key, every
   * other pod and every other app of that pod as they were.
   */
  lemma AddSourceEntryEffect(data: Value, pod: string, app: string, location: string)
    ensures var r := AddSourceEntry(data, pod, app, location);
            (r.Ok? <==> Writable(data, pod))
            && (r.Ok? ==> GetPath(r.value, ["sources", pod, app]) == Ok(VStr(location)))
            && (r.Ok? ==> r.value.VDict? && r.value.fields.Keys == data.fields.Keys + {"sources"}
                          && forall k :: k in data.fields && k != "sources" ==> r.value.fields[k] == data.fields[k])
  {
    var p3: seq<string> := ["sources", pod, app];
    assert p3[1..] == [pod, app] && p3[1..][1..] == [app];
    var p2: seq<string> := ["sources", pod];
    assert p2[1..] == [pod];
    if Writable(data, pod) {
      AddSourceEntryValue(data, pod, app, location);
      var s := if "sources" in data.fields then data.fields["sources"] else EmptyDict;
      var e := if pod in s.fields then s.fields[pod] else EmptyDict;
      var e' := VDict(e.fields[app := VStr(location)]);
      var s' := VDict(s.fields[pod := e']);
      var r := VDict(data.fields["sources" := s']);
      assert GetPath(e', [app]) == Ok(VStr(location)) by {
        assert [app][1..] == [];
      }
      assert GetPath(s', [pod, app]) == GetPath(e', [app]);
      assert GetPath(r, p3) == GetPath(s', [pod, app]);
    } else if data.VDict? && "sources" in data.fields && data.fields["sources"].VDict? {
      var s := data.fields["sources"];
      var e := s.fields[pod];
      assert AddSourceEntry(data, pod, app, location) == SetPath(data, p3, VStr(location));
      assert SetPath(e, [app], VStr(location)).Fail?;
      assert SetPath(s, [pod, app], VStr(location)).Fail?;
      assert Lookup(data, "sources") == Ok(s);
      assert SetPath(data, p3, VStr(location)).Fail?;
    } else if data.VDict? && "sources" in data.fields {
      var s := data.fields["sources"];
      assert Lookup(data, "sources") == Ok(s);
      assert SetPath(data, p2, EmptyDict).Fail?;
    }
  }

  /**
   * Every other pod and app reads back as before the update: recorded
   * locations stay, and nothing else becomes recorded.
   */
  lemma AddSourceEntryFrame(data: Value, pod: string, app: string, location: string, q: string, b: string)
    requires AddSourceEntry(data, pod, app, location).Ok?
    requires q != pod || b != app
    ensures LegacySourcesPath(AddSourceEntry(data, pod, app, location).value, q, b) == LegacySourcesPath(data, q, b)
  {
    AddSourceEntryEffect(data, pod, app, location);
    AddSourceEntryValue(data, pod, app, location);
    GetPath3(data, "sources", q, b);
    GetPath3(AddSourceEntry(data, pod, app, location).value, "sources", q, b);
  }

  /**
   * `put(data)` of this revision merges `data` over the stored record;
   * since the update only adds keys, the merge writes the updated record
   * itself.
   */
  lemma PutOfUpdatedRecord(data: Value, pod: string, app: string, location: string)
    requires AddSourceEntry(data, pod, app, location).Ok?
    ensures Merge(data, AddSourceEntry(data, pod, app, location).value.fields) == AddSourceEntry(data, pod, app, location)
  {
    AddSourceEntryEffect(data, pod, app, location);
    var u := AddSourceEntry(data, pod, app, location).value;
    assert data.fields + u.fields == u.fields;
  }

  /**
   * `locate(app, service, node_name)`: the normalized first candidate
   * directory, checked to hold the release directory; only then is the
   * location stored in the record under the generated pod name.
   */
  function LocateOf(app: string, service: string, nodeName: string, release: string, cwd: string,
                    isdir: string -> bool, data: Value): (r: Result<(string, Value)>)
    ensures var c := LegacyCandidates(cwd, LegacyReleaseDirs(app));
            FirstWhere(c, isdir).None? ==> r == Fail(Exit(1))
    ensures r.Ok? ==> var c := LegacyCandidates(cwd, LegacyReleaseDirs(app));
                      FirstWhere(c, isdir).Some? && r.value.0 == NormPath(c[FirstWhere(c, isdir).value])
                      && isdir(PathJoin(r.value.0, RelSourcesDir(app)))
  {
    var c := LegacyCandidates(cwd, LegacyReleaseDirs(app));
    match FirstWhere(c, isdir)
    case None => Fail(Exit(1))
    case Some(i) =>
      var location := NormPath(c[i]);
      var pod :- GenPodName(release, service, nodeName);
      if !isdir(PathJoin(location, RelSourcesDir(app))) then Fail(Exit(1))
      else
        var updated :- AddSourceEntry(data, pod, app, location);
        Ok((location, updated))
  }

  /** `locate`, with its for/break search and its in-place updates of the loaded record. */
  method Locate(app: string, service: string, nodeName: string, release: string, cwd: string,
                isdir: string -> bool, record: Doc) returns (r: Result<string>)
    modifies record
    ensures var l := LocateOf(app, service, nodeName, release, cwd, isdir, old(record.root));
            (l.Ok? ==> r == Ok(l.value.0) && record.root == l.value.1)
            && (l.Fail? ==> r == Fail(l.error) && record.root == old(record.root))
  {
    var paths := LegacyCandidates(cwd, LegacyReleaseDirs(app));
    var found := FindFirst(paths, isdir);
    if found.None? {
      return Fail(Exit(1));
    }
    var location := NormPath(paths[found.value]);
    var pod :- GenPodName(release, service, nodeName);
    if !isdir(PathJoin(location, RelSourcesDir(app))) {
      return Fail(Exit(1));
    }
    var updated :- AddSourceEntry(record.root, pod, app, location);
    PutOfUpdatedRecord(record.root, pod, app, location);
    var merged := Merge(record.root, updated.fields).value;
    record.root := merged;
    r := Ok(location);
  }

  /**
   * `get_sources_path(app, pod_name)` of this revision: any failure on the
   * way reads as "not recorded".
   */
  function LegacySourcesPath(data: Value, pod: string, app: string): (r: Option<Value>)
    ensures r.Some? <==> GetPath(data, ["sources", pod, app]).Ok?
    ensures r.Some? ==> r.value == GetPath(data, ["sources", pod, app]).value
  {
    match GetPath(data, ["sources", pod, app])
    case Ok(v) => Some(v)
    case Fail(_) => None
  }

  /** `start_script_path(app, pod_name)`. */
  function LegacyStartScriptPath(data: Value, pod: string, app: string): (r: Result<string>)
    ensures LegacySourcesPath(data, pod, app).None? ==> r == Ok(AbsStartScriptFile(app))
    ensures var b := LegacySourcesPath(data, pod, app);
            b.Some? && b.value.VStr? && b.value.s != [] ==> r == Ok(PathJoin(b.value.s, RelStartScriptFile(app)))
  {
    RecordedOr(LegacySourcesPath(data, pod, app), RelStartScriptFile(app), AbsStartScriptFile(app))
  }

  /** `logs_dir(app, pod_name)`. */
  function LegacyLogsDir(data: Value, pod: string, app: string): (r: Result<string>)
    ensures LegacySourcesPath(data, pod, app).None? ==> r == Ok(AbsLogsDir(app))
    ensures var b := LegacySourcesPath(data, pod, app);
            b.Some? && b.value.VStr? && b.value.s != [] ==> r == Ok(PathJoin(b.value.s, RelLogsDir(app)))
  {
    RecordedOr(LegacySourcesPath(data, pod, app), RelLogsDir(app), AbsLogsDir(app))
  }

  /** `logs_file(app, pod_name, logfile)`. */
  function LegacyLogsFile(data: Value, pod: string, app: string, logfile: string): (r: Result<string>)
    ensures r.Ok? <==> LegacyLogsDir(data, pod, app).Ok?
    ensures r.Ok? ==> r.value == PathJoin(LegacyLogsDir(data, pod, app).value, LogFileName(logfile))
  {
    var dir :- LegacyLogsDir(data, pod, app);
    Ok(PathJoin(dir, LogFileName(logfile)))
  }

  /** A normalized path is never empty. */
  lemma NormPathNonEmpty(p: string)
    ensures NormPath(p) != []
  {
  }

  /**
   * What `locate` stores is what the path helpers read back: the start
   * script and the log directory of that pod and app are then under the
   * located tree, no longer the package-mode defaults.
   */
  lemma LocateThenLookup(app: string, service: string, nodeName: string, release: string, cwd: string,
                         isdir: string -> bool, data: Value, pod: string)
    requires LocateOf(app, service, nodeName, release, cwd, isdir, data).Ok?
    requires GenPodName(release, service, nodeName) == Ok(pod)
    ensures var l := LocateOf(app, service, nodeName, release, cwd, isdir, data).value;
            LegacySourcesPath(l.1, pod, app) == Some(VStr(l.0))
            && LegacyStartScriptPath(l.1, pod, app) == Ok(PathJoin(l.0, RelStartScriptFile(app)))
            && LegacyLogsDir(l.1, pod, app) == Ok(PathJoin(l.0, RelLogsDir(app)))
  {
    var l := LocateOf(app, service, nodeName, release, cwd, isdir, data).value;
    AddSourceEntryEffect(data, pod, app, l.0);
    assert AddSourceEntry(data, pod, app, l.0) == Ok(l.1);
    var c := LegacyCandidates(cwd, LegacyReleaseDirs(app));
    NormPathNonEmpty(c[FirstWhere(c, isdir).value]);
  }

  /**
   * `add_source(pod, app, location)`, which sources_paths.py:105 and
   * sources.py:142 call but deployment_data.py does not define, taken to
   * be this update of the record: the location `locate_oz_op` finds is
   * then what `get_sources_path` of the current revision reads back for
   * that pod and app.
   */
  lemma LocateOzOpThenLookup(app: string, pod: string, cwd: string, isdir: string -> bool, data: Value)
    requires LocateOzOp(app, pod, cwd, isdir).Ok?
    requires Writable(data, pod)
    ensures var l := LocateOzOp(app, pod, cwd, isdir).value;
            var u := AddSourceEntry(data, pod, app, l.location);
            u.Ok? && SourcesEntry(u.value, pod, app) == Ok(Some(VStr(l.location)))
            && RecordedOr(Some(VStr(l.location)), RelStartScriptFile(app), AbsStartScriptFile(app))
               == Ok(PathJoin(l.location, RelStartScriptFile(app)))
  {
    var l := LocateOzOp(app, pod, cwd, isdir).value;
    AddSourceEntryEffect(data, pod, app, l.location);
    var c := Candidates(cwd, ReleaseDirsToCheck(app));
    NormPathNonEmpty(c[FirstWhere(c, isdir).value]);
  }

  /** `add_source(pod, app, p)` for each path `p` in turn, as the client worker at sources.py:139-143 calls it. */
  function StorePaths(data: Value, pod: string, app: string, paths: seq<string>): (r: Result<Value>)
    decreases |paths|
  {
    if paths == [] then Ok(data)
    else
      var d :- StorePaths(data, pod, app, paths[..|paths| - 1]);
      AddSourceEntry(d, pod, app, paths[|paths| - 1])
  }

  /** An update leaves the levels of its pod dicts, ready for the next one. */
  lemma AddSourceEntryWritable(data: Value, pod: string, app: string, location: string)
    requires Writable(data, pod)
    ensures AddSourceEntry(data, pod, app, location).Ok?
    ensures Writable(AddSourceEntry(data, pod, app, location).value, pod)
  {
    AddSourceEntryValue(data, pod, app, location);
  }

  /**
   * Storing several paths under one pod and app, the last one wins: it is
   * what reads back for that pod and app, and every other pod and app
   * reads back as before.
   */
  lemma {:induction false} StorePathsLastWins(data: Value, pod: string, app: string, paths: seq<string>)
    requires paths != [] && Writable(data, pod)
    ensures var r := StorePaths(data, pod, app, paths);
            r.Ok? && Writable(r.value, pod)
            && LegacySourcesPath(r.value, pod, app) == Some(VStr(paths[|paths| - 1]))
            && forall q, b :: q != pod || b != app ==> LegacySourcesPath(r.value, q, b) == LegacySourcesPath(data, q, b)
  {
    var init := paths[..|paths| - 1];
    var last := paths[|paths| - 1];
    if init != [] {
      StorePathsLastWins(data, pod, app, init);
    }
    var d := if init == [] then data else StorePaths(data, pod, app, init).value;
    assert StorePaths(data, pod, app, init) == Ok(d);
    AddSourceEntryWritable(d, pod, app, last);
    AddSourceEntryEffect(d, pod, app, last);
    forall q, b | q != pod || b != app
      ensures LegacySourcesPath(AddSourceEntry(d, pod, app, last).value, q, b) == LegacySourcesPath(data, q, b)
    {
      AddSourceEntryFrame(d, pod, app, last, q, b);
    }
  }
}
