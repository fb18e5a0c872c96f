/**
 * The record of the current deployment, a YAML document kept in
 * `deployment_data.yml` inside the deployment's directory: read with a
 * fallback and updated by a shallow, right-biased merge.
 */
module DeploymentData {
  import opened Util
  import opened Paths
  import opened Yaml
  import opened DeploymentsDir

  const DATA_FILE: string := "deployment_data.yml"

  /** The names deployment_data.py binds at module level: its dunder strings, its imports and its functions. */
  const MODULE_NAMES: set<string> :=
    {"__author__", "__copyright__", "__license__", "os", "Any", "Dict", "deployments_dir", "load_yaml", "dump_yaml",
     "get_current_deployment_data_path", "get", "put"}

  /** `deployment_data.<name>`: looking a name up on the module raises AttributeError unless the module binds it. */
  function Attribute(name: string): (r: Option<Error>)
    ensures r.None? <==> name in MODULE_NAMES
    ensures r.Some? ==> r.value == AttributeError
  {
    if name in MODULE_NAMES then None else Some(AttributeError)
  }

  /**
   * The module binds `get` and `put` but none of the three recording
   * helpers the deployment scripts call on it.
   */
  lemma RecordingHelpersUnbound()
    ensures Attribute("get").None? && Attribute("put").None?
    ensures Attribute("add_source") == Attribute("add_oneclient_deployment") == Attribute("add_release")
            == Some(AttributeError)
  {
  }

  /** `get_current_deployment_data_path()`: `<current deployment>/deployment_data.yml`. */
  function DataPath(d: Deployments): (r: Result<string>)
    reads d
    ensures r.Ok? <==> d.CurrentName().Ok?
    ensures r.Ok? ==> r.value == PathJoin(PathJoin(d.path, d.CurrentName().value), DATA_FILE)
  {
    var dir :- d.CurrentDir();
    Ok(PathJoin(dir, DATA_FILE))
  }

  /** The loaded record of deployment `name`, or `default` when it has no record file. */
  function RecordOr(records: map<string, Value>, name: string, default: Value): Value
  {
    if name in records then records[name] else default
  }

  /** `get(default=...)`: the loaded record when the file exists, `default` otherwise. */
  function Get(d: Deployments, default: Value): (r: Result<Value>)
    reads d
    ensures r.Ok? <==> d.CurrentName().Ok?
    ensures r.Ok? && d.CurrentName().value !in d.records ==> r.value == default
    ensures r.Ok? && d.CurrentName().value in d.records ==> r.value == d.records[d.CurrentName().value]
  {
    var name :- d.CurrentName();
    Ok(RecordOr(d.records, name, default))
  }

  /**
   * `{**curr, **new}`: every key of `patch` takes its value from `patch`,
   * every other key of `curr` keeps its value; unpacking anything but a
   * dict is a TypeError.
   */
  function Merge(curr: Value, patch: map<string, Value>): (r: Result<Value>)
    ensures r.Ok? <==> curr.VDict?
    ensures r.Ok? ==> r.value.VDict? && r.value.fields.Keys == curr.fields.Keys + patch.Keys
    ensures r.Ok? ==> forall k :: k in patch ==> r.value.fields[k] == patch[k]
    ensures r.Ok? ==> forall k :: k in curr.fields && k !in patch ==> r.value.fields[k] == curr.fields[k]
  {
    if curr.VDict? then Ok(VDict(curr.fields + patch)) else Fail(TypeError)
  }

  /** The records after `put(patch)` when the current deployment is `current`. */
  function PutOf(records: map<string, Value>, current: Result<string>, patch: map<string, Value>): (r: Result<map<string, Value>>)
    ensures current.Fail? ==> r == Fail(current.error)
    ensures current.Ok? ==> (r.Ok? <==> RecordOr(records, current.value, EmptyDict).VDict?)
    ensures r.Ok? ==> r.value.Keys == records.Keys + {current.value}
    ensures r.Ok? ==> r.value[current.value] == Merge(RecordOr(records, current.value, EmptyDict), patch).value
    ensures r.Ok? ==> forall k :: k in records && k != current.value ==> r.value[k] == records[k]
  {
    var name :- current;
    var merged :- Merge(RecordOr(records, name, EmptyDict), patch);
    Ok(records[name := merged])
  }

  /**
   * `put(new_data)`: reads the current record (an empty dict when there is
   * none), merges `patch` over it and writes the result back; no other
   * deployment's record changes.
   */
  method Put(d: Deployments, patch: map<string, Value>) returns (r: Result<()>)
    requires d.Valid()
    modifies d
    ensures d.Valid() && d.present == old(d.present) && d.names == old(d.names)
    ensures var p := PutOf(old(d.records), old(d.CurrentName()), patch);
            (p.Ok? ==> r == Ok(()) && d.records == p.value)
            && (p.Fail? ==> r == Fail(p.error) && d.records == old(d.records))
  {
    var curr :- Get(d, EmptyDict);
    var merged :- Merge(curr, patch);
    d.records := d.records[d.CurrentName().value := merged];
    r := Ok(());
  }

  /** Putting the same patch twice is putting it once. */
  lemma PutTwice(records: map<string, Value>, current: Result<string>, patch: map<string, Value>)
    requires PutOf(records, current, patch).Ok?
    ensures PutOf(PutOf(records, current, patch).value, current, patch) == PutOf(records, current, patch)
  {
    var name := current.value;
    var once := PutOf(records, current, patch).value;
    var m := Merge(RecordOr(records, name, EmptyDict), patch).value;
    assert once[name] == m;
    assert m.fields + patch == m.fields;
    assert once[name := VDict(m.fields + patch)] == once;
  }

  /**
   * Two puts in a row are one put of the second patch merged over the
   * first: a key of the second patch wins, a key only in the first keeps
   * the first's value.
   */
  lemma PutThenPut(records: map<string, Value>, current: Result<string>, first: map<string, Value>,
                   second: map<string, Value>)
    requires PutOf(records, current, first).Ok?
    ensures PutOf(PutOf(records, current, first).value, current, second) == PutOf(records, current, first + second)
  {
    var name := current.value;
    var once := PutOf(records, current, first).value;
    var curr := RecordOr(records, name, EmptyDict);
    assert once[name] == VDict(curr.fields + first);
    assert curr.fields + first + second == curr.fields + (first + second);
    assert once[name := VDict(curr.fields + (first + second))] == records[name := VDict(curr.fields + (first + second))];
  }

  /**
   * On a deployment without a record file, puts of patches with no key in
   * common leave a record holding both patches' keys and values.
   */
  lemma PutFresh(records: map<string, Value>, name: string, first: map<string, Value>, second: map<string, Value>)
    requires name !in records && first.Keys !! second.Keys
    ensures var once := PutOf(records, Ok(name), first);
            once.Ok? && var twice := PutOf(once.value, Ok(name), second);
            twice.Ok? && twice.value.Keys == records.Keys + {name} && twice.value[name].VDict?
            && twice.value[name].fields.Keys == first.Keys + second.Keys
            && (forall k :: k in first ==> twice.value[name].fields[k] == first[k])
            && (forall k :: k in second ==> twice.value[name].fields[k] == second[k])
  {
    PutThenPut(records, Ok(name), first, second);
  }
}
