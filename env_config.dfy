/**
 * Building a deployment's environment config (scripts/utils/one_env_dir/
 * env_config.py): the template's defaults, overlaid by the user's config
 * file, overlaid in turn by the command-line arguments. Loading the YAML
 * files and dumping the result are left to the caller: the loaded values
 * are parameters, and the result is the dict that is dumped and the path it
 * goes to.
 */
module EnvConfig {
  import opened Util
  import opened Paths
  import opened Yaml

  /**
   * The keyword arguments of `coalesce`. An absent string argument is the
   * empty string: the code only tests them for truthiness.
   */
  datatype Args = Args(
    scenario: string,
    sources: bool,
    packages: bool,
    onezoneImage: string,
    oneproviderImage: string,
    oneclientImage: string,
    restCliImage: string,
    lumaImage: string,
    noPull: bool)

  /** The config keys the arguments may set. */
  const ARG_KEYS: set<string> :=
    {"scenario", "sources", "onezoneImage", "oneproviderImage", "oneclientImage",
     "onedataCliImage", "lumaImage", "forceImagePull"}

  /**
   * What the arguments force `key` to, if anything. `packages` is applied
   * after `sources`, so it wins when both are set.
   */
  function Override(a: Args, key: string): (r: Option<Value>)
    ensures r.Some? ==> key in ARG_KEYS
  {
    if key == "scenario" && a.scenario != [] then Some(VStr(a.scenario))
    else if key == "sources" && a.packages then Some(VBool(false))
    else if key == "sources" && a.sources then Some(VBool(true))
    else if key == "onezoneImage" && a.onezoneImage != [] then Some(VStr(a.onezoneImage))
    else if key == "oneproviderImage" && a.oneproviderImage != [] then Some(VStr(a.oneproviderImage))
    else if key == "oneclientImage" && a.oneclientImage != [] then Some(VStr(a.oneclientImage))
    else if key == "onedataCliImage" && a.restCliImage != [] then Some(VStr(a.restCliImage))
    else if key == "lumaImage" && a.lumaImage != [] then Some(VStr(a.lumaImage))
    else if key == "forceImagePull" && a.noPull then Some(VBool(false))
    else None
  }

  /**
   * `{**default_config, **custom_config}`: a TypeError unless both are
   * mappings; a key of the custom config overrides the default.
   */
  function Merge(default: Value, custom: Value): (r: Result<map<string, Value>>)
    ensures r.Ok? <==> default.VDict? && custom.VDict?
    ensures r.Ok? ==> r.value.Keys == default.fields.Keys + custom.fields.Keys
    ensures r.Ok? ==> forall k :: k in custom.fields ==> r.value[k] == custom.fields[k]
    ensures r.Ok? ==> forall k :: k in default.fields && k !in custom.fields ==> r.value[k] == default.fields[k]
  {
    if default.VDict? && custom.VDict? then Ok(default.fields + custom.fields) else Fail(TypeError)
  }

  /** The config `coalesce` dumps, key by key. */
  function Coalesced(default: Value, custom: Value, a: Args): Result<map<string, Value>>
  {
    var merged :- Merge(default, custom);
    var forced := set k | k in ARG_KEYS && Override(a, k).Some?;
    Ok(map k | k in merged.Keys + forced :: if Override(a, k).Some? then Override(a, k).value else merged[k])
  }

  /** The file the config is dumped to. */
  function EnvConfigPath(deploymentDir: string): string
  {
    PathJoin(deploymentDir, "env_config.yaml")
  }

  /**
   * `merged` with the arguments applied: the entries the code writes, each
   * under its flag, in the code's order.
   */
  ghost predicate Applied(merged: map<string, Value>, m0: map<string, Value>, a: Args)
  {
    (forall k :: k in merged <==> k in m0 || Override(a, k).Some?) &&
    (forall k :: k in merged ==> merged[k] == if Override(a, k).Some? then Override(a, k).value else m0[k])
  }

  /** The scenario and sources flags, applied in the code's order. */
  method ApplyFlags(m0: map<string, Value>, a: Args) returns (merged: map<string, Value>)
    ensures forall k :: k !in {"scenario", "sources"} ==> (k in merged <==> k in m0) && (k in merged ==> merged[k] == m0[k])
    ensures forall k :: k in {"scenario", "sources"} ==>
              (k in merged <==> k in m0 || Override(a, k).Some?) &&
              (k in merged ==> merged[k] == if Override(a, k).Some? then Override(a, k).value else m0[k])
  {
    merged := m0;
    if a.scenario != [] {
      merged := merged["scenario" := VStr(a.scenario)];
    }
    if a.sources {
      merged := merged["sources" := VBool(true)];
    }
    if a.packages {
      merged := merged["sources" := VBool(false)];
    }
  }

  /** The keys the image arguments and `no_pull` may set. */
  const IMAGE_KEYS: set<string> :=
    {"onezoneImage", "oneproviderImage", "oneclientImage", "onedataCliImage", "lumaImage", "forceImagePull"}

  /** `m` is `m0` with the arguments applied to the keys `keys` and to no other key. */
  ghost predicate AppliedTo(m: map<string, Value>, m0: map<string, Value>, keys: set<string>, a: Args)
  {
    (forall k :: k !in keys ==> (k in m <==> k in m0) && (k in m ==> m[k] == m0[k])) &&
    (forall k :: k in keys ==>
       (k in m <==> k in m0 || Override(a, k).Some?) &&
       (k in m ==> m[k] == if Override(a, k).Some? then Override(a, k).value else m0[k]))
  }

  /** The Onedata service images, applied in the code's order. */
  method ApplyServiceImages(m0: map<string, Value>, a: Args) returns (merged: map<string, Value>)
    ensures AppliedTo(merged, m0, {"onezoneImage", "oneproviderImage", "oneclientImage"}, a)
  {
    OverrideImages(a);
    merged := m0;
    if a.onezoneImage != [] {
      merged := merged["onezoneImage" := VStr(a.onezoneImage)];
    }
    if a.oneproviderImage != [] {
      merged := merged["oneproviderImage" := VStr(a.oneproviderImage)];
    }
    if a.oneclientImage != [] {
      merged := merged["oneclientImage" := VStr(a.oneclientImage)];
    }
  }

  /** The tool images and `no_pull`, applied in the code's order. */
  method ApplyToolImages(m0: map<string, Value>, a: Args) returns (merged: map<string, Value>)
    ensures AppliedTo(merged, m0, {"onedataCliImage", "lumaImage", "forceImagePull"}, a)
  {
    OverrideImages(a);
    merged := m0;
    if a.restCliImage != [] {
      merged := merged["onedataCliImage" := VStr(a.restCliImage)];
    }
    if a.lumaImage != [] {
      merged := merged["lumaImage" := VStr(a.lumaImage)];
    }
    if a.noPull {
      merged := merged["forceImagePull" := VBool(false)];
    }
  }

  /** Applying the arguments to two disjoint sets of keys, one after the other. */
  lemma AppliedCompose(m2: map<string, Value>, m1: map<string, Value>, m0: map<string, Value>,
                       k1: set<string>, k2: set<string>, a: Args)
    requires AppliedTo(m1, m0, k1, a) && AppliedTo(m2, m1, k2, a) && k1 !! k2
    ensures AppliedTo(m2, m0, k1 + k2, a)
  {
  }

  /** The image arguments and `no_pull`, applied in the code's order. */
  method ApplyImages(m0: map<string, Value>, a: Args) returns (merged: map<string, Value>)
    ensures forall k :: k in {"scenario", "sources"} ==> (k in merged <==> k in m0) && (k in merged ==> merged[k] == m0[k])
    ensures forall k :: k !in {"scenario", "sources"} ==>
              (k in merged <==> k in m0 || Override(a, k).Some?) &&
              (k in merged ==> merged[k] == if Override(a, k).Some? then Override(a, k).value else m0[k])
  {
    var services := ApplyServiceImages(m0, a);
    merged := ApplyToolImages(services, a);
    AppliedCompose(merged, services, m0, {"onezoneImage", "oneproviderImage", "oneclientImage"},
                   {"onedataCliImage", "lumaImage", "forceImagePull"}, a);
    assert {"onezoneImage", "oneproviderImage", "oneclientImage"} + {"onedataCliImage", "lumaImage", "forceImagePull"}
        == IMAGE_KEYS;
    ImagesApplied(merged, m0, a);
  }

  /** What the arguments force each image key and `forceImagePull` to. */
  lemma OverrideImages(a: Args)
    ensures Override(a, "onezoneImage") == if a.onezoneImage != [] then Some(VStr(a.onezoneImage)) else None
    ensures Override(a, "oneproviderImage") == if a.oneproviderImage != [] then Some(VStr(a.oneproviderImage)) else None
    ensures Override(a, "oneclientImage") == if a.oneclientImage != [] then Some(VStr(a.oneclientImage)) else None
    ensures Override(a, "onedataCliImage") == if a.restCliImage != [] then Some(VStr(a.restCliImage)) else None
    ensures Override(a, "lumaImage") == if a.lumaImage != [] then Some(VStr(a.lumaImage)) else None
    ensures Override(a, "forceImagePull") == if a.noPull then Some(VBool(false)) else None
  {
  }

  /** Only the image keys are among the keys the arguments force besides the scenario and sources. */
  lemma ImagesApplied(m: map<string, Value>, m0: map<string, Value>, a: Args)
    requires AppliedTo(m, m0, IMAGE_KEYS, a)
    ensures forall k :: k in {"scenario", "sources"} ==> (k in m <==> k in m0) && (k in m ==> m[k] == m0[k])
    ensures forall k :: k !in {"scenario", "sources"} ==>
              (k in m <==> k in m0 || Override(a, k).Some?) &&
              (k in m ==> m[k] == if Override(a, k).Some? then Override(a, k).value else m0[k])
  {
    forall k | k !in {"scenario", "sources"} && k !in IMAGE_KEYS ensures Override(a, k).None? {
    }
  }

  /** The applied arguments are the declared overrides. */
  lemma AppliedIsCoalesced(merged: map<string, Value>, default: Value, custom: Value, a: Args)
    requires Merge(default, custom).Ok? && Applied(merged, Merge(default, custom).value, a)
    ensures Coalesced(default, custom, a) == Ok(merged)
  {
    var m0 := Merge(default, custom).value;
    var c := Coalesced(default, custom, a).value;
    forall k ensures k in c <==> k in merged {
      if Override(a, k).Some? { assert k in ARG_KEYS; }
    }
    assert c == merged;
  }

  /**
   * `custom_config`: the YAML loaded from the user's config file, given as
   * `loaded`, or the empty dict when no path was given.
   */
  function CustomConfig(envConfigPath: string, loaded: Value): (r: Value)
    ensures envConfigPath == [] ==> r == EmptyDict
  {
    if envConfigPath != [] then loaded else EmptyDict
  }

  /**
   * `coalesce(...)`: `default` is the loaded template. Returns where the
   * config goes and what it holds.
   */
  method Coalesce(deploymentDir: string, default: Value, envConfigPath: string, loaded: Value, a: Args)
    returns (r: Result<(string, map<string, Value>)>)
    ensures var custom := CustomConfig(envConfigPath, loaded);
            (r.Fail? <==> Coalesced(default, custom, a).Fail?) &&
            (r.Ok? ==> r.value == (EnvConfigPath(deploymentDir), Coalesced(default, custom, a).value))
  {
    var custom := if envConfigPath != [] then loaded else EmptyDict;
    var m := Merge(default, custom);
    if m.Fail? {
      return Fail(m.error);
    }
    var flagged := ApplyFlags(m.value, a);
    var merged := ApplyImages(flagged, a);
    AppliedIsCoalesced(merged, default, custom, a);
    r := Ok((EnvConfigPath(deploymentDir), merged));
  }

  /**
   * A key no argument forces keeps its merged value: the custom one if the
   * user config has it, else the template's; and it is absent only when
   * both lack it.
   */
  lemma UnforcedKeysKeepMerged(default: Value, custom: Value, a: Args, k: string)
    requires default.VDict? && custom.VDict? && Override(a, k).None?
    ensures var r := Coalesced(default, custom, a);
            r.Ok? &&
            (k in r.value <==> k in default.fields || k in custom.fields) &&
            (k in custom.fields ==> r.value[k] == custom.fields[k]) &&
            (k in default.fields && k !in custom.fields ==> r.value[k] == default.fields[k])
  {
  }

  /** Each forced key holds exactly what its argument says. */
  lemma ForcedKeys(default: Value, custom: Value, a: Args)
    requires default.VDict? && custom.VDict?
    ensures var r := Coalesced(default, custom, a).value;
            (a.scenario != [] ==> r["scenario"] == VStr(a.scenario)) &&
            (a.packages ==> r["sources"] == VBool(false)) &&
            (a.sources && !a.packages ==> r["sources"] == VBool(true)) &&
            (a.onezoneImage != [] ==> r["onezoneImage"] == VStr(a.onezoneImage)) &&
            (a.oneproviderImage != [] ==> r["oneproviderImage"] == VStr(a.oneproviderImage)) &&
            (a.oneclientImage != [] ==> r["oneclientImage"] == VStr(a.oneclientImage)) &&
            (a.restCliImage != [] ==> r["onedataCliImage"] == VStr(a.restCliImage)) &&
            (a.lumaImage != [] ==> r["lumaImage"] == VStr(a.lumaImage)) &&
            (a.noPull ==> r["forceImagePull"] == VBool(false))
  {
  }

  /** Without `no_pull`, `forceImagePull` is whatever the merged configs say. */
  lemma PullKeptWithoutNoPull(default: Value, custom: Value, a: Args)
    requires default.VDict? && custom.VDict? && !a.noPull
    ensures var r := Coalesced(default, custom, a).value;
            var merged := default.fields + custom.fields;
            ("forceImagePull" in r <==> "forceImagePull" in merged) &&
            ("forceImagePull" in merged ==> r["forceImagePull"] == merged["forceImagePull"])
  {
    assert Override(a, "forceImagePull").None?;
  }

  /** Coalescing the result again with the same arguments and no user config changes nothing. */
  lemma CoalesceIdempotent(default: Value, custom: Value, a: Args)
    requires Coalesced(default, custom, a).Ok?
    ensures Coalesced(VDict(Coalesced(default, custom, a).value), EmptyDict, a) == Coalesced(default, custom, a)
  {
    var r := Coalesced(default, custom, a).value;
    assert Merge(VDict(r), EmptyDict) == Ok(r) by {
      assert r + map[] == r;
    }
    var r2 := Coalesced(VDict(r), EmptyDict, a).value;
    forall k ensures k in r2 <==> k in r {
      if Override(a, k).Some? { assert k in ARG_KEYS; }
    }
    assert r2 == r;
  }
}
