/**
 * Patching a running deployment with the cross-support job
 * (scripts/onenv_patch.py): the landscape is rewritten in place so that the
 * job runs against the current release with the 3p deployment disabled and
 * an admin account present; the patch release is named after the deployment
 * release, and the old jobs are found by their label.
 *
 * The landscape is the loaded YAML document, updated in place through a
 * `Yaml.Doc`. Python's aliasing is written out: `d.get(k, {})` hands back
 * the very dict stored under `k` when there is one, so an update to it is
 * already visible in the landscape before it is stored back.
 */
module Patch {
  import opened Util
  import opened Yaml
  import opened NamesAndPaths

  const GLOBAL: string := "global"
  const RELEASE_NAME_OVERRIDE: string := "releaseNameOverride"
  const ENABLED: string := "enabled"
  const ONEZONE: string := "onezone"
  const ONEZONE_ADMIN: string := "onezoneAdmin"

  // ---------------------------------------------------------------------------
  // Release name and job label

  /** `app=<release>-cross-support-job-3p`: the label of a release's support jobs. */
  function SupportJobLabel(releaseName: string): (r: string)
    ensures r == "app=" + releaseName + "-cross-support-job-3p"
  {
    "app=" + releaseName + "-" + CROSS_SUPPORT_JOB
  }

  /** Two releases never share a support-job label. */
  lemma SupportJobLabelInjective(a: string, b: string)
    requires SupportJobLabel(a) == SupportJobLabel(b)
    ensures a == b
  {
    var la := SupportJobLabel(a);
    var lb := SupportJobLabel(b);
    assert |a| == |b|;
    forall i | 0 <= i < |a| ensures a[i] == b[i] {
      assert la[4 + i] == a[i];
      assert lb[4 + i] == b[i];
    }
  }

  /** The patch release: the one given, else `patch-<deployment release>`. */
  function PatchReleaseName(given: string, deploymentRelease: string): (r: string)
    ensures given != [] ==> r == given
    ensures given == [] ==> r == "patch-" + deploymentRelease
  {
    if given != [] then given else "patch-" + deploymentRelease
  }

  /**
   * The defaulted patch release is never the deployment's own release, so
   * cleaning it up cannot delete the deployment being patched.
   */
  lemma DefaultPatchReleaseIsNotDeployment(deploymentRelease: string)
    ensures PatchReleaseName([], deploymentRelease) != deploymentRelease
    ensures StartsWith(PatchReleaseName([], deploymentRelease), "patch-")
  {
    var r := PatchReleaseName([], deploymentRelease);
    assert |r| == |deploymentRelease| + 6;
    assert r[..6] == "patch-";
  }

  // ---------------------------------------------------------------------------
  // parse_global_conf

  /**
   * The landscape after `parse_global_conf`: `global.releaseNameOverride`
   * set. `.get` on a non-dict landscape is an AttributeError; storing into
   * a `global` that is not a dict (an empty `global:` loads as None) is a
   * TypeError. Nothing is changed before either error.
   */
  function GlobalConf(landscape: Value, releaseName: string): (r: Result<Value>)
  {
    var global :- GetOr(landscape, GLOBAL, EmptyDict);
    if !global.VDict? then Fail(TypeError)
    else Ok(VDict(landscape.fields[GLOBAL := VDict(global.fields[RELEASE_NAME_OVERRIDE := VStr(releaseName)])]))
  }

  /** `parse_global_conf(landscape, release_name)`, on the loaded document. */
  method ParseGlobalConf(landscape: Doc, releaseName: string) returns (r: Result<()>)
    modifies landscape
    ensures GlobalConf(old(landscape.root), releaseName).Ok? ==>
              r == Ok(()) && landscape.root == GlobalConf(old(landscape.root), releaseName).value
    ensures GlobalConf(old(landscape.root), releaseName).Fail? ==>
              r == Fail(GlobalConf(old(landscape.root), releaseName).error) && landscape.root == old(landscape.root)
  {
    if !landscape.root.VDict? {
      return Fail(AttributeError);
    }
    var global := if GLOBAL in landscape.root.fields then landscape.root.fields[GLOBAL] else EmptyDict;
    if !global.VDict? {
      return Fail(TypeError);
    }
    global := VDict(global.fields[RELEASE_NAME_OVERRIDE := VStr(releaseName)]);
    landscape.root := VDict(landscape.root.fields[GLOBAL := global]);
    r := Ok(());
  }

  /**
   * It fails exactly on a non-dict landscape or a non-dict `global`; on
   * success the override holds the release name, every other key of an
   * existing `global` and every other top-level key is kept, and a missing
   * `global` becomes one holding only the override.
   */
  lemma GlobalConfEffect(landscape: Value, releaseName: string)
    ensures GlobalConf(landscape, releaseName).Ok? <==>
              landscape.VDict? && (GLOBAL !in landscape.fields || landscape.fields[GLOBAL].VDict?)
    ensures !landscape.VDict? ==> GlobalConf(landscape, releaseName) == Fail(AttributeError)
    ensures var r := GlobalConf(landscape, releaseName);
            r.Ok? ==>
              GetPath(r.value, [GLOBAL, RELEASE_NAME_OVERRIDE]) == Ok(VStr(releaseName)) &&
              r.value.fields.Keys == landscape.fields.Keys + {GLOBAL} &&
              (forall k :: k in landscape.fields && k != GLOBAL ==> r.value.fields[k] == landscape.fields[k]) &&
              (GLOBAL in landscape.fields ==>
                 forall k :: k != RELEASE_NAME_OVERRIDE ==> GetPath(r.value, [GLOBAL, k]) == GetPath(landscape, [GLOBAL, k])) &&
              (GLOBAL !in landscape.fields ==>
                 r.value.fields[GLOBAL] == VDict(map[RELEASE_NAME_OVERRIDE := VStr(releaseName)]))
  {
    var r := GlobalConf(landscape, releaseName);
    if r.Ok? {
      GetPath2(r.value, GLOBAL, RELEASE_NAME_OVERRIDE);
      if GLOBAL in landscape.fields {
        forall k | k != RELEASE_NAME_OVERRIDE
          ensures GetPath(r.value, [GLOBAL, k]) == GetPath(landscape, [GLOBAL, k])
        {
          GetPath2(r.value, GLOBAL, k);
          GetPath2(landscape, GLOBAL, k);
          if GetPath(landscape, [GLOBAL, k]).Fail? {
            assert [GLOBAL, k][1..] == [k];
            assert GetPath(r.value, [GLOBAL, k]) == GetPath(r.value.fields[GLOBAL], [k]);
            assert GetPath(landscape, [GLOBAL, k]) == GetPath(landscape.fields[GLOBAL], [k]);
          }
        }
      }
    }
  }

  /** Setting the override a second time with the same name changes nothing. */
  lemma GlobalConfIdempotent(landscape: Value, releaseName: string)
    requires GlobalConf(landscape, releaseName).Ok?
    ensures GlobalConf(GlobalConf(landscape, releaseName).value, releaseName) == GlobalConf(landscape, releaseName)
  {
    var r := GlobalConf(landscape, releaseName).value;
    var g := r.fields[GLOBAL];
    assert g.fields[RELEASE_NAME_OVERRIDE := VStr(releaseName)] == g.fields;
    assert r.fields[GLOBAL := g] == r.fields;
  }

  // ---------------------------------------------------------------------------
  // parse_onedata3p_conf

  /** The admin entry built from the `--admin username password` pair. */
  function AdminEntry(username: string, password: string): (r: Value)
    ensures Truthy(r)
  {
    assert "name" in map["name" := VStr(username), "password" := VStr(password)];
    VDict(map["name" := VStr(username), "password" := VStr(password)])
  }

  /**
   * The onezone section after its admin check: the credentials are stored
   * unless `onezoneAdmin` is already there and truthy.
   */
  function WithAdmin(onezone: map<string, Value>, username: string, password: string): map<string, Value>
  {
    if ONEZONE_ADMIN in onezone && Truthy(onezone[ONEZONE_ADMIN]) then onezone
    else onezone[ONEZONE_ADMIN := AdminEntry(username, password)]
  }

  /**
   * The landscape after `parse_onedata3p_conf`, and how the call ends.
   * `enabled` is stored into the `onedata-3p` dict before the `onezone`
   * section is read, and that dict is the landscape's own when the key is
   * present: a non-dict `onezone` is an AttributeError that leaves
   * `enabled` already set in the landscape.
   */
  function Onedata3pConf(landscape: Value, username: string, password: string): (r: (Value, Result<()>))
  {
    if !landscape.VDict? then (landscape, Fail(AttributeError))
    else
      var conf := if ONEDATA_3P in landscape.fields then landscape.fields[ONEDATA_3P] else EmptyDict;
      if !conf.VDict? then (landscape, Fail(TypeError))
      else
        var conf1 := conf.fields[ENABLED := VBool(false)];
        var landscape1 := if ONEDATA_3P in landscape.fields
                          then VDict(landscape.fields[ONEDATA_3P := VDict(conf1)])
                          else landscape;
        var onezone := if ONEZONE in conf1 then conf1[ONEZONE] else EmptyDict;
        if !onezone.VDict? then (landscape1, Fail(AttributeError))
        else
          var conf2 := conf1[ONEZONE := VDict(WithAdmin(onezone.fields, username, password))];
          (VDict(landscape.fields[ONEDATA_3P := VDict(conf2)]), Ok(()))
  }

  /** `parse_onedata3p_conf(landscape, admin_creds)`, on the loaded document. */
  method ParseOnedata3pConf(landscape: Doc, username: string, password: string) returns (r: Result<()>)
    modifies landscape
    ensures (landscape.root, r) == Onedata3pConf(old(landscape.root), username, password)
  {
    if !landscape.root.VDict? {
      return Fail(AttributeError);
    }
    var present := ONEDATA_3P in landscape.root.fields;
    var conf := if present then landscape.root.fields[ONEDATA_3P] else EmptyDict;
    if !conf.VDict? {
      return Fail(TypeError);
    }
    conf := VDict(conf.fields[ENABLED := VBool(false)]);
    if present {
      landscape.root := VDict(landscape.root.fields[ONEDATA_3P := conf]);
    }
    var onezone := if ONEZONE in conf.fields then conf.fields[ONEZONE] else EmptyDict;
    if !onezone.VDict? {
      assert (landscape.root, Fail(AttributeError)) == Onedata3pConf(old(landscape.root), username, password);
      return Fail(AttributeError);
    }
    if !(ONEZONE_ADMIN in onezone.fields && Truthy(onezone.fields[ONEZONE_ADMIN])) {
      onezone := VDict(onezone.fields[ONEZONE_ADMIN := AdminEntry(username, password)]);
    }
    conf := VDict(conf.fields[ONEZONE := onezone]);
    assert landscape.root.fields[ONEDATA_3P := conf] == old(landscape.root).fields[ONEDATA_3P := conf];
    landscape.root := VDict(landscape.root.fields[ONEDATA_3P := conf]);
    r := Ok(());
  }

  /** The section keys the patch touches are distinct. */
  lemma SectionKeysDistinct()
    ensures ENABLED != ONEZONE && ENABLED != ONEZONE_ADMIN && ONEZONE != ONEZONE_ADMIN
  {
    assert ENABLED[0] != ONEZONE[0];
    assert ENABLED[0] != ONEZONE_ADMIN[0];
    assert |ONEZONE| != |ONEZONE_ADMIN|;
  }

  /**
   * On success `onedata-3p.enabled` is False; `onedata-3p.onezone.onezoneAdmin`
   * holds the given credentials exactly when it was absent or falsy, and is
   * kept otherwise; every other top-level key is kept.
   */
  lemma Onedata3pConfEffect(landscape: Value, username: string, password: string)
    requires Onedata3pConf(landscape, username, password).1.Ok?
    ensures var l := Onedata3pConf(landscape, username, password).0;
            var before := GetPath(landscape, [ONEDATA_3P, ONEZONE, ONEZONE_ADMIN]);
            GetPath(l, [ONEDATA_3P, ENABLED]) == Ok(VBool(false)) &&
            (before.Ok? && Truthy(before.value) ==> GetPath(l, [ONEDATA_3P, ONEZONE, ONEZONE_ADMIN]) == before) &&
            (!(before.Ok? && Truthy(before.value)) ==>
               GetPath(l, [ONEDATA_3P, ONEZONE, ONEZONE_ADMIN]) == Ok(AdminEntry(username, password))) &&
            l.fields.Keys == landscape.fields.Keys + {ONEDATA_3P} &&
            (forall k :: k in landscape.fields && k != ONEDATA_3P ==> l.fields[k] == landscape.fields[k])
  {
    SectionKeysDistinct();
    var l := Onedata3pConf(landscape, username, password).0;
    GetPath2(l, ONEDATA_3P, ENABLED);
    GetPath3(l, ONEDATA_3P, ONEZONE, ONEZONE_ADMIN);
    GetPath3(landscape, ONEDATA_3P, ONEZONE, ONEZONE_ADMIN);
  }

  /**
   * The admin is set at most once: patching an already patched landscape
   * again, with any credentials, changes nothing.
   */
  lemma Onedata3pConfIdempotent(landscape: Value, u1: string, p1: string, u2: string, p2: string)
    requires Onedata3pConf(landscape, u1, p1).1.Ok?
    ensures var l := Onedata3pConf(landscape, u1, p1).0;
            Onedata3pConf(l, u2, p2) == (l, Ok(()))
  {
    SectionKeysDistinct();
    var l := Onedata3pConf(landscape, u1, p1).0;
    var c := l.fields[ONEDATA_3P];
    var oz := c.fields[ONEZONE];
    assert ONEZONE_ADMIN in oz.fields && Truthy(oz.fields[ONEZONE_ADMIN]);
    assert c.fields[ENABLED := VBool(false)] == c.fields;
    assert WithAdmin(oz.fields, u2, p2) == oz.fields;
    assert c.fields[ONEZONE := VDict(oz.fields)] == c.fields;
    assert l.fields[ONEDATA_3P := c] == l.fields;
  }

  /**
   * It fails exactly on a non-dict landscape, a non-dict `onedata-3p` or a
   * non-dict `onezone`; only the last of these leaves a change behind, and
   * only when `onedata-3p` was already in the landscape.
   */
  lemma Onedata3pConfErrors(landscape: Value, username: string, password: string)
    ensures var (l, r) := Onedata3pConf(landscape, username, password);
            var conf := if landscape.VDict? && ONEDATA_3P in landscape.fields then landscape.fields[ONEDATA_3P] else EmptyDict;
            (!landscape.VDict? ==> r == Fail(AttributeError) && l == landscape) &&
            (landscape.VDict? && !conf.VDict? ==> r == Fail(TypeError) && l == landscape) &&
            (landscape.VDict? && conf.VDict? && ONEZONE in conf.fields && !conf.fields[ONEZONE].VDict? ==>
               r == Fail(AttributeError) &&
               (ONEDATA_3P !in landscape.fields ==> l == landscape) &&
               (ONEDATA_3P in landscape.fields ==> GetPath(l, [ONEDATA_3P, ENABLED]) == Ok(VBool(false)))) &&
            (landscape.VDict? && conf.VDict? && (ONEZONE !in conf.fields || conf.fields[ONEZONE].VDict?) ==> r == Ok(()))
  {
    if landscape.VDict? && ONEDATA_3P in landscape.fields {
      var conf := landscape.fields[ONEDATA_3P];
      if conf.VDict? && ONEZONE in conf.fields && !conf.fields[ONEZONE].VDict? {
        SectionKeysDistinct();
        GetPath2(Onedata3pConf(landscape, username, password).0, ONEDATA_3P, ENABLED);
      }
    }
  }
}
