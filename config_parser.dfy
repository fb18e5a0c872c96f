/**
 * Translation of the user's environment configuration into the chart's
 * values (scripts/utils/deployment/config_parser.py): user node names
 * `node-N` become pod ordinals, cluster layouts, users, groups and spaces
 * are rewritten for the chart, and the sources values are updated per node.
 *
 * The functions below give the value each step leaves behind; the methods
 * perform the step on a `Doc` the way the script mutates its dicts.
 */
module ConfigParser {
  import opened Util
  import opened Yaml
  import opened NamesAndPaths
  import Pods

  // ---------------------------------------------------------------------------
  // Node names

  /** The user's prefix of node names. */
  const USER_NODE_PREFIX: string := "node-"

  lemma {:induction false} ReplaceLeavesDigits(s: string)
    requires AllDigits(s)
    ensures ReplaceAll(s, USER_NODE_PREFIX, "") == s
  {
    if |s| >= |USER_NODE_PREFIX| {
      assert s[..|USER_NODE_PREFIX|][0] == s[0];
      assert s[..|USER_NODE_PREFIX|] != USER_NODE_PREFIX;
      ReplaceLeavesDigits(s[1..]);
      assert [s[0]] + s[1..] == s;
    }
  }

  lemma ReplaceUserPrefix(d: string)
    requires AllDigits(d)
    ensures ReplaceAll(USER_NODE_PREFIX + d, USER_NODE_PREFIX, "") == d
  {
    var s := USER_NODE_PREFIX + d;
    assert s[..|USER_NODE_PREFIX|] == USER_NODE_PREFIX;
    assert s[|USER_NODE_PREFIX|..] == d;
    ReplaceLeavesDigits(d);
  }

  /** Printing an integer and reading it back gives the integer. */
  lemma ParseIntOfInt(i: int)
    ensures ParseInt(IntToString(i)) == Ok(i)
  {
    if i < 0 {
      var s := IntToString(i);
      assert s[1..] == NatToString(-i);
      DigitsValueOfNat(-i);
    } else {
      ParseIntOfNat(i);
    }
  }

  /**
   * `parse_node_num(name)`: every 'node-' is removed, the rest is read as an
   * integer (a ValueError otherwise) and the number one less is printed, as
   * Kubernetes numbers pods from 0.
   */
  function ParseNodeNum(name: string): (r: Result<string>)
    ensures r.Ok? <==> ParseInt(ReplaceAll(name, USER_NODE_PREFIX, "")).Ok?
    ensures r.Ok? ==> ParseInt(r.value) == Ok(ParseInt(ReplaceAll(name, USER_NODE_PREFIX, "")).value - 1)
  {
    var n :- ParseInt(ReplaceAll(name, USER_NODE_PREFIX, ""));
    ParseIntOfInt(n - 1);
    Ok(IntToString(n - 1))
  }

  /** `parse_node_name(name)`: 'n' followed by the node number. */
  function ParseNodeName(name: string): Result<string>
  {
    var num :- ParseNodeNum(name);
    Ok([NODE_NAME] + num)
  }

  /**
   * The user's node 'node-K' (and a bare 'K') is pod ordinal K - 1, and its
   * chart name is 'n' followed by K - 1.
   */
  lemma NodeNameOfUserName(k: nat)
    requires k >= 1
    ensures ParseNodeNum(USER_NODE_PREFIX + NatToString(k)) == Ok(NatToString(k - 1))
    ensures ParseNodeNum(NatToString(k)) == Ok(NatToString(k - 1))
    ensures ParseNodeName(USER_NODE_PREFIX + NatToString(k)) == Ok([NODE_NAME] + NatToString(k - 1))
  {
    ReplaceUserPrefix(NatToString(k));
    ReplaceLeavesDigits(NatToString(k));
    ParseIntOfNat(k);
  }

  /** Distinct user nodes get distinct chart names. */
  lemma NodeNameInjective(j: nat, k: nat)
    requires j >= 1 && k >= 1 && j != k
    ensures ParseNodeName(USER_NODE_PREFIX + NatToString(j)) != ParseNodeName(USER_NODE_PREFIX + NatToString(k))
  {
    NodeNameOfUserName(j);
    NodeNameOfUserName(k);
    var a := [NODE_NAME] + NatToString(j - 1);
    var b := [NODE_NAME] + NatToString(k - 1);
    if a == b {
      assert a[1..] == NatToString(j - 1);
      assert b[1..] == NatToString(k - 1);
      NatToStringInjective(j - 1, k - 1);
    }
  }

  /**
   * The chart name of user node 'node-K' names the pod '<release>-<service>-(K-1)',
   * and the node number read back from that pod name is K - 1 again.
   */
  lemma UserNodeToPod(release: string, service: string, k: nat)
    requires k >= 1
    ensures ParseNodeName(USER_NODE_PREFIX + NatToString(k)).Ok?
    ensures GenPodName(release, service, ParseNodeName(USER_NODE_PREFIX + NatToString(k)).value)
            == Ok(release + "-" + service + "-" + NatToString(k - 1))
    ensures Pods.GetNodeNum(release + "-" + service + "-" + NatToString(k - 1)) == NatToString(k - 1)
  {
    NodeNameOfUserName(k);
    var d := NatToString(k - 1);
    assert !HasChar(d, NODE_NAME) by {
      forall i | 0 <= i < |d| ensures d[i] != NODE_NAME {
        assert IsDigit(d[i]);
      }
    }
    assert !HasChar(d, '-') by {
      forall i | 0 <= i < |d| ensures d[i] != '-' {
        assert IsDigit(d[i]);
      }
    }
    GenPodNameOfNode(release, service, d);
    Pods.GetNodeNumOf(release + "-" + service, d);
  }

  // ---------------------------------------------------------------------------
  // get_nodes_dict

  /**
   * What iterating a role of the layout yields, as a set: a list's items, a
   * string's characters, a dict's keys; None for a value that is not
   * iterable.
   */
  function RoleMembers(v: Value): (r: Option<set<Value>>)
    ensures r.Some? <==> v.VList? || v.VStr? || v.VDict?
    ensures v.VList? ==> forall e :: e in r.value <==> exists i :: 0 <= i < |v.items| && v.items[i] == e
    ensures v.VStr? ==> forall e :: e in r.value <==> exists i :: 0 <= i < |v.s| && e == VStr([v.s[i]])
    ensures v.VDict? ==> forall e :: e in r.value <==> e.VStr? && e.s in v.fields
  {
    match v
    case VList(items) => Some(set i | 0 <= i < |items| :: items[i])
    case VStr(s) => Some(set i | 0 <= i < |s| :: VStr([s[i]]))
    case VDict(fields) => Some(set k | k in fields :: VStr(k))
    case _ => None
  }

  /** Whether a value can be put in a Python set: lists and dicts cannot. */
  predicate Hashable(v: Value)
  {
    !v.VList? && !v.VDict?
  }

  /**
   * `set(chain.from_iterable(layout.values()))`: every value any role
   * yields. A role that is not iterable, or a yielded list or dict, is a
   * TypeError.
   */
  function ListedNames(layout: map<string, Value>): (r: Result<set<Value>>)
    ensures r.Ok? <==> forall role :: role in layout ==>
                         RoleMembers(layout[role]).Some? && forall e :: e in RoleMembers(layout[role]).value ==> Hashable(e)
    ensures r.Fail? ==> r.error == TypeError
    ensures r.Ok? ==> forall e :: e in r.value <==>
                        exists role :: role in layout && RoleMembers(layout[role]).Some? && e in RoleMembers(layout[role]).value
  {
    if forall role :: role in layout ==>
         RoleMembers(layout[role]).Some? && forall e :: e in RoleMembers(layout[role]).value ==> Hashable(e)
    then Ok(set role, e | role in layout && e in RoleMembers(layout[role]).value :: e)
    else Fail(TypeError)
  }

  /**
   * `get_nodes_dict(service_cfg)`: one empty entry per distinct chart name
   * of the values the roles of `clusterConfig` yield (absent means no
   * nodes). A `clusterConfig` that is not a dict is an AttributeError, the
   * set of yielded values raises ListedNames' TypeError, a yielded value
   * that is not a string is an AttributeError (it has no `replace`), and a
   * string that does not parse is a ValueError.
   */
  function GetNodesDict(serviceCfg: Value): (r: Result<Value>)
    ensures r.Ok? ==> r.value.VDict?
    ensures r.Ok? ==> forall k :: k in r.value.fields ==> r.value.fields[k] == EmptyDict
    ensures r.Ok? ==> var cc := GetOr(serviceCfg, "clusterConfig", EmptyDict);
                      cc.Ok? && cc.value.VDict? && ListedNames(cc.value.fields).Ok? &&
                      forall k :: k in r.value.fields <==>
                        exists n :: n in ListedNames(cc.value.fields).value && n.VStr? && ParseNodeName(n.s) == Ok(k)
    ensures serviceCfg.VDict? && "clusterConfig" !in serviceCfg.fields ==> r == Ok(EmptyDict)
    ensures var cc := GetOr(serviceCfg, "clusterConfig", EmptyDict);
            cc.Ok? && !cc.value.VDict? ==> r == Fail(AttributeError)
    ensures var cc := GetOr(serviceCfg, "clusterConfig", EmptyDict);
            cc.Ok? && cc.value.VDict? && ListedNames(cc.value.fields).Fail? ==> r == Fail(TypeError)
    ensures var cc := GetOr(serviceCfg, "clusterConfig", EmptyDict);
            cc.Ok? && cc.value.VDict? && ListedNames(cc.value.fields).Ok? ==>
              var names := ListedNames(cc.value.fields).value;
              ((exists n :: n in names && !n.VStr?) ==> r == Fail(AttributeError)) &&
              (r.Ok? <==> forall n :: n in names ==> n.VStr? && ParseNodeName(n.s).Ok?) &&
              (r.Fail? && (forall n :: n in names ==> n.VStr?) ==> r == Fail(ValueError))
  {
    var cc :- GetOr(serviceCfg, "clusterConfig", EmptyDict);
    if !cc.VDict? then Fail(AttributeError)
    else
      var names :- ListedNames(cc.fields);
      if exists n :: n in names && !n.VStr? then Fail(AttributeError)
      else if exists n :: n in names && ParseNodeName(n.s).Fail? then Fail(ValueError)
      else
        var keys := set n | n in names :: ParseNodeName(n.s).value;
        Ok(VDict(map k | k in keys :: EmptyDict))
  }

  /** A layout naming user nodes 'node-K' gives the entries 'n(K-1)'. */
  lemma NodesDictOfUserNodes(serviceCfg: Value, k: nat)
    requires k >= 1 && GetNodesDict(serviceCfg).Ok?
    requires VStr(USER_NODE_PREFIX + NatToString(k)) in
             ListedNames(GetOr(serviceCfg, "clusterConfig", EmptyDict).value.fields).value
    ensures [NODE_NAME] + NatToString(k - 1) in GetNodesDict(serviceCfg).value.fields
  {
    NodeNameOfUserName(k);
  }

  /**
   * A role given as a string of digits names one node per character: the
   * character `c` gives the entry 'n(c-1)'.
   */
  lemma NodesDictOfDigitRole(serviceCfg: Value, role: string, i: nat)
    requires GetNodesDict(serviceCfg).Ok?
    requires var cc := GetOr(serviceCfg, "clusterConfig", EmptyDict).value;
             role in cc.fields && cc.fields[role].VStr? && i < |cc.fields[role].s| && '1' <= cc.fields[role].s[i] <= '9'
    ensures var d := GetOr(serviceCfg, "clusterConfig", EmptyDict).value.fields[role].s[i];
            [NODE_NAME] + NatToString((d as int - '0' as int) - 1) in GetNodesDict(serviceCfg).value.fields
  {
    var cc := GetOr(serviceCfg, "clusterConfig", EmptyDict).value;
    var d := cc.fields[role].s[i];
    var k: nat := d as int - '0' as int;
    assert NatToString(k) == [d];
    ReplaceLeavesDigits([d]);
    ParseIntOfNat(k);
    assert VStr([d]) in RoleMembers(cc.fields[role]).value;
    NodeNameOfUserName(k);
  }

  // ---------------------------------------------------------------------------
  // set_nodes_num

  /** `len(nodes)` of a dict, list or string; a TypeError for anything else. */
  function Len(v: Value): (r: Result<nat>)
    ensures v.VList? ==> r == Ok(|v.items|)
    ensures v.VDict? ==> r == Ok(|v.fields.Keys|)
  {
    match v
    case VList(items) => Ok(|items|)
    case VDict(fields) => Ok(|fields.Keys|)
    case VStr(s) => Ok(|s|)
    case _ => Fail(TypeError)
  }

  function NodesCountKey(serviceType: string): string
  {
    serviceType + "_nodes_count"
  }

  function NodesCountPath(serviceType: string, scenarioKey: string, service: string): seq<string>
  {
    [scenarioKey, service, NodesCountKey(serviceType)]
  }

  /** The configuration after `set_nodes_num`: the count, never below 1. */
  function NodesNum(config: Value, serviceType: string, scenarioKey: string, service: string,
                    nodes: Value): Result<Value>
  {
    var n :- Len(nodes);
    SetPath(config, NodesCountPath(serviceType, scenarioKey, service), VInt(if n >= 1 then n else 1))
  }

  /**
   * `set_nodes_num` stores max(len(nodes), 1) under '<type>_nodes_count' of
   * the service's values; it fails exactly when that service's values are
   * missing or not a dict, or `nodes` has no length, and leaves every other
   * path as it was.
   */
  lemma NodesNumStored(config: Value, serviceType: string, scenarioKey: string, service: string,
                       nodes: Value, q: seq<string>)
    ensures NodesNum(config, serviceType, scenarioKey, service, nodes).Ok? <==>
            Len(nodes).Ok? && GetPath(config, [scenarioKey, service]).Ok? &&
            GetPath(config, [scenarioKey, service]).value.VDict?
    ensures NodesNum(config, serviceType, scenarioKey, service, nodes).Ok? ==>
            var c := if Len(nodes).value >= 1 then Len(nodes).value else 1;
            var after := NodesNum(config, serviceType, scenarioKey, service, nodes).value;
            c >= 1 && c >= Len(nodes).value &&
            GetPath(after, NodesCountPath(serviceType, scenarioKey, service)) == Ok(VInt(c)) &&
            (Diverge(NodesCountPath(serviceType, scenarioKey, service), q) ==> GetPath(after, q) == GetPath(config, q))
  {
    var p := NodesCountPath(serviceType, scenarioKey, service);
    if Len(nodes).Ok? {
      var n := Len(nodes).value;
      var x := VInt(if n >= 1 then n else 1);
      SetPath3(config, scenarioKey, service, NodesCountKey(serviceType), x);
      if SetPath(config, p, x).Ok? {
        GetSetPath(config, p, x);
        if Diverge(p, q) {
          SetPathFrame(config, p, q, x);
        }
      }
    }
  }

  /** A three-key path can be written exactly when its first two keys lead to a dict. */
  lemma SetPath3(v: Value, a: string, b: string, c: string, x: Value)
    ensures SetPath(v, [a, b, c], x).Ok? <==> GetPath(v, [a, b]).Ok? && GetPath(v, [a, b]).value.VDict?
  {
    assert [a, b, c][1..] == [b, c];
    assert [b, c][1..] == [c];
    assert [a, b][1..] == [b];
    assert [b][1..] == [];
    if Lookup(v, a).Ok? {
      var child := Lookup(v, a).value;
      assert GetPath(v, [a, b]) == GetPath(child, [b]);
      if Lookup(child, b).Ok? {
        var grand := Lookup(child, b).value;
        assert GetPath(child, [b]) == Ok(grand);
        assert SetPath(child, [b, c], x) == (var g' :- SetKey(grand, c, x); SetKey(child, b, g'));
      }
    }
  }

  /** `set_nodes_num(config, service_type, scenario_key, service, nodes)`. */
  method SetNodesNum(config: Doc, serviceType: string, scenarioKey: string, service: string,
                     nodes: Value) returns (r: Result<()>)
    modifies config
    ensures var after := NodesNum(old(config.root), serviceType, scenarioKey, service, nodes);
            if after.Ok? then r == Ok(()) && config.root == after.value
            else r == Fail(after.error) && config.root == old(config.root)
  {
    var after := NodesNum(config.root, serviceType, scenarioKey, service, nodes);
    if after.Ok? {
      config.root := after.value;
      r := Ok(());
    } else {
      r := Fail(after.error);
    }
  }

  // ---------------------------------------------------------------------------
  // parse_cluster_config

  /**
   * `parse_node_num(x)` for a value a role yields: a value that is not a
   * string has no `replace` (AttributeError), a string that does not parse
   * is a ValueError.
   */
  function NodeNumValue(v: Value): (r: Result<Value>)
    ensures r.Ok? <==> v.VStr? && ParseNodeNum(v.s).Ok?
    ensures r.Ok? ==> r.value == VStr(ParseNodeNum(v.s).value)
    ensures !v.VStr? ==> r == Fail(AttributeError)
    ensures v.VStr? && r.Fail? ==> r == Fail(ValueError)
  {
    if !v.VStr? then Fail(AttributeError)
    else
      var num :- ParseNodeNum(v.s);
      Ok(VStr(num))
  }

  /**
   * The values `for x in v` visits, in order: a list's items, a string's
   * characters, a dict's keys in the order `dictOrder` gives; any other
   * value is not iterable (TypeError). As a set, they are the role's
   * members; for a dict, when `dictOrder` lists every dict's keys.
   */
  function Elements(v: Value, dictOrder: map<string, Value> -> seq<string>): (r: Result<seq<Value>>)
    ensures r.Fail? <==> RoleMembers(v).None?
    ensures r.Fail? ==> r.error == TypeError
    ensures v.VList? ==> r == Ok(v.items)
    ensures v.VStr? ==> r.Ok? && |r.value| == |v.s| && forall i :: 0 <= i < |v.s| ==> r.value[i] == VStr([v.s[i]])
    ensures v.VDict? ==> r.Ok? && |r.value| == |dictOrder(v.fields)| &&
                         forall i :: 0 <= i < |r.value| ==> r.value[i] == VStr(dictOrder(v.fields)[i])
    ensures r.Ok? && (!v.VDict? || IsDictOrder(dictOrder)) ==> forall e :: e in r.value <==> e in RoleMembers(v).value
  {
    match v
    case VList(items) => Ok(items)
    case VStr(s) => Ok(seq(|s|, i requires 0 <= i < |s| => VStr([s[i]])))
    case VDict(fields) => Ok(seq(|dictOrder(fields)|, i requires 0 <= i < |dictOrder(fields)| => VStr(dictOrder(fields)[i])))
    case _ => Fail(TypeError)
  }

  /**
   * One role of the parsed layout, `[parse_node_num(n) for n in nodes_list]`:
   * the node numbers of the values the role yields, in order. A role that
   * is not iterable is a TypeError; otherwise the first value that does not
   * parse decides the error.
   */
  function RoleNums(v: Value, dictOrder: map<string, Value> -> seq<string>): (r: Result<seq<Value>>)
    ensures r.Ok? ==> Elements(v, dictOrder).Ok? &&
                      var items := Elements(v, dictOrder).value;
                      |r.value| == |items| &&
                      forall i :: 0 <= i < |items| ==>
                        items[i].VStr? && r.value[i].VStr? && ParseNodeNum(items[i].s) == Ok(r.value[i].s)
    ensures Elements(v, dictOrder).Fail? ==> r == Fail(TypeError)
    ensures Elements(v, dictOrder).Ok? ==>
              var items := Elements(v, dictOrder).value;
              (r.Ok? <==> forall i :: 0 <= i < |items| ==> NodeNumValue(items[i]).Ok?) &&
              (r.Fail? ==> exists i :: 0 <= i < |items| && NodeNumValue(items[i]) == Fail(r.error) &&
                                       forall j :: 0 <= j < i ==> NodeNumValue(items[j]).Ok?)
  {
    var items :- Elements(v, dictOrder);
    var r := MapAll(items, NodeNumValue);
    if r.Ok? then
      assert forall i :: 0 <= i < |items| ==> NodeNumValue(items[i]) == Ok(r.value[i]);
      r
    else r
  }

  /**
   * The parsed layout after the roles `roles` (in dict order) are read: each
   * role of the layout with its node numbers; the first role that fails
   * decides the error.
   */
  function ClusterConfigOf(layout: map<string, Value>, roles: seq<string>,
                           dictOrder: map<string, Value> -> seq<string>): (r: Result<map<string, Value>>)
    ensures r.Ok? ==> forall role :: role in r.value <==> role in layout && role in roles
    ensures r.Ok? ==> forall role :: role in r.value ==>
                        RoleNums(layout[role], dictOrder).Ok? && r.value[role] == VList(RoleNums(layout[role], dictOrder).value)
    ensures r.Ok? <==> forall i :: 0 <= i < |roles| && roles[i] in layout ==> RoleNums(layout[roles[i]], dictOrder).Ok?
    ensures r.Fail? ==> exists i :: 0 <= i < |roles| && roles[i] in layout &&
                                    RoleNums(layout[roles[i]], dictOrder) == Fail(r.error) &&
                                    forall j :: 0 <= j < i && roles[j] in layout ==> RoleNums(layout[roles[j]], dictOrder).Ok?
  {
    var nums := LayoutNums(layout, dictOrder);
    var r := ReadRoles(nums, roles);
    assert ReadsAll(nums, roles, r) by { ReadRolesAll(nums, roles); }
    r
  }

  /** Each role of the layout with the node numbers it parses to. */
  function LayoutNums(layout: map<string, Value>, dictOrder: map<string, Value> -> seq<string>)
    : (nums: map<string, Result<seq<Value>>>)
    ensures nums.Keys == layout.Keys
    ensures forall role :: role in nums ==> nums[role] == RoleNums(layout[role], dictOrder)
  {
    map role | role in layout :: RoleNums(layout[role], dictOrder)
  }

  /** The roles `roles` read in order, each with its parse result in `nums`. */
  function ReadRoles(nums: map<string, Result<seq<Value>>>, roles: seq<string>): Result<map<string, Value>>
  {
    if roles == [] then Ok(map[])
    else
      var before := ReadRoles(nums, roles[..|roles| - 1]);
      var role := roles[|roles| - 1];
      if before.Fail? then Fail(before.error)
      else if role !in nums then before
      else if nums[role].Fail? then Fail(nums[role].error)
      else Ok(before.value[role := VList(nums[role].value)])
  }

  /** The four facts ClusterConfigOf states, for parse results `nums`. */
  ghost predicate ReadsAll(nums: map<string, Result<seq<Value>>>, roles: seq<string>, r: Result<map<string, Value>>)
  {
    (r.Ok? ==> forall role :: role in r.value <==> role in nums && role in roles) &&
    (r.Ok? ==> forall role :: role in r.value ==> nums[role].Ok? && r.value[role] == VList(nums[role].value)) &&
    (r.Ok? <==> forall i :: 0 <= i < |roles| && roles[i] in nums ==> nums[roles[i]].Ok?) &&
    (r.Fail? ==> exists i :: 0 <= i < |roles| && roles[i] in nums && nums[roles[i]] == Fail(r.error) &&
                             forall j :: 0 <= j < i && roles[j] in nums ==> nums[roles[j]].Ok?)
  }

  lemma {:induction false} ReadRolesAll(nums: map<string, Result<seq<Value>>>, roles: seq<string>)
    ensures ReadsAll(nums, roles, ReadRoles(nums, roles))
  {
    if roles != [] {
      var init := roles[..|roles| - 1];
      var role := roles[|roles| - 1];
      ReadRolesAll(nums, init);
      assert forall i :: 0 <= i < |init| ==> init[i] == roles[i];
      var before := ReadRoles(nums, init);
      if before.Fail? {
        var i :| 0 <= i < |init| && init[i] in nums && nums[init[i]] == Fail(before.error) &&
                 forall j :: 0 <= j < i && init[j] in nums ==> nums[init[j]].Ok?;
        assert roles[i] == init[i];
      } else if role !in nums {
        assert forall x :: x in roles <==> x in init || x == role;
      } else if nums[role].Fail? {
        assert roles[|init|] == role;
      } else {
        assert forall x :: x in roles <==> x in init || x == role;
      }
    }
  }

  /** Once the roles read so far fail, reading more roles raises the same error. */
  lemma {:induction false} ClusterConfigOfPrefixFail(layout: map<string, Value>, roles: seq<string>, n: nat,
                                                      dictOrder: map<string, Value> -> seq<string>)
    requires n <= |roles| && ClusterConfigOf(layout, roles[..n], dictOrder).Fail?
    ensures ClusterConfigOf(layout, roles, dictOrder) == ClusterConfigOf(layout, roles[..n], dictOrder)
  {
    if n < |roles| {
      var init := roles[..|roles| - 1];
      assert init[..n] == roles[..n];
      ClusterConfigOfPrefixFail(layout, init, n, dictOrder);
    } else {
      assert roles[..n] == roles;
    }
  }

  /**
   * The service's values after `parse_cluster_config(cluster_cfg, values)`:
   * unchanged for a falsy layout; otherwise 'cluster_config' holds the
   * parsed layout, its roles read in dict order (the values must be a dict,
   * the layout a dict).
   */
  function ClusterConfig(clusterCfg: Value, values: Value, dictOrder: map<string, Value> -> seq<string>)
    : Result<Value>
  {
    if !Truthy(clusterCfg) then Ok(values)
    else if !values.VDict? then Fail(TypeError)
    else if !clusterCfg.VDict? then Fail(AttributeError)
    else
      var parsed :- ClusterConfigOf(clusterCfg.fields, dictOrder(clusterCfg.fields), dictOrder);
      SetKey(values, "cluster_config", VDict(parsed))
  }

  /**
   * What 'cluster_config' holds when the layout fails: the roles before the
   * failing one, in dict order, each parsed. A layout that is not a dict
   * leaves it empty.
   */
  predicate PartialLayout(clusterCfg: Value, parsed: map<string, Value>, dictOrder: map<string, Value> -> seq<string>)
  {
    if !clusterCfg.VDict? then parsed == map[]
    else
      var roles := dictOrder(clusterCfg.fields);
      exists i :: 0 <= i < |roles| && ClusterConfigOf(clusterCfg.fields, roles[..i], dictOrder) == Ok(parsed) &&
                  ClusterConfigOf(clusterCfg.fields, roles[..i + 1], dictOrder).Fail?
  }

  /**
   * `parse_cluster_config(cluster_cfg, values)`, the layout parsed one role
   * at a time. 'cluster_config' is set to {} before the layout is read, and
   * each role is stored once parsed, so a failure leaves the roles before
   * the failing one behind.
   */
  method ParseClusterConfig(clusterCfg: Value, values: Doc, dictOrder: map<string, Value> -> seq<string>)
    returns (r: Result<()>)
    requires IsDictOrder(dictOrder)
    modifies values
    ensures var after := ClusterConfig(clusterCfg, old(values.root), dictOrder);
            (after.Ok? ==> r == Ok(()) && values.root == after.value) &&
            (after.Fail? ==> r == Fail(after.error))
    ensures Truthy(clusterCfg) && r.Ok? ==>
              clusterCfg.VDict? && values.root.VDict? && "cluster_config" in values.root.fields &&
              values.root.fields["cluster_config"].VDict? &&
              values.root.fields["cluster_config"].fields.Keys == clusterCfg.fields.Keys
    ensures ClusterConfig(clusterCfg, old(values.root), dictOrder).Fail? && !old(values.root).VDict? ==>
              values.root == old(values.root)
    ensures ClusterConfig(clusterCfg, old(values.root), dictOrder).Fail? && old(values.root).VDict? ==>
              values.root.VDict? && "cluster_config" in values.root.fields &&
              values.root == VDict(old(values.root).fields["cluster_config" := values.root.fields["cluster_config"]]) &&
              values.root.fields["cluster_config"].VDict? &&
              PartialLayout(clusterCfg, values.root.fields["cluster_config"].fields, dictOrder)
  {
    if !Truthy(clusterCfg) {
      return Ok(());
    }
    if !values.root.VDict? {
      return Fail(TypeError);
    }
    var before := values.root.fields;
    values.root := VDict(before["cluster_config" := VDict(map[])]);
    if !clusterCfg.VDict? {
      return Fail(AttributeError);
    }
    var parsed, stored := ParseRoles(clusterCfg.fields, dictOrder);
    values.root := VDict(before["cluster_config" := VDict(stored)]);
    if parsed.Fail? {
      return Fail(parsed.error);
    }
    r := Ok(());
  }

  /**
   * The loop of `parse_cluster_config` over the roles of the layout in dict
   * order; `stored` holds the roles parsed before it ends.
   */
  method ParseRoles(layout: map<string, Value>, dictOrder: map<string, Value> -> seq<string>)
    returns (r: Result<map<string, Value>>, stored: map<string, Value>)
    requires IsDictOrder(dictOrder)
    ensures r == ClusterConfigOf(layout, dictOrder(layout), dictOrder)
    ensures r.Ok? ==> stored == r.value && stored.Keys == layout.Keys
    ensures r.Fail? ==> PartialLayout(VDict(layout), stored, dictOrder)
  {
    r, stored := ParseRoleSeq(layout, dictOrder);
    if r.Ok? {
      ClusterConfigKeys(layout, dictOrder);
    }
  }

  /** The loop itself, over whatever order `dictOrder` gives the layout. */
  method ParseRoleSeq(layout: map<string, Value>, dictOrder: map<string, Value> -> seq<string>)
    returns (r: Result<map<string, Value>>, stored: map<string, Value>)
    ensures r == ClusterConfigOf(layout, dictOrder(layout), dictOrder)
    ensures r.Ok? ==> stored == r.value
    ensures r.Fail? ==> PartialLayout(VDict(layout), stored, dictOrder)
  {
    var roles := dictOrder(layout);
    stored := map[];
    var i := 0;
    while i < |roles|
      invariant 0 <= i <= |roles|
      invariant ClusterConfigOf(layout, roles[..i], dictOrder) == Ok(stored)
    {
      var role := roles[i];
      assert roles[..i + 1][..i] == roles[..i];
      if role in layout {
        var nums := RoleNums(layout[role], dictOrder);
        if nums.Fail? {
          ClusterConfigOfPrefixFail(layout, roles, i + 1, dictOrder);
          return Fail(nums.error), stored;
        }
        stored := stored[role := VList(nums.value)];
      }
      i := i + 1;
    }
    assert roles[..i] == roles;
    r := Ok(stored);
  }

  /** A layout read in full has exactly the layout's roles. */
  lemma ClusterConfigKeys(layout: map<string, Value>, dictOrder: map<string, Value> -> seq<string>)
    requires IsDictOrder(dictOrder)
    requires ClusterConfigOf(layout, dictOrder(layout), dictOrder).Ok?
    ensures ClusterConfigOf(layout, dictOrder(layout), dictOrder).value.Keys == layout.Keys
  {
    assert Enumerates(dictOrder(layout), layout.Keys);
  }

  // ---------------------------------------------------------------------------
  // add_sources_for_nodes

  /** Where the sources values keep the per-node entries of a service. */
  function NodesPath(scenarioKey: string, service: string): seq<string>
  {
    [scenarioKey, service, "deployFromSources", "nodes"]
  }

  /** The node entries with every listed node given `entry`. */
  function WithEntries(nodes: map<string, Value>, names: seq<string>, entry: Value): map<string, Value>
  {
    nodes + map n | n in names :: entry
  }

  /**
   * The sources values after `add_sources_for_nodes(names, ...)`: every
   * listed node gets the entry of node 'n0', a KeyError when 'n0' has none.
   */
  function AddSources(sources: Value, names: seq<string>, scenarioKey: string, service: string): Result<Value>
  {
    var nodes :- GetPath(sources, NodesPath(scenarioKey, service));
    var base :- Lookup(nodes, "n0");
    SetPath(sources, NodesPath(scenarioKey, service), VDict(WithEntries(nodes.fields, names, base)))
  }

  /**
   * Listed nodes get n0's entry, the others keep theirs, nothing outside the
   * node entries changes, and a missing 'n0' is a KeyError.
   */
  lemma AddSourcesEffect(sources: Value, names: seq<string>, scenarioKey: string, service: string,
                         q: seq<string>)
    requires GetPath(sources, NodesPath(scenarioKey, service)).Ok?
    ensures var nodes := GetPath(sources, NodesPath(scenarioKey, service)).value;
            nodes.VDict? && "n0" !in nodes.fields ==> AddSources(sources, names, scenarioKey, service) == Fail(KeyError("n0"))
    ensures var nodes := GetPath(sources, NodesPath(scenarioKey, service)).value;
            var after := AddSources(sources, names, scenarioKey, service);
            nodes.VDict? && "n0" in nodes.fields ==>
              after.Ok? &&
              GetPath(after.value, NodesPath(scenarioKey, service)).Ok? &&
              var nodes' := GetPath(after.value, NodesPath(scenarioKey, service)).value;
              nodes'.VDict? &&
              nodes'.fields.Keys == nodes.fields.Keys + Listed(names) &&
              (forall n :: n in names ==> n in nodes'.fields && nodes'.fields[n] == nodes.fields["n0"]) &&
              (forall n :: n in nodes.fields && n !in names ==> n in nodes'.fields && nodes'.fields[n] == nodes.fields[n]) &&
              (Diverge(NodesPath(scenarioKey, service), q) ==> GetPath(after.value, q) == GetPath(sources, q))
  {
    var p := NodesPath(scenarioKey, service);
    var nodes := GetPath(sources, p).value;
    if nodes.VDict? && "n0" in nodes.fields {
      var x := VDict(WithEntries(nodes.fields, names, nodes.fields["n0"]));
      NodesPathSettable(sources, scenarioKey, service, x);
      GetSetPath(sources, p, x);
      WithEntriesEffect(nodes.fields, names, nodes.fields["n0"]);
      if Diverge(p, q) {
        SetPathFrame(sources, p, q, x);
      }
    }
  }

  /** The names of a list, as a set. */
  function Listed(names: seq<string>): (r: set<string>)
    ensures forall n :: n in r <==> n in names
  {
    set n | n in names
  }

  /** The listed nodes hold `entry`, the others keep theirs. */
  lemma WithEntriesEffect(nodes: map<string, Value>, names: seq<string>, entry: Value)
    ensures var m := WithEntries(nodes, names, entry);
            m.Keys == nodes.Keys + Listed(names) &&
            (forall n :: n in names ==> n in m && m[n] == entry) &&
            (forall n :: n in nodes && n !in names ==> n in m && m[n] == nodes[n])
  {
  }

  /** A path that can be read can be written. */
  lemma {:induction false} SetPathOfExisting(v: Value, path: seq<string>, x: Value)
    requires |path| >= 1 && GetPath(v, path).Ok?
    ensures SetPath(v, path, x).Ok?
  {
    if |path| > 1 {
      SetPathOfExisting(Lookup(v, path[0]).value, path[1..], x);
    }
  }

  lemma NodesPathSettable(sources: Value, scenarioKey: string, service: string, x: Value)
    requires GetPath(sources, NodesPath(scenarioKey, service)).Ok?
    ensures SetPath(sources, NodesPath(scenarioKey, service), x).Ok?
  {
    SetPathOfExisting(sources, NodesPath(scenarioKey, service), x);
  }

  /** `add_sources_for_nodes(names, sources, scenario_key, service)`. */
  method AddSourcesForNodes(names: seq<string>, sources: Doc, scenarioKey: string, service: string)
    returns (r: Result<()>)
    modifies sources
    ensures var after := AddSources(old(sources.root), names, scenarioKey, service);
            if after.Ok? then r == Ok(()) && sources.root == after.value
            else r == Fail(after.error) && sources.root == old(sources.root)
  {
    var nodesR := GetPath(sources.root, NodesPath(scenarioKey, service));
    if nodesR.Fail? {
      return Fail(nodesR.error);
    }
    var baseR := Lookup(nodesR.value, "n0");
    if baseR.Fail? {
      return Fail(baseR.error);
    }
    var nodes := nodesR.value.fields;
    var i := 0;
    while i < |names|
      invariant 0 <= i <= |names|
      invariant nodes == WithEntries(nodesR.value.fields, names[..i], baseR.value)
    {
      assert names[..i + 1] == names[..i] + [names[i]];
      nodes := nodes[names[i] := baseR.value];
      i := i + 1;
    }
    assert names[..i] == names;
    NodesPathSettable(sources.root, scenarioKey, service, VDict(nodes));
    sources.root := SetPath(sources.root, NodesPath(scenarioKey, service), VDict(nodes)).value;
    r := Ok(());
  }

  /**
   * What `parse_cluster_config` leaves: nothing changes for a falsy layout;
   * otherwise 'cluster_config' has every role of the layout,
   * each with one entry per value the role yields, in the same order, each
   * the node number of that value, and no other key of the service's values
   * changes.
   */
  lemma ClusterConfigEffect(clusterCfg: Value, values: Value, dictOrder: map<string, Value> -> seq<string>)
    requires IsDictOrder(dictOrder)
    ensures !Truthy(clusterCfg) ==> ClusterConfig(clusterCfg, values, dictOrder) == Ok(values)
    ensures Truthy(clusterCfg) && ClusterConfig(clusterCfg, values, dictOrder).Ok? ==>
            var after := ClusterConfig(clusterCfg, values, dictOrder).value;
            clusterCfg.VDict? && values.VDict? && after.VDict? &&
            after.fields.Keys == values.fields.Keys + {"cluster_config"} &&
            (forall k :: k in values.fields && k != "cluster_config" ==> after.fields[k] == values.fields[k]) &&
            after.fields["cluster_config"].VDict? &&
            var parsed := after.fields["cluster_config"].fields;
            (forall role :: role in parsed <==> role in clusterCfg.fields) &&
            forall role :: role in parsed ==>
              var items := Elements(clusterCfg.fields[role], dictOrder);
              items.Ok? && parsed[role].VList? && |parsed[role].items| == |items.value| &&
              forall i :: 0 <= i < |items.value| ==>
                items.value[i].VStr? && parsed[role].items[i].VStr? &&
                ParseNodeNum(items.value[i].s) == Ok(parsed[role].items[i].s)
  {
    if Truthy(clusterCfg) && ClusterConfig(clusterCfg, values, dictOrder).Ok? {
      var parsed := ClusterConfigOf(clusterCfg.fields, dictOrder(clusterCfg.fields), dictOrder).value;
      forall role | role in parsed
        ensures var items := Elements(clusterCfg.fields[role], dictOrder);
                items.Ok? && parsed[role].VList? && |parsed[role].items| == |items.value| &&
                forall i :: 0 <= i < |items.value| ==>
                  items.value[i].VStr? && parsed[role].items[i].VStr? &&
                  ParseNodeNum(items.value[i].s) == Ok(parsed[role].items[i].s)
      {
        assert parsed[role] == VList(RoleNums(clusterCfg.fields[role], dictOrder).value);
      }
    }
  }

  // ---------------------------------------------------------------------------
  // parse_custom_sources_for_oz_op

  /** `[{'name': s} for s in sources]`: a list yields its items, a string its characters. */
  function SourceList(sources: Value): (r: Result<seq<Value>>)
    ensures sources.VList? ==>
              r.Ok? && |r.value| == |sources.items| &&
              forall i :: 0 <= i < |sources.items| ==> r.value[i] == VDict(map["name" := sources.items[i]])
  {
    match sources
    case VList(items) => Ok(seq(|items|, i requires 0 <= i < |items| => VDict(map["name" := items[i]])))
    case VStr(s) => Ok(seq(|s|, i requires 0 <= i < |s| => VDict(map["name" := VStr([s[i]])])))
    case _ => Fail(TypeError)
  }

  /** The chart entry of a node built from the user's sources. */
  function NodeEntry(sources: seq<Value>): Value
  {
    VDict(map["sources" := VList(sources)])
  }

  /**
   * The entries the user's nodes add, in the user's order (a later node
   * whose name parses to the same chart name wins).
   */
  function CustomNodes(items: seq<(string, Value)>): Result<map<string, Value>>
  {
    if items == [] then Ok(map[])
    else
      var m :- CustomNodes(items[..|items| - 1]);
      var key :- ParseNodeName(items[|items| - 1].0);
      var sources :- SourceList(items[|items| - 1].1);
      Ok(m[key := NodeEntry(sources)])
  }

  /** One step of the user's nodes: the last node's entry on top of the others. */
  lemma CustomNodesStep(items: seq<(string, Value)>)
    requires items != [] && CustomNodes(items).Ok?
    ensures CustomNodes(items[..|items| - 1]).Ok?
    ensures ParseNodeName(items[|items| - 1].0).Ok? && SourceList(items[|items| - 1].1).Ok?
    ensures CustomNodes(items).value ==
            CustomNodes(items[..|items| - 1]).value[ParseNodeName(items[|items| - 1].0).value :=
                                                   NodeEntry(SourceList(items[|items| - 1].1).value)]
  {
  }

  /** Every user node of a successful parse has a chart name and a source list. */
  lemma CustomNodesOk(items: seq<(string, Value)>)
    requires CustomNodes(items).Ok?
    ensures forall i :: 0 <= i < |items| ==> ParseNodeName(items[i].0).Ok? && SourceList(items[i].1).Ok?
  {
    forall i | 0 <= i < |items| ensures ParseNodeName(items[i].0).Ok? && SourceList(items[i].1).Ok? {
      CustomNodeOk(items, i);
    }
  }

  /** The user node at `i` of a successful parse has a chart name and a source list. */
  lemma {:induction false} CustomNodeOk(items: seq<(string, Value)>, i: nat)
    requires CustomNodes(items).Ok? && i < |items|
    ensures ParseNodeName(items[i].0).Ok? && SourceList(items[i].1).Ok?
  {
    CustomNodesStep(items);
    if i < |items| - 1 {
      var init := items[..|items| - 1];
      CustomNodeOk(init, i);
      assert init[i] == items[i];
    }
  }

  /** The user nodes whose names parse to `k`. */
  ghost predicate NamesNode(items: seq<(string, Value)>, k: string)
  {
    exists i :: 0 <= i < |items| && ParseNodeName(items[i].0) == Ok(k)
  }

  lemma NamesNodeSnoc(items: seq<(string, Value)>, k: string)
    requires items != []
    ensures NamesNode(items, k) <==>
            NamesNode(items[..|items| - 1], k) || ParseNodeName(items[|items| - 1].0) == Ok(k)
  {
    var named := (item: (string, Value)) => ParseNodeName(item.0) == Ok(k);
    var init := items[..|items| - 1];
    assert items == init + [items[|items| - 1]];
    SomeSnoc(init, items[|items| - 1], named);
    assert NamesNode(items, k) <==> exists i :: 0 <= i < |items| && named(items[i]);
    assert NamesNode(init, k) <==> exists i :: 0 <= i < |init| && named(init[i]);
  }

  /** Some element of `init + [x]` satisfies `p` iff some element of `init` does, or `x` does. */
  lemma SomeSnoc<T>(init: seq<T>, x: T, p: T -> bool)
    ensures (exists i :: 0 <= i < |init + [x]| && p((init + [x])[i])) <==>
            (exists i :: 0 <= i < |init| && p(init[i])) || p(x)
  {
    var xs := init + [x];
    if exists i :: 0 <= i < |xs| && p(xs[i]) {
      var i :| 0 <= i < |xs| && p(xs[i]);
      if i < |init| {
        assert init[i] == xs[i];
      }
    }
    if exists i :: 0 <= i < |init| && p(init[i]) {
      var i :| 0 <= i < |init| && p(init[i]);
      assert xs[i] == init[i];
    }
    assert xs[|init|] == x;
  }

  /** A user node is an entry exactly when its name parses to the entry's key. */
  lemma {:induction false} CustomNodesKeys(items: seq<(string, Value)>)
    requires CustomNodes(items).Ok?
    ensures forall k :: k in CustomNodes(items).value <==> NamesNode(items, k)
  {
    if items != [] {
      CustomNodesStep(items);
      CustomNodesKeys(items[..|items| - 1]);
      forall k ensures k in CustomNodes(items).value <==> NamesNode(items, k) {
        NamesNodeSnoc(items, k);
      }
    }
  }

  /** A user node that no later node overrides has its own sources. */
  lemma {:induction false} CustomNodesLast(items: seq<(string, Value)>, i: nat)
    requires CustomNodes(items).Ok? && i < |items|
    requires forall j :: i < j < |items| ==> ParseNodeName(items[j].0) != ParseNodeName(items[i].0)
    ensures ParseNodeName(items[i].0).Ok? && SourceList(items[i].1).Ok?
    ensures ParseNodeName(items[i].0).value in CustomNodes(items).value
    ensures CustomNodes(items).value[ParseNodeName(items[i].0).value] == NodeEntry(SourceList(items[i].1).value)
  {
    CustomNodesOk(items);
    CustomNodesKeys(items);
    CustomNodesStep(items);
    var init := items[..|items| - 1];
    if i < |items| - 1 {
      assert forall j :: i < j < |init| ==> init[j] == items[j];
      assert init[i] == items[i];
      CustomNodesLast(init, i);
    }
  }

  /** `custom_sources_cfg.get(alias of service)`; the configuration must be a dict. */
  function ServiceSources(custom: Value, service: string): Result<Value>
  {
    if !custom.VDict? then Fail(AttributeError)
    else
      match ServiceNameToAlias(service)
      case None => Ok(VNone)
      case Some(alias) => GetOr(custom, alias, VNone)
  }

  /** `items` lists the entries of `m` once each, in the dict's order. */
  predicate ItemsOf(items: seq<(string, Value)>, m: map<string, Value>)
  {
    (forall i, j :: 0 <= i < j < |items| ==> items[i].0 != items[j].0) &&
    (forall i :: 0 <= i < |items| ==> items[i].0 in m && m[items[i].0] == items[i].1) &&
    (forall k :: k in m ==> exists i :: 0 <= i < |items| && items[i].0 == k)
  }

  /**
   * `sources[scenario_key].get(service).get('deployFromSources').get('nodes')`:
   * a missing key on the way gives None, and `get` on None an AttributeError.
   */
  function NodesViaGet(sources: Value, scenarioKey: string, service: string): Result<Value>
  {
    var scenario :- Lookup(sources, scenarioKey);
    var values :- GetOr(scenario, service, VNone);
    var fromSources :- GetOr(values, "deployFromSources", VNone);
    GetOr(fromSources, "nodes", VNone)
  }

  /** Node entries reached through `get` are those at the nodes path. */
  lemma NodesViaGetPath(sources: Value, scenarioKey: string, service: string)
    requires NodesViaGet(sources, scenarioKey, service).Ok?
    requires NodesViaGet(sources, scenarioKey, service).value.VDict?
    ensures GetPath(sources, NodesPath(scenarioKey, service)) == NodesViaGet(sources, scenarioKey, service)
  {
    var p := NodesPath(scenarioKey, service);
    var scenario := Lookup(sources, scenarioKey).value;
    var values := GetOr(scenario, service, VNone).value;
    var fromSources := GetOr(values, "deployFromSources", VNone).value;
    var nodes := GetOr(fromSources, "nodes", VNone).value;
    assert service in scenario.fields && scenario.fields[service] == values;
    assert "deployFromSources" in values.fields && values.fields["deployFromSources"] == fromSources;
    assert "nodes" in fromSources.fields && fromSources.fields["nodes"] == nodes;
    assert p[1..] == [service, "deployFromSources", "nodes"];
    assert p[1..][1..] == ["deployFromSources", "nodes"];
    assert p[1..][1..][1..] == ["nodes"];
    assert p[1..][1..][1..][1..] == [];
    assert GetPath(fromSources, p[1..][1..][1..]) == Ok(nodes);
    assert GetPath(values, p[1..][1..]) == Ok(nodes);
    assert GetPath(scenario, p[1..]) == Ok(nodes);
  }

  /**
   * The sources values after `parse_custom_sources_for_oz_op`: each node
   * entry the service already had is reset to {}, then each node the user
   * lists gets its sources. The service's values must reach a dict of node
   * entries through `get` (an AttributeError otherwise), and a truthy user
   * entry must be a dict.
   */
  function CustomSources(sources: Value, custom: Value, items: seq<(string, Value)>,
                         scenarioKey: string, service: string): Result<Value>
  {
    var nodes :- NodesViaGet(sources, scenarioKey, service);
    if !nodes.VDict? then Fail(AttributeError)
    else
      var reset := map k | k in nodes.fields :: EmptyDict;
      var userCfg :- ServiceSources(custom, service);
      var user :- if !Truthy(userCfg) then Ok(map[])
                  else if !userCfg.VDict? then Fail(AttributeError)
                  else CustomNodes(items);
      SetPath(sources, NodesPath(scenarioKey, service), VDict(reset + user))
  }

  /**
   * The node entries `nodes` after `parse_custom_sources_for_oz_op` are
   * exactly the earlier entries `before` and, when the user lists the
   * service, the user's nodes; an earlier node the user does not list is {},
   * and a user node that no later one overrides is given its sources.
   */
  ghost predicate CustomEffect(before: map<string, Value>, nodes: map<string, Value>, items: seq<(string, Value)>,
                               listed: bool)
  {
    ResetEntries(before, nodes, items, listed) && (listed ==> LastNodeWins(nodes, items))
  }

  /** The entries are the earlier ones and the listed user nodes; an earlier one the user does not list is {}. */
  ghost predicate ResetEntries(before: map<string, Value>, nodes: map<string, Value>, items: seq<(string, Value)>,
                               listed: bool)
  {
    (forall k :: k in nodes <==> k in before || (listed && NamesNode(items, k))) &&
    (forall k :: k in before && !(listed && NamesNode(items, k)) ==> nodes[k] == EmptyDict)
  }

  /**
   * Every user node parses, and the last node with a given chart name gives
   * that name's entry.
   */
  ghost predicate LastNodeWins(nodes: map<string, Value>, items: seq<(string, Value)>)
  {
    forall i :: 0 <= i < |items| ==>
      ParseNodeName(items[i].0).Ok? && SourceList(items[i].1).Ok? &&
      ((forall j :: i < j < |items| ==> ParseNodeName(items[j].0) != ParseNodeName(items[i].0)) ==>
         ParseNodeName(items[i].0).value in nodes &&
         nodes[ParseNodeName(items[i].0).value] == NodeEntry(SourceList(items[i].1).value))
  }

  /** `parse_custom_sources_for_oz_op` has the effect `CustomEffect` on the service's node entries. */
  lemma CustomSourcesEffect(sources: Value, custom: Value, items: seq<(string, Value)>,
                            scenarioKey: string, service: string)
    requires CustomSources(sources, custom, items, scenarioKey, service).Ok?
    ensures GetPath(sources, NodesPath(scenarioKey, service)).Ok?
    ensures var after := CustomSources(sources, custom, items, scenarioKey, service).value;
            var before := GetPath(sources, NodesPath(scenarioKey, service)).value;
            var nodes := GetPath(after, NodesPath(scenarioKey, service));
            before.VDict? && nodes.Ok? && nodes.value.VDict? &&
            CustomEffect(before.fields, nodes.value.fields, items, Truthy(ServiceSources(custom, service).value))
  {
    var before := CustomSourcesAfter(sources, custom, items, scenarioKey, service);
    var listed := Truthy(ServiceSources(custom, service).value);
    var user := if !listed then map[] else CustomNodes(items).value;
    ResetOverridden(before.fields, items, listed, user);
  }

  /** The earlier entries reset to {} and overridden by the user's nodes have the effect `CustomEffect`. */
  lemma ResetOverridden(before: map<string, Value>, items: seq<(string, Value)>, listed: bool, user: map<string, Value>)
    requires listed ==> CustomNodes(items) == Ok(user)
    requires !listed ==> user == map[]
    ensures CustomEffect(before, (map k | k in before :: EmptyDict) + user, items, listed)
  {
    var nodes := (map k | k in before :: EmptyDict) + user;
    ResetKeys(before, items, listed, user);
    if listed {
      UserNodesWin(items);
      LastNodeWinsUnder(map k | k in before :: EmptyDict, user, items);
    }
  }

  /** The keys of the reset entries overridden by the user's: the earlier ones and the user's, the earlier ones reset. */
  lemma ResetKeys(before: map<string, Value>, items: seq<(string, Value)>, listed: bool, user: map<string, Value>)
    requires listed ==> CustomNodes(items) == Ok(user)
    requires !listed ==> user == map[]
    ensures ResetEntries(before, (map k | k in before :: EmptyDict) + user, items, listed)
  {
    ResetUnion(before.Keys, EmptyDict, user);
    if listed {
      CustomNodesKeys(items);
    }
  }

  /** The last user node with a given chart name gives its entry. */
  lemma UserNodesWin(items: seq<(string, Value)>)
    requires CustomNodes(items).Ok?
    ensures LastNodeWins(CustomNodes(items).value, items)
  {
    CustomNodesOk(items);
    forall i | 0 <= i < |items| && (forall j :: i < j < |items| ==> ParseNodeName(items[j].0) != ParseNodeName(items[i].0))
      ensures ParseNodeName(items[i].0).value in CustomNodes(items).value
      ensures CustomNodes(items).value[ParseNodeName(items[i].0).value] == NodeEntry(SourceList(items[i].1).value)
    {
      CustomNodesLast(items, i);
    }
  }

  /** Entries put under the user's keep the user's entries. */
  lemma LastNodeWinsUnder(reset: map<string, Value>, user: map<string, Value>, items: seq<(string, Value)>)
    requires LastNodeWins(user, items)
    ensures LastNodeWins(reset + user, items)
  {
  }


  /** The node entries after `parse_custom_sources_for_oz_op`: the earlier ones reset to {}, then the user's. */
  lemma CustomSourcesAfter(sources: Value, custom: Value, items: seq<(string, Value)>,
                           scenarioKey: string, service: string) returns (before: Value)
    requires CustomSources(sources, custom, items, scenarioKey, service).Ok?
    ensures GetPath(sources, NodesPath(scenarioKey, service)) == Ok(before) && before.VDict?
    ensures var userCfg := ServiceSources(custom, service);
            userCfg.Ok? && (Truthy(userCfg.value) ==> CustomNodes(items).Ok?) &&
            var user := if !Truthy(userCfg.value) then map[] else CustomNodes(items).value;
            GetPath(CustomSources(sources, custom, items, scenarioKey, service).value, NodesPath(scenarioKey, service)) ==
            Ok(VDict((map k | k in before.fields :: EmptyDict) + user))
  {
    var p := NodesPath(scenarioKey, service);
    NodesViaGetPath(sources, scenarioKey, service);
    before := GetPath(sources, p).value;
    var reset := map k | k in before.fields :: EmptyDict;
    var userCfg := ServiceSources(custom, service).value;
    var user := if !Truthy(userCfg) then map[] else CustomNodes(items).value;
    GetSetPath(sources, p, VDict(reset + user));
  }

  /** The keys and values of a map of reset keys overridden by `user`. */
  lemma ResetUnion<K, V>(keys: set<K>, reset: V, user: map<K, V>)
    ensures var m := (map k | k in keys :: reset) + user;
            (forall k :: k in m <==> k in keys || k in user) &&
            (forall k :: k in keys && k !in user ==> m[k] == reset) &&
            (forall k :: k in user ==> m[k] == user[k])
  {
  }

  /**
   * The user's nodes stored before the loop ends: all of them when every
   * node parses, otherwise those before the first node that fails.
   */
  function StoredNodes(items: seq<(string, Value)>): map<string, Value>
  {
    if items == [] then map[]
    else
      var init := items[..|items| - 1];
      var last := items[|items| - 1];
      if CustomNodes(init).Fail? || ParseNodeName(last.0).Fail? || SourceList(last.1).Fail? then StoredNodes(init)
      else StoredNodes(init)[ParseNodeName(last.0).value := NodeEntry(SourceList(last.1).value)]
  }

  /** When every user node parses, the stored nodes are the user's nodes. */
  lemma {:induction false} StoredNodesOk(items: seq<(string, Value)>)
    requires CustomNodes(items).Ok?
    ensures StoredNodes(items) == CustomNodes(items).value
  {
    if items != [] {
      CustomNodesStep(items);
      StoredNodesOk(items[..|items| - 1]);
    }
  }

  /** The stored nodes stop growing at the first node that fails. */
  lemma {:induction false} StoredNodesFirstFail(items: seq<(string, Value)>, i: nat)
    requires i < |items| && CustomNodes(items[..i]).Ok?
    requires ParseNodeName(items[i].0).Fail? || SourceList(items[i].1).Fail?
    ensures StoredNodes(items) == CustomNodes(items[..i]).value
    decreases |items|
  {
    var init := items[..|items| - 1];
    if i < |items| - 1 {
      assert init[..i] == items[..i];
      assert init[i] == items[i];
      StoredNodesFirstFail(init, i);
      CustomNodesFirstFail(init, i);
    } else {
      assert init == items[..i];
      StoredNodesOk(init);
    }
  }

  /**
   * The sources values `parse_custom_sources_for_oz_op` leaves, whether it
   * succeeds or not: once the service's node entries are reached, they are
   * reset to {} before the user's configuration is read, and each user node
   * is stored as it is parsed.
   */
  function CustomSourcesLeft(sources: Value, custom: Value, items: seq<(string, Value)>,
                             scenarioKey: string, service: string): Value
  {
    var nodes := NodesViaGet(sources, scenarioKey, service);
    if nodes.Fail? || !nodes.value.VDict? then sources
    else
      var reset := map k | k in nodes.value.fields :: EmptyDict;
      var userCfg := ServiceSources(custom, service);
      var user := if userCfg.Fail? || !Truthy(userCfg.value) || !userCfg.value.VDict? then map[]
                  else StoredNodes(items);
      NodesViaGetPath(sources, scenarioKey, service);
      NodesPathSettable(sources, scenarioKey, service, VDict(reset + user));
      SetPath(sources, NodesPath(scenarioKey, service), VDict(reset + user)).value
  }

  /**
   * On success the values left are the new values; on a failure once the
   * node entries are reached, they are reset and hold the user's nodes parsed
   * so far, and nothing outside them changes.
   */
  lemma CustomSourcesLeftEffect(sources: Value, custom: Value, items: seq<(string, Value)>,
                                scenarioKey: string, service: string, q: seq<string>)
    ensures var after := CustomSources(sources, custom, items, scenarioKey, service);
            after.Ok? ==> CustomSourcesLeft(sources, custom, items, scenarioKey, service) == after.value
    ensures var nodes := NodesViaGet(sources, scenarioKey, service);
            var left := CustomSourcesLeft(sources, custom, items, scenarioKey, service);
            nodes.Ok? && nodes.value.VDict? ==>
              var user := GetPath(left, NodesPath(scenarioKey, service));
              user.Ok? && user.value.VDict? &&
              (forall k :: k in nodes.value.fields ==> k in user.value.fields) &&
              (forall k :: k in user.value.fields && k !in StoredNodes(items) ==> user.value.fields[k] == EmptyDict) &&
              (Diverge(NodesPath(scenarioKey, service), q) ==> GetPath(left, q) == GetPath(sources, q))
  {
    var nodes := NodesViaGet(sources, scenarioKey, service);
    if nodes.Ok? && nodes.value.VDict? {
      var reset := map k | k in nodes.value.fields :: EmptyDict;
      var userCfg := ServiceSources(custom, service);
      var user := if userCfg.Fail? || !Truthy(userCfg.value) || !userCfg.value.VDict? then map[]
                  else StoredNodes(items);
      var p := NodesPath(scenarioKey, service);
      NodesViaGetPath(sources, scenarioKey, service);
      NodesPathSettable(sources, scenarioKey, service, VDict(reset + user));
      GetSetPath(sources, p, VDict(reset + user));
      if Diverge(p, q) {
        SetPathFrame(sources, p, q, VDict(reset + user));
      }
      if CustomSources(sources, custom, items, scenarioKey, service).Ok? && Truthy(userCfg.value) {
        StoredNodesOk(items);
      }
    }
  }

  /** Once the node entries are reached, the outcome is decided by the user's configuration. */
  lemma CustomSourcesOutcome(sources: Value, custom: Value, items: seq<(string, Value)>,
                             scenarioKey: string, service: string)
    requires NodesViaGet(sources, scenarioKey, service).Ok? && NodesViaGet(sources, scenarioKey, service).value.VDict?
    ensures var userCfg := ServiceSources(custom, service);
            var after := CustomSources(sources, custom, items, scenarioKey, service);
            (userCfg.Fail? ==> after == Fail(userCfg.error)) &&
            (userCfg.Ok? && Truthy(userCfg.value) && !userCfg.value.VDict? ==> after == Fail(AttributeError)) &&
            (userCfg.Ok? && Truthy(userCfg.value) && userCfg.value.VDict? && CustomNodes(items).Fail? ==>
               after == Fail(CustomNodes(items).error)) &&
            (userCfg.Ok? && (!Truthy(userCfg.value) || (userCfg.value.VDict? && CustomNodes(items).Ok?)) ==> after.Ok?)
  {
    var nodes := NodesViaGet(sources, scenarioKey, service).value;
    var reset := map k | k in nodes.fields :: EmptyDict;
    var userCfg := ServiceSources(custom, service);
    if userCfg.Ok? && (!Truthy(userCfg.value) || (userCfg.value.VDict? && CustomNodes(items).Ok?)) {
      var user := if !Truthy(userCfg.value) then map[] else CustomNodes(items).value;
      NodesViaGetPath(sources, scenarioKey, service);
      NodesPathSettable(sources, scenarioKey, service, VDict(reset + user));
    }
  }

  /**
   * `parse_custom_sources_for_oz_op(sources, custom, scenario_key, service)`,
   * given the user's node entries for the service in the dict's order.
   */
  method ParseCustomSourcesForOzOp(sources: Doc, custom: Value, items: seq<(string, Value)>,
                                   scenarioKey: string, service: string) returns (r: Result<()>)
    requires ServiceSources(custom, service).Ok? && ServiceSources(custom, service).value.VDict? ==>
             ItemsOf(items, ServiceSources(custom, service).value.fields)
    modifies sources
    ensures var after := CustomSources(old(sources.root), custom, items, scenarioKey, service);
            (after.Ok? ==> r == Ok(())) && (after.Fail? ==> r == Fail(after.error))
    ensures sources.root == CustomSourcesLeft(old(sources.root), custom, items, scenarioKey, service)
  {
    var existing := NodesViaGet(sources.root, scenarioKey, service);
    if existing.Fail? {
      return Fail(existing.error);
    }
    if !existing.value.VDict? {
      return Fail(AttributeError);
    }
    var reset := map k | k in existing.value.fields :: EmptyDict;
    CustomSourcesOutcome(sources.root, custom, items, scenarioKey, service);
    var userCfg := ServiceSources(custom, service);
    var stored := reset;
    if userCfg.Fail? {
      r := Fail(userCfg.error);
    } else if !Truthy(userCfg.value) {
      r := Ok(());
    } else if !userCfg.value.VDict? {
      r := Fail(AttributeError);
    } else {
      var added;
      added, stored := AddUserNodes(reset, items);
      r := if added.Ok? then Ok(()) else Fail(added.error);
    }
    assert userCfg.Fail? || !Truthy(userCfg.value) || !userCfg.value.VDict? ==> stored == reset + map[];
    NodesViaGetPath(sources.root, scenarioKey, service);
    NodesPathSettable(sources.root, scenarioKey, service, VDict(stored));
    sources.root := SetPath(sources.root, NodesPath(scenarioKey, service), VDict(stored)).value;
  }

  /**
   * The loop of `parse_custom_sources_for_oz_op` over the user's nodes,
   * storing each node's entry into `nodes` in turn; `stored` is what the
   * entries are when the loop ends.
   */
  method AddUserNodes(nodes: map<string, Value>, items: seq<(string, Value)>)
    returns (r: Result<map<string, Value>>, stored: map<string, Value>)
    ensures CustomNodes(items).Ok? ==> r == Ok(nodes + CustomNodes(items).value)
    ensures CustomNodes(items).Fail? ==> r == Fail(CustomNodes(items).error)
    ensures stored == nodes + StoredNodes(items)
  {
    var user: map<string, Value> := map[];
    stored := nodes;
    var i := 0;
    while i < |items|
      invariant 0 <= i <= |items|
      invariant CustomNodes(items[..i]) == Ok(user)
      invariant stored == nodes + user
    {
      var key := ParseNodeName(items[i].0);
      var entries := SourceList(items[i].1);
      if key.Fail? || entries.Fail? {
        CustomNodesFirstFail(items, i);
        StoredNodesFirstFail(items, i);
        return Fail(if key.Fail? then key.error else entries.error), stored;
      }
      CustomNodesNext(items, i, user);
      UpdateUnion(nodes, user, key.value, NodeEntry(entries.value));
      user := user[key.value := NodeEntry(entries.value)];
      stored := stored[key.value := NodeEntry(entries.value)];
      i := i + 1;
    }
    assert items[..i] == items;
    StoredNodesOk(items);
    r := Ok(stored);
  }

  /** One more node that parses adds its entry to the user's nodes before it. */
  lemma CustomNodesNext(items: seq<(string, Value)>, i: nat, user: map<string, Value>)
    requires i < |items| && CustomNodes(items[..i]) == Ok(user)
    requires ParseNodeName(items[i].0).Ok? && SourceList(items[i].1).Ok?
    ensures CustomNodes(items[..i + 1]) ==
            Ok(user[ParseNodeName(items[i].0).value := NodeEntry(SourceList(items[i].1).value)])
  {
    assert items[..i + 1][..i] == items[..i];
  }

  /** Storing a key into a union stores it into its right-hand side. */
  lemma UpdateUnion<K, V>(m: map<K, V>, u: map<K, V>, k: K, v: V)
    ensures (m + u)[k := v] == m + u[k := v]
  {
  }

  /** The user's nodes stop at the first node that fails, with its error. */
  lemma {:induction false} CustomNodesFirstFail(items: seq<(string, Value)>, i: nat)
    requires i < |items| && CustomNodes(items[..i]).Ok?
    requires ParseNodeName(items[i].0).Fail? || SourceList(items[i].1).Fail?
    ensures CustomNodes(items) ==
            if ParseNodeName(items[i].0).Fail? then Fail(ParseNodeName(items[i].0).error)
            else Fail(SourceList(items[i].1).error)
    decreases |items|
  {
    var init := items[..|items| - 1];
    if i < |items| - 1 {
      assert init[..i] == items[..i];
      assert init[i] == items[i];
      CustomNodesFirstFail(init, i);
    } else {
      assert init == items[..i];
    }
  }

  // ---------------------------------------------------------------------------
  // Users: parse_user_luma_cfg, parse_users_config

  /** `alias.split('-')[-1]`: what follows the last '-'. */
  function LastPart(alias: string): (r: string)
    ensures !HasChar(r, '-')
  {
    var parts := Split(alias, '-');
    parts[|parts| - 1]
  }

  /**
   * Python's `key in v`: a substring of a string, an item of a list, a key
   * of a dict; any other value cannot be searched (TypeError).
   */
  function In(key: string, v: Value): (r: Result<bool>)
    ensures r.Fail? <==> !(v.VStr? || v.VList? || v.VDict?)
    ensures r.Fail? ==> r.error == TypeError
    ensures v.VStr? ==> r == Ok(Contains(v.s, key))
    ensures v.VList? ==> r == Ok(VStr(key) in v.items)
    ensures v.VDict? ==> r == Ok(key in v.fields)
  {
    match v
    case VStr(s) => Ok(Contains(s, key))
    case VList(items) => Ok(VStr(key) in items)
    case VDict(fields) => Ok(key in fields)
    case _ => Fail(TypeError)
  }

  /**
   * `service_name_to_alias_mapping(name)` for a name of any type: the value
   * of the first key of `table`, in order, that `in` finds in the name, None
   * when it finds none; a name `in` cannot search is a TypeError at the
   * first key. On a string it is the substring search of NamesAndPaths.
   */
  function AliasIn(table: seq<(string, string)>, name: Value): (r: Result<Option<string>>)
    ensures r.Fail? <==> table != [] && In(table[0].0, name).Fail?
    ensures r.Fail? ==> r.error == TypeError
    ensures r.Ok? && r.value.None? ==> forall i :: 0 <= i < |table| ==> In(table[i].0, name) == Ok(false)
    ensures r.Ok? && r.value.Some? ==>
              exists i :: 0 <= i < |table| && In(table[i].0, name) == Ok(true) && r.value.value == table[i].1 &&
                          forall j :: 0 <= j < i ==> In(table[j].0, name) == Ok(false)
    ensures name.VStr? ==> r == Ok(FirstContained(table, name.s))
  {
    if table == [] then Ok(None)
    else
      var found :- In(table[0].0, name);
      if found then Ok(Some(table[0].1))
      else
        var r := AliasIn(table[1..], name);
        assert forall i :: 1 <= i < |table| ==> table[i] == table[1..][i - 1];
        r
  }

  /** The provider a LUMA entry names: `prov_cfg.get('provider')`. */
  function ProviderOf(prov: map<string, Value>): Value
  {
    if "provider" in prov then prov["provider"] else VNone
  }

  /**
   * One provider of a user's LUMA list: 'provider' is dropped and 'name'
   * holds the last part of the provider's alias. A non-dict entry is an
   * AttributeError (`get`); a provider the alias search cannot search
   * (missing, a number, a boolean) a TypeError; one in which no alias key
   * is found an AttributeError (`None.split`). A list or a dict provider is
   * searched for the keys among its items or keys.
   */
  function LumaEntry(prov: Value): (r: Result<Value>)
    ensures !prov.VDict? ==> r == Fail(AttributeError)
    ensures prov.VDict? ==>
              var alias := AliasIn(SERVICE_MAPPING, ProviderOf(prov.fields));
              (alias.Fail? ==> r == Fail(TypeError)) &&
              (alias == Ok(None) ==> r == Fail(AttributeError)) &&
              (alias.Ok? && alias.value.Some? ==>
                 r == Ok(VDict((prov.fields - {"provider"})["name" := VStr(LastPart(alias.value.value))])))
    ensures prov.VDict? && "provider" in prov.fields && prov.fields["provider"].VStr? ==>
              (r.Ok? <==> ServiceNameToAlias(prov.fields["provider"].s).Some?) &&
              (r.Ok? ==> r.value == VDict((prov.fields - {"provider"})["name" :=
                                          VStr(LastPart(ServiceNameToAlias(prov.fields["provider"].s).value))]))
  {
    if !prov.VDict? then Fail(AttributeError)
    else
      var alias :- AliasIn(SERVICE_MAPPING, ProviderOf(prov.fields));
      match alias
      case None => Fail(AttributeError)
      case Some(a) => Ok(VDict((prov.fields - {"provider"})["name" := VStr(LastPart(a))]))
  }

  /** The list `parse_user_luma_cfg(luma)` returns. */
  function LumaValue(luma: Value): Result<Value>
  {
    var items :- Iterate(luma, AttributeError);
    var parsed :- MapAll(items, LumaEntry);
    Ok(VList(parsed))
  }

  /** `parse_user_luma_cfg(luma)`, appending one parsed provider at a time. */
  method ParseUserLumaCfg(luma: Value) returns (r: Result<Value>)
    ensures r == LumaValue(luma)
  {
    var items := Iterate(luma, AttributeError);
    if items.Fail? {
      return Fail(items.error);
    }
    var parsed := MapEach(items.value, LumaEntry);
    if parsed.Fail? {
      return Fail(parsed.error);
    }
    r := Ok(VList(parsed.value));
  }

  /**
   * The parsed LUMA list has one entry per provider, in order, each parsed
   * by `LumaEntry`.
   */
  lemma LumaValueEffect(luma: Value)
    requires luma.VList? && LumaValue(luma).Ok?
    ensures var parsed := LumaValue(luma).value;
            parsed.VList? && |parsed.items| == |luma.items| &&
            forall i :: 0 <= i < |luma.items| ==> LumaEntry(luma.items[i]) == Ok(parsed.items[i])
  {
  }

  /** The onepanel identity provider given to a user without one. */
  function OnepanelIdp(patch: bool, userType: Value): Value
  {
    VDict(map["onepanel" := VDict(map["mode" := VStr(if patch then "rest" else "config"),
                                      "enabled" := VBool(true),
                                      "type" := userType])])
  }

  /** The user's field `key`, None when absent. */
  function Field(fields: map<string, Value>, key: string): Value
  {
    if key in fields then fields[key] else VNone
  }

  /**
   * One user of `parse_users_config`: a user without (truthy) identity
   * providers gets the onepanel one, and a truthy LUMA list is parsed.
   */
  function ParseUser(user: Value, patch: bool): Result<Value>
  {
    if !user.VDict? then Fail(AttributeError)
    else
      var typed := Field(user.fields, "type");
      var withIdps := if Truthy(Field(user.fields, "idps")) then user.fields
                      else user.fields["idps" := OnepanelIdp(patch, if "type" in user.fields then typed else VStr("regular"))];
      if Truthy(Field(withIdps, "luma")) then
        var luma :- LumaValue(withIdps["luma"]);
        Ok(VDict(withIdps["luma" := luma]))
      else Ok(VDict(withIdps))
  }

  function UserStep(patch: bool): Value -> Result<Value>
  {
    user => ParseUser(user, patch)
  }

  /** The value `parse_users_config` stores under 'users'. */
  function UsersValue(users: Value, patch: bool): Result<Value>
  {
    if users == VBool(false) then Ok(VList([]))
    else
      var items :- Iterate(users, AttributeError);
      var parsed :- MapAll(items, UserStep(patch));
      Ok(if users.VList? then VList(parsed) else users)
  }

  /** The service's values after `parse_users_config(users, values, patch)`. */
  function UsersConfig(values: Value, users: Value, patch: bool): Result<Value>
  {
    var stored :- UsersValue(users, patch);
    SetKey(values, "users", stored)
  }

  /**
   * A parsed user keeps its identity providers when it has some; otherwise
   * it gets the onepanel provider, in 'rest' mode exactly when patching,
   * enabled, with the user's type ('regular' when it has none). Every key
   * but 'idps' and 'luma' is kept.
   */
  lemma UserIdps(user: Value, patch: bool)
    requires ParseUser(user, patch).Ok?
    ensures var after := ParseUser(user, patch).value;
            user.VDict? && after.VDict? &&
            (forall k :: k in user.fields && k != "idps" && k != "luma" ==>
               k in after.fields && after.fields[k] == user.fields[k]) &&
            "idps" in after.fields &&
            (Truthy(Field(user.fields, "idps")) ==> after.fields["idps"] == user.fields["idps"]) &&
            (!Truthy(Field(user.fields, "idps")) ==>
               var idp := after.fields["idps"];
               idp == OnepanelIdp(patch, if "type" in user.fields then user.fields["type"] else VStr("regular")) &&
               (idp.fields["onepanel"].fields["mode"] == VStr("rest") <==> patch))
  {
  }

  /** With False the users are []; a list keeps its length and order. */
  lemma UsersConfigEffect(values: Value, users: Value, patch: bool)
    ensures values.VDict? ==> UsersConfig(values, VBool(false), patch) == Ok(VDict(values.fields["users" := VList([])]))
    ensures users.VList? && UsersConfig(values, users, patch).Ok? ==>
              var after := UsersConfig(values, users, patch).value;
              after.VDict? && "users" in after.fields && after.fields["users"].VList? &&
              |after.fields["users"].items| == |users.items| &&
              forall i :: 0 <= i < |users.items| ==> ParseUser(users.items[i], patch) == Ok(after.fields["users"].items[i])
  {
  }

  /** `parse_users_config(users, values, patch)`, one user at a time. */
  method ParseUsersConfig(users: Value, values: Doc, patch: bool) returns (r: Result<()>)
    modifies values
    ensures var after := UsersConfig(old(values.root), users, patch);
            if after.Ok? then r == Ok(()) && values.root == after.value
            else r == Fail(after.error) && values.root == old(values.root)
  {
    var stored: Value;
    if users == VBool(false) {
      stored := VList([]);
    } else {
      var items := Iterate(users, AttributeError);
      if items.Fail? {
        return Fail(items.error);
      }
      var parsed := MapEach(items.value, UserStep(patch));
      if parsed.Fail? {
        return Fail(parsed.error);
      }
      stored := if users.VList? then VList(parsed.value) else users;
    }
    if !values.root.VDict? {
      return Fail(TypeError);
    }
    values.root := VDict(values.root.fields["users" := stored]);
    r := Ok(());
  }

  // ---------------------------------------------------------------------------
  // Groups: parse_groups_config

  /** The onezone identity provider given to a group without one. */
  const ONEZONE_IDP: Value := VDict(map["onezone" := VDict(map["enabled" := VBool(true)])])

  /** One group: a group without (truthy) identity providers gets the onezone one. */
  function GroupEntry(group: Value): (r: Result<Value>)
    ensures r.Ok? <==> group.VDict?
    ensures r.Ok? ==> r.value.VDict? && "idps" in r.value.fields &&
                      (forall k :: k in group.fields && k != "idps" ==> k in r.value.fields && r.value.fields[k] == group.fields[k]) &&
                      (Truthy(Field(group.fields, "idps")) ==> r.value == group) &&
                      (!Truthy(Field(group.fields, "idps")) ==> r.value.fields["idps"] == ONEZONE_IDP)
  {
    if !group.VDict? then Fail(AttributeError)
    else if Truthy(Field(group.fields, "idps")) then Ok(group)
    else Ok(VDict(group.fields["idps" := ONEZONE_IDP]))
  }

  /** The groups after the loop over them (False is not iterated). */
  function GroupsValue(groups: Value): Result<Value>
  {
    if groups == VBool(false) then Ok(VList([]))
    else
      var items :- Iterate(groups, AttributeError);
      var parsed :- MapAll(items, GroupEntry);
      Ok(if groups.VList? then VList(parsed) else groups)
  }

  /**
   * `parse_groups_config(groups, values)` as written: the final assignment
   * of `groups_cfg` also runs after the branch that stored [] for False.
   */
  function GroupsConfigAsWritten(values: Value, groups: Value): Result<Value>
  {
    if groups == VBool(false) then
      var cleared :- SetKey(values, "groups", VList([]));
      SetKey(cleared, "groups", groups)
    else
      var parsed :- GroupsValue(groups);
      SetKey(values, "groups", parsed)
  }

  /** As written, disabling groups with False leaves 'groups' False rather than []. */
  lemma GroupsFalseOverwritten(values: Value)
    requires values.VDict?
    ensures GroupsConfigAsWritten(values, VBool(false)) == Ok(VDict(values.fields["groups" := VBool(false)]))
    ensures GroupsConfigAsWritten(values, VBool(false)) != GroupsConfig(values, VBool(false))
  {
    assert values.fields["groups" := VList([])]["groups" := VBool(false)] == values.fields["groups" := VBool(false)];
    assert values.fields["groups" := VBool(false)]["groups"] != values.fields["groups" := VList([])]["groups"];
  }

  /**
   * The intended `parse_groups_config`: False gives [], as for users and
   * spaces; anything else is stored after the loop.
   */
  function GroupsConfig(values: Value, groups: Value): Result<Value>
  {
    var parsed :- GroupsValue(groups);
    SetKey(values, "groups", parsed)
  }

  /**
   * The corrected step stores [] for False, agrees with the code as written
   * on every other input, and gives each listed group without identity
   * providers the onezone one.
   */
  lemma GroupsConfigEffect(values: Value, groups: Value)
    ensures values.VDict? ==> GroupsConfig(values, VBool(false)) == Ok(VDict(values.fields["groups" := VList([])]))
    ensures groups != VBool(false) ==> GroupsConfig(values, groups) == GroupsConfigAsWritten(values, groups)
    ensures groups.VList? && GroupsConfig(values, groups).Ok? ==>
              var after := GroupsConfig(values, groups).value;
              after.VDict? && "groups" in after.fields && after.fields["groups"].VList? &&
              |after.fields["groups"].items| == |groups.items| &&
              forall i :: 0 <= i < |groups.items| ==> GroupEntry(groups.items[i]) == Ok(after.fields["groups"].items[i])
  {
  }

  /**
   * `parse_groups_config(groups, values)` as written: False stores [], and
   * then the final assignment stores `groups` itself over it.
   */
  method ParseGroupsConfig(groups: Value, values: Doc) returns (r: Result<()>)
    modifies values
    ensures var after := GroupsConfigAsWritten(old(values.root), groups);
            if after.Ok? then r == Ok(()) && values.root == after.value
            else r == Fail(after.error) && values.root == old(values.root)
  {
    var stored := groups;
    if groups == VBool(false) {
      if !values.root.VDict? {
        return Fail(TypeError);
      }
      values.root := VDict(values.root.fields["groups" := VList([])]);
    } else {
      var items := Iterate(groups, AttributeError);
      if items.Fail? {
        return Fail(items.error);
      }
      var parsed := MapEach(items.value, GroupEntry);
      if parsed.Fail? {
        return Fail(parsed.error);
      }
      stored := if groups.VList? then VList(parsed.value) else groups;
    }
    if !values.root.VDict? {
      return Fail(TypeError);
    }
    values.root := VDict(values.root.fields["groups" := stored]);
    r := Ok(());
  }

  // ---------------------------------------------------------------------------
  // Spaces: parse_spaces_cfg

  /**
   * One support of a space: its provider is replaced by the last part of the
   * provider's alias. A non-dict support is a TypeError, a missing provider
   * a KeyError, a provider the alias search cannot search (a number, a
   * boolean, None) a TypeError, one in which no alias key is found an
   * AttributeError (`None.split`). A list or a dict provider is searched for
   * the keys among its items or keys.
   */
  function SupportEntry(support: Value): (r: Result<Value>)
    ensures !support.VDict? ==> r == Fail(TypeError)
    ensures support.VDict? && "provider" !in support.fields ==> r == Fail(KeyError("provider"))
    ensures support.VDict? && "provider" in support.fields ==>
              var alias := AliasIn(SERVICE_MAPPING, support.fields["provider"]);
              (alias.Fail? ==> r == Fail(TypeError)) &&
              (alias == Ok(None) ==> r == Fail(AttributeError)) &&
              (alias.Ok? && alias.value.Some? ==>
                 r == Ok(VDict(support.fields["provider" := VStr(LastPart(alias.value.value))])))
    ensures support.VDict? && "provider" in support.fields && support.fields["provider"].VStr? ==>
              (r.Ok? <==> ServiceNameToAlias(support.fields["provider"].s).Some?) &&
              (r.Ok? ==> r.value == VDict(support.fields["provider" :=
                                            VStr(LastPart(ServiceNameToAlias(support.fields["provider"].s).value))]))
  {
    var provider :- Lookup(support, "provider");
    var alias :- AliasIn(SERVICE_MAPPING, provider);
    match alias
    case None => Fail(AttributeError)
    case Some(a) => Ok(VDict(support.fields["provider" := VStr(LastPart(a))]))
  }

  /** A space's owner, when truthy, is also its user. */
  function WithUser(space: map<string, Value>): map<string, Value>
  {
    if Truthy(Field(space, "owner")) then space["user" := space["owner"]] else space
  }

  /**
   * One space: its owner becomes its user and each support is parsed
   * (`space.get('supports', [])`, so a space without supports is kept).
   */
  function SpaceEntry(space: Value): Result<Value>
  {
    if !space.VDict? then Fail(AttributeError)
    else
      var withUser := WithUser(space.fields);
      var supports := Field(withUser, "supports");
      if "supports" !in withUser then Ok(VDict(withUser))
      else
        var items :- Iterate(supports, TypeError);
        var parsed :- MapAll(items, SupportEntry);
        Ok(VDict(if supports.VList? then withUser["supports" := VList(parsed)] else withUser))
  }

  /** The configuration after `parse_spaces_cfg(spaces, cfg)`. */
  function SpacesConfig(cfg: Value, spaces: Value): Result<Value>
  {
    if spaces == VBool(false) then SetKey(cfg, "spaces", VList([]))
    else if spaces.VList? then
      var parsed :- MapAll(spaces.items, SpaceEntry);
      SetKey(cfg, "spaces", VList(parsed))
    else Ok(cfg)
  }

  /**
   * A parsed space keeps every key but 'user' and 'supports', copies a
   * truthy owner to 'user', and has one parsed support per support, in order.
   */
  lemma SpaceEffect(space: Value)
    requires SpaceEntry(space).Ok?
    ensures var after := SpaceEntry(space).value;
            space.VDict? && after.VDict? &&
            (forall k :: k in space.fields && k != "user" && k != "supports" ==>
               k in after.fields && after.fields[k] == space.fields[k]) &&
            (Truthy(Field(space.fields, "owner")) ==> "user" in after.fields && after.fields["user"] == space.fields["owner"]) &&
            ("supports" in space.fields && space.fields["supports"].VList? ==>
               var supports := space.fields["supports"].items;
               "supports" in after.fields && after.fields["supports"].VList? &&
               |after.fields["supports"].items| == |supports| &&
               forall i :: 0 <= i < |supports| ==> SupportEntry(supports[i]) == Ok(after.fields["supports"].items[i]))
  {
  }

  /** With False the spaces are []; other non-lists leave the configuration alone. */
  lemma SpacesConfigEffect(cfg: Value, spaces: Value)
    ensures cfg.VDict? ==> SpacesConfig(cfg, VBool(false)) == Ok(VDict(cfg.fields["spaces" := VList([])]))
    ensures !spaces.VList? && spaces != VBool(false) ==> SpacesConfig(cfg, spaces) == Ok(cfg)
    ensures spaces.VList? && SpacesConfig(cfg, spaces).Ok? ==>
              var after := SpacesConfig(cfg, spaces).value;
              after.VDict? && "spaces" in after.fields && after.fields["spaces"].VList? &&
              |after.fields["spaces"].items| == |spaces.items| &&
              forall i :: 0 <= i < |spaces.items| ==> SpaceEntry(spaces.items[i]) == Ok(after.fields["spaces"].items[i])
  {
  }

  lemma AliasOfFirstProvider()
    ensures ServiceNameToAlias("oneprovider-1") == Some("oneprovider-krakow")
  {
    AliasOfOrdinalName("");
    assert "oneprovider-1" + "" == "oneprovider-1";
  }

  lemma LastPartOfKrakow()
    ensures LastPart("oneprovider-krakow") == "krakow"
  {
    assert !HasChar("krakow", '-') by {
      forall i | 0 <= i < |"krakow"| ensures "krakow"[i] != '-' {
      }
    }
    assert "oneprovider" + "-" + "krakow" == "oneprovider-krakow";
    SplitLast("oneprovider", '-', "krakow");
  }

  /**
   * A support whose provider has an alias is accepted and names the
   * alias's last part; 'oneprovider-1' thus becomes 'krakow'.
   */
  lemma SupportEntryOfAlias(support: Value, name: string, alias: string)
    requires support.VDict? && "provider" in support.fields && support.fields["provider"] == VStr(name)
    requires ServiceNameToAlias(name) == Some(alias)
    ensures SupportEntry(support) == Ok(VDict(support.fields["provider" := VStr(LastPart(alias))]))
  {
    assert Lookup(support, "provider") == Ok(VStr(name));
  }

  /** One space of `parse_spaces_cfg`, parsing its supports one at a time. */
  method ParseSpace(space: Value) returns (r: Result<Value>)
    ensures r == SpaceEntry(space)
  {
    if !space.VDict? {
      return Fail(AttributeError);
    }
    var withUser := WithUser(space.fields);
    if "supports" !in withUser {
      return Ok(VDict(withUser));
    }
    var supports := withUser["supports"];
    var items := Iterate(supports, TypeError);
    if items.Fail? {
      return Fail(items.error);
    }
    var parsed := MapEach(items.value, SupportEntry);
    if parsed.Fail? {
      return Fail(parsed.error);
    }
    r := Ok(VDict(if supports.VList? then withUser["supports" := VList(parsed.value)] else withUser));
  }

  /** The loop of `parse_spaces_cfg` over a list of spaces. */
  method ParseSpaces(spaces: seq<Value>) returns (r: Result<seq<Value>>)
    ensures r == MapAll(spaces, SpaceEntry)
  {
    var parsed: seq<Value> := [];
    var i := 0;
    while i < |spaces|
      invariant 0 <= i <= |spaces|
      invariant MapAll(spaces[..i], SpaceEntry) == Ok(parsed)
    {
      var space := ParseSpace(spaces[i]);
      if space.Fail? {
        MapAllFirstFail(spaces, SpaceEntry, i);
        return Fail(space.error);
      }
      MapAllSnoc(spaces, SpaceEntry, i, parsed);
      parsed := parsed + [space.value];
      i := i + 1;
    }
    assert spaces[..i] == spaces;
    r := Ok(parsed);
  }

  /** `parse_spaces_cfg(spaces, cfg)`. */
  method ParseSpacesCfg(spaces: Value, cfg: Doc) returns (r: Result<()>)
    modifies cfg
    ensures var after := SpacesConfig(old(cfg.root), spaces);
            if after.Ok? then r == Ok(()) && cfg.root == after.value
            else r == Fail(after.error) && cfg.root == old(cfg.root)
  {
    if spaces == VBool(false) {
      if !cfg.root.VDict? {
        return Fail(TypeError);
      }
      cfg.root := VDict(cfg.root.fields["spaces" := VList([])]);
      return Ok(());
    }
    if !spaces.VList? {
      return Ok(());
    }
    var parsed := ParseSpaces(spaces.items);
    if parsed.Fail? {
      return Fail(parsed.error);
    }
    if !cfg.root.VDict? {
      return Fail(TypeError);
    }
    cfg.root := VDict(cfg.root.fields["spaces" := VList(parsed.value)]);
    r := Ok(());
  }

  // ---------------------------------------------------------------------------
  // set_release_name_override

  /** The configuration after `set_release_name_override(cfg, release)`. */
  function ReleaseNameOverride(cfg: Value, release: string): Result<Value>
  {
    var global :- GetOr(cfg, "global", EmptyDict);
    var global' :- SetKey(global, "releaseNameOverride", VStr(release));
    SetKey(cfg, "global", global')
  }

  /**
   * The release name lands in 'global' next to the other global settings,
   * which are kept, as is every other key; an existing 'global' that is not
   * a dict is a TypeError.
   */
  lemma ReleaseNameOverrideEffect(cfg: Value, release: string)
    ensures cfg.VDict? && "global" in cfg.fields && !cfg.fields["global"].VDict? ==>
              ReleaseNameOverride(cfg, release) == Fail(TypeError)
    ensures cfg.VDict? && ("global" !in cfg.fields || cfg.fields["global"].VDict?) ==>
              ReleaseNameOverride(cfg, release).Ok? &&
              var after := ReleaseNameOverride(cfg, release).value;
              after.VDict? && after.fields.Keys == cfg.fields.Keys + {"global"} &&
              (forall k :: k in cfg.fields && k != "global" ==> after.fields[k] == cfg.fields[k]) &&
              var global := after.fields["global"];
              global.VDict? && "releaseNameOverride" in global.fields &&
              global.fields["releaseNameOverride"] == VStr(release) &&
              ("global" in cfg.fields ==>
                 forall k :: k in cfg.fields["global"].fields && k != "releaseNameOverride" ==>
                   k in global.fields && global.fields[k] == cfg.fields["global"].fields[k])
  {
  }

  /** `set_release_name_override(cfg, release)`. */
  method SetReleaseNameOverride(cfg: Doc, release: string) returns (r: Result<()>)
    modifies cfg
    ensures var after := ReleaseNameOverride(old(cfg.root), release);
            if after.Ok? then r == Ok(()) && cfg.root == after.value
            else r == Fail(after.error) && cfg.root == old(cfg.root)
  {
    var after := ReleaseNameOverride(cfg.root, release);
    if after.Fail? {
      return Fail(after.error);
    }
    cfg.root := after.value;
    r := Ok(());
  }
}
