/**
 * Pod helpers (scripts/utils/k8s/pods.py): the kubectl and rsync argument
 * vectors, pod classification, pod lookup by substring, and the numbering
 * of oneclient pods. The namespace, which the scripts read from the user
 * configuration, and the pod listing, which they fetch from the cluster, are
 * parameters.
 */
module Pods {
  import opened Util
  import opened Order
  import opened NamesAndPaths
  import opened KubernetesUtils

  /** A command given to `exec_cmd`: a list is spliced in, anything else is one token. */
  datatype Command = Argv(tokens: seq<string>) | Line(text: string)

  function Tokens(c: Command): seq<string>
  {
    match c
    case Argv(t) => t
    case Line(s) => [s]
  }

  /** `exec_cmd(pod, command, it)`. */
  method ExecCmd(namespace: string, pod: string, command: Command, it: bool) returns (cmd: seq<string>)
    ensures cmd == ["kubectl", "--namespace", namespace, "exec"] + (if it then ["-it"] else []) + [pod, "--"] + Tokens(command)
    ensures |cmd| == (if it then 7 else 6) + |Tokens(command)|
    ensures cmd[|cmd| - |Tokens(command)|..] == Tokens(command)
  {
    cmd := ["kubectl", "--namespace", namespace, "exec"];
    if it {
      cmd := cmd + ["-it"];
    }
    cmd := cmd + [pod, "--"];
    match command
    case Argv(tokens) =>
      cmd := cmd + tokens;
    case Line(text) =>
      cmd := cmd + [text];
  }

  /** `a, b = s.split(':')`: a ValueError unless there is exactly one ':'. */
  function SplitPodPath(s: string): (r: Result<(string, string)>)
    ensures r.Ok? <==> |Split(s, ':')| == 2
    ensures r.Ok? ==> r.value.0 + ":" + r.value.1 == s
    ensures r.Ok? ==> !HasChar(r.value.0, ':') && !HasChar(r.value.1, ':')
  {
    var parts := Split(s, ':');
    if |parts| == 2 then
      JoinSplit(s, ':');
      assert Join(parts, ":") == parts[0] + ":" + parts[1];
      Ok((parts[0], parts[1]))
    else Fail(ValueError)
  }

  /** 'pod:path' with neither part holding ':' splits back into its parts. */
  lemma SplitPodPathOf(pod: string, path: string)
    requires !HasChar(pod, ':') && !HasChar(path, ':')
    ensures SplitPodPath(pod + ":" + path) == Ok((pod, path))
  {
    SplitFirst(pod, ':', path);
    SplitNoSep(path, ':');
  }

  /** `copy_to_pod_cmd(source_path, destination)`: source is 'pod:local path'. */
  function CopyToPodCmd(namespace: string, sourcePath: string, destination: string): (r: Result<seq<string>>)
    ensures r.Ok? <==> SplitPodPath(sourcePath).Ok?
    ensures r.Ok? ==> var (pod, src) := SplitPodPath(sourcePath).value;
              r.value == ["kubectl", "--namespace", namespace, "cp", src, pod + ":" + destination]
  {
    var (pod, src) :- SplitPodPath(sourcePath);
    Ok(["kubectl", "--namespace", namespace, "cp", src, pod + ":" + destination])
  }

  /** `copy_from_pod_cmd(source_path, destination)`: source is 'pod:pod path'. */
  function CopyFromPodCmd(namespace: string, sourcePath: string, destination: string): (r: Result<seq<string>>)
    ensures r.Ok? <==> SplitPodPath(sourcePath).Ok?
    ensures r.Ok? ==> var (pod, src) := SplitPodPath(sourcePath).value;
              r.value == ["kubectl", "--namespace", namespace, "cp", pod + ":" + src, destination]
  {
    var (pod, src) :- SplitPodPath(sourcePath);
    Ok(["kubectl", "--namespace", namespace, "cp", pod + ":" + src, destination])
  }

  /** Copying from a pod reads 'pod:path' on the pod side, and copying to one writes 'pod:dest'. */
  lemma CopyCmdSides(namespace: string, pod: string, path: string, dest: string)
    requires !HasChar(pod, ':') && !HasChar(path, ':')
    ensures CopyFromPodCmd(namespace, pod + ":" + path, dest) ==
            Ok(["kubectl", "--namespace", namespace, "cp", pod + ":" + path, dest])
    ensures CopyToPodCmd(namespace, pod + ":" + path, dest) ==
            Ok(["kubectl", "--namespace", namespace, "cp", path, pod + ":" + dest])
  {
    SplitPodPathOf(pod, path);
  }

  /** The `--rsh` value: kubectl exec into the pod, in the namespace when one is set. */
  function RshFor(namespace: string, pod: string): string
  {
    if namespace != [] then "kubectl --namespace " + namespace + " exec " + pod + " -i -- "
    else "kubectl exec " + pod + " -i -- "
  }

  /**
   * `rsync_cmd(source_path, destination_path, delete)`: the side holding
   * ':' is the pod ('pod:path'); rsync runs on the pod through kubectl exec.
   */
  method RsyncCmd(namespace: string, sourcePath: string, destinationPath: string, delete: bool)
    returns (r: Result<seq<string>>)
    ensures Contains(sourcePath, ":") ==> r.Ok? == SplitPodPath(sourcePath).Ok?
    ensures !Contains(sourcePath, ":") ==> r.Ok? == SplitPodPath(destinationPath).Ok?
    ensures r.Ok? ==>
      var base := ["rsync", "--info=progress2", "--archive", "--blocking-io"] + (if delete then ["--delete"] else []);
      var podSide := if Contains(sourcePath, ":") then sourcePath else destinationPath;
      var (pod, podPath) := SplitPodPath(podSide).value;
      var ends := if Contains(sourcePath, ":") then ["rsync:.", destinationPath] else [sourcePath, "rsync:."];
      r.value == base + ["--rsync-path=" + podPath, "--rsh=" + RshFor(namespace, pod)] + ends
  {
    var cmd := ["rsync", "--info=progress2", "--archive", "--blocking-io"];
    if delete {
      cmd := cmd + ["--delete"];
    }
    if Contains(sourcePath, ":") {
      var split := SplitPodPath(sourcePath);
      if split.Fail? {
        return Fail(split.error);
      }
      var (pod, podPath) := split.value;
      cmd := cmd + ["--rsync-path=" + podPath, "--rsh=" + RshFor(namespace, pod), "rsync:.", destinationPath];
    } else {
      var split := SplitPodPath(destinationPath);
      if split.Fail? {
        return Fail(split.error);
      }
      var (pod, podPath) := split.value;
      cmd := cmd + ["--rsync-path=" + podPath, "--rsh=" + RshFor(namespace, pod), sourcePath, "rsync:."];
    }
    r := Ok(cmd);
  }

  /** `get_node_num(pod_name)`: the text after the last '-'. */
  function GetNodeNum(podName: string): (r: string)
    ensures !HasChar(r, '-')
  {
    var parts := Split(podName, '-');
    parts[|parts| - 1]
  }

  /** The node number is whatever follows the last '-' of the pod name. */
  lemma GetNodeNumOf(prefix: string, k: string)
    requires !HasChar(k, '-')
    ensures GetNodeNum(prefix + "-" + k) == k
  {
    SplitLast(prefix, '-', k);
  }

  /** `is_job(pod)`: the first owner reference is a Job. */
  predicate IsJob(pod: Component)
  {
    pod.owners.Some? && pod.owners.value != [] && pod.owners.value[0] == "Job"
  }

  /** `is_pod(pod)`: the first owner reference is not a Job, or there are no references at all (None). */
  predicate IsPod(pod: Component)
  {
    if pod.owners.Some? && pod.owners.value != [] then pod.owners.value[0] != "Job"
    else pod.owners.None?
  }

  /** Owned objects are exactly one of job and pod; unowned ones are pods; an empty reference list is neither. */
  lemma JobOrPod(pod: Component)
    ensures pod.owners.Some? && pod.owners.value != [] ==> (IsJob(pod) <==> !IsPod(pod))
    ensures pod.owners.None? ==> IsPod(pod) && !IsJob(pod)
    ensures pod.owners == Some([]) ==> !IsPod(pod) && !IsJob(pod)
  {
  }

  /** `list_pods()` over the namespace listing: the objects that are pods. */
  function ListPods(listing: seq<Component>): (r: seq<Component>)
    ensures forall p :: p in r <==> p in listing && IsPod(p)
  {
    if listing == [] then []
    else
      var rest := ListPods(listing[1..]);
      assert forall p :: p in listing <==> p == listing[0] || p in listing[1..];
      if IsPod(listing[0]) then [listing[0]] + rest else rest
  }

  /** `match_pods(substring)`: the pods whose names match, in listing order. */
  function MatchPods(substring: string, listing: seq<Component>): (r: seq<Component>)
    ensures forall p :: p in r <==> p in listing && IsPod(p) && NameMatches(substring, p.name)
  {
    MatchComponent(substring, ListPods(listing))
  }

  /**
   * What `match_pod_and_run` does: the pods `fun` is applied to, in order;
   * whether it was applied as `fun(pod, fun_args, multiple=True)`, the
   * argument tuple packed and the value dropped, rather than as
   * `fun(pod, *fun_args)`; and the value returned.
   */
  datatype RunOutcome<T> = RunOutcome(calledOn: seq<Component>, multiple: bool, result: Option<T>)

  /**
   * `match_pod_and_run(pod_substring, fun, *fun_args, allow_multiple)`;
   * `fun` stands for `fun` with `fun_args` unpacked after the pod.
   */
  function MatchPodAndRun<T>(substring: string, listing: seq<Component>, fun: Component -> T,
                             allowMultiple: bool): (r: RunOutcome<T>)
    ensures |r.calledOn| == 1 <==> substring != [] && |MatchPods(substring, listing)| == 1
    ensures r.result.Some? <==> |r.calledOn| == 1
    ensures |r.calledOn| == 1 ==> r.calledOn == MatchPods(substring, listing) && !r.multiple
                                  && r.result == Some(fun(r.calledOn[0]))
    ensures |r.calledOn| > 1 <==> substring != [] && |MatchPods(substring, listing)| > 1 && allowMultiple
    ensures |r.calledOn| > 1 ==> r.calledOn == MatchPods(substring, listing) && r.multiple
    ensures r.calledOn == [] ==> !r.multiple
  {
    if substring == [] then RunOutcome([], false, None)
    else
      var matching := MatchPods(substring, listing);
      if matching == [] then RunOutcome([], false, None)
      else if |matching| == 1 then RunOutcome(matching, false, Some(fun(matching[0])))
      else if allowMultiple then RunOutcome(matching, true, None)
      else RunOutcome([], false, None)
  }

  /** The value of the first variable called `name`, or None. */
  function EnvLookup(envs: seq<EnvVar>, name: string): (r: Option<string>)
    ensures (forall i :: 0 <= i < |envs| ==> envs[i].name != name) ==> r.None?
    ensures forall i :: (0 <= i < |envs| && envs[i].name == name &&
              (forall j :: 0 <= j < i ==> envs[j].name != name)) ==> r == envs[i].value
  {
    if envs == [] then None
    else if envs[0].name == name then envs[0].value
    else
      var r := EnvLookup(envs[1..], name);
      assert forall i :: 1 <= i < |envs| ==> envs[i] == envs[1..][i - 1];
      r
  }

  /** `get_env_variable(pod, env_name)`: a search of the first container's variables. */
  method GetEnvVariable(pod: Component, name: string) returns (r: Option<string>)
    ensures r == EnvLookup(pod.env, name)
  {
    var i := 0;
    while i < |pod.env|
      invariant 0 <= i <= |pod.env|
      invariant forall j :: 0 <= j < i ==> pod.env[j].name != name
      invariant EnvLookup(pod.env, name) == EnvLookup(pod.env[i..], name)
    {
      if pod.env[i].name == name {
        return pod.env[i].value;
      }
      assert pod.env[i..][1..] == pod.env[i + 1..];
      i := i + 1;
    }
    return None;
  }

  // ---------------------------------------------------------------------------
  // client_alias_to_pod_mapping

  /** `get_service_type(pod)`: the 'component' label. */
  function GetServiceType(pod: Component): Option<string>
  {
    if "component" in pod.labels then Some(pod.labels["component"]) else None
  }

  /** The client pods of the listing, in order. */
  function ClientPods(pods: seq<Component>): (r: seq<Component>)
    ensures forall p :: p in r <==> p in pods && GetServiceType(p) == Some("oneclient")
  {
    if pods == [] then []
    else
      var rest := ClientPods(pods[1..]);
      assert forall p :: p in pods <==> p == pods[0] || p in pods[1..];
      if GetServiceType(pods[0]) == Some("oneclient") then [pods[0]] + rest else rest
  }

  /**
   * The provider alias of a client pod; a pod without a provider host makes
   * the substring test run on None, which is a TypeError.
   */
  function ProviderAlias(pod: Component): Result<Option<string>>
  {
    match EnvLookup(pod.env, "ONECLIENT_PROVIDER_HOST")
    case None => Fail(TypeError)
    case Some(host) => Ok(ServiceNameToAlias(host))
  }

  /** The pods of `clients` filed under `alias`, in order. */
  function GroupOf(clients: seq<(Option<string>, Component)>, alias: Option<string>): (r: seq<Component>)
  {
    if clients == [] then []
    else if clients[0].0 == alias then [clients[0].1] + GroupOf(clients[1..], alias)
    else GroupOf(clients[1..], alias)
  }

  /** The aliases in order of first appearance (the key order of the defaultdict). */
  function KeysOf(clients: seq<(Option<string>, Component)>): (r: seq<Option<string>>)
    ensures Distinct(r)
    ensures forall i :: 0 <= i < |clients| ==> clients[i].0 in r
    ensures forall a :: a in r ==> exists i :: 0 <= i < |clients| && clients[i].0 == a
  {
    if clients == [] then []
    else
      var init := KeysOf(clients[..|clients| - 1]);
      var a := clients[|clients| - 1].0;
      assert forall i :: 0 <= i < |clients| - 1 ==> clients[..|clients| - 1][i] == clients[i];
      if a in init then init else init + [a]
  }

  function Strings(aliases: seq<Option<string>>): (r: seq<string>)
    requires forall a :: a in aliases ==> a.Some?
    ensures |r| == |aliases| && forall i :: 0 <= i < |r| ==> aliases[i] == Some(r[i])
  {
    if aliases == [] then [] else [aliases[0].value] + Strings(aliases[1..])
  }

  function Somes(names: seq<string>): (r: seq<Option<string>>)
    ensures |r| == |names| && forall i :: 0 <= i < |r| ==> r[i] == Some(names[i])
  {
    if names == [] then [] else [Some(names[0])] + Somes(names[1..])
  }

  /**
   * `sorted(list(keys))`: strings sort by Python's string order, a lone
   * None sorts trivially, and None beside a string is a TypeError.
   */
  function SortAliases(keys: seq<Option<string>>): Result<seq<Option<string>>>
  {
    if None in keys then
      if |keys| > 1 then Fail(TypeError) else Ok(keys)
    else Ok(Somes(SortStrings(Strings(keys))))
  }

  /** The client pods, alias group by alias group, each group sorted by pod name. */
  function Ordered(clients: seq<(Option<string>, Component)>, order: seq<Option<string>>): seq<Component>
  {
    if order == [] then []
    else SortBy(GroupOf(clients, order[0]), GetName) + Ordered(clients, order[1..])
  }

  function ClientKey(i: nat): string
  {
    "oneclient-" + NatToString(i)
  }

  /** Numbering from `i`: each pod gets 'oneclient-i' in both directions, in order. */
  function Numbered(ordered: seq<Component>, i: nat, m: map<string, string>): map<string, string>
    decreases |ordered|
  {
    if ordered == [] then m
    else Numbered(ordered[1..], i + 1, m[ClientKey(i) := ordered[0].name][ordered[0].name := ClientKey(i)])
  }

  /** The pairs (alias, pod) of the client pods, or the first failure. */
  function Aliased(clients: seq<Component>): Result<seq<(Option<string>, Component)>>
  {
    if clients == [] then Ok([])
    else
      var init :- Aliased(clients[..|clients| - 1]);
      var alias :- ProviderAlias(clients[|clients| - 1]);
      Ok(init + [(alias, clients[|clients| - 1])])
  }

  /** What `client_alias_to_pod_mapping` computes, as one expression. */
  function AliasMapping(pods: seq<Component>): Result<map<string, string>>
  {
    var pairs :- Aliased(ClientPods(pods));
    var order :- SortAliases(KeysOf(pairs));
    Ok(Numbered(Ordered(pairs, order), 1, map[]))
  }

  lemma GroupOfSnoc(clients: seq<(Option<string>, Component)>, x: (Option<string>, Component), alias: Option<string>)
    ensures GroupOf(clients + [x], alias) == GroupOf(clients, alias) + (if x.0 == alias then [x.1] else [])
  {
    if clients != [] {
      assert (clients + [x])[1..] == clients[1..] + [x];
      GroupOfSnoc(clients[1..], x, alias);
    }
  }

  lemma KeysOfSnoc(pairs: seq<(Option<string>, Component)>, x: (Option<string>, Component))
    ensures KeysOf(pairs + [x]) == if x.0 in KeysOf(pairs) then KeysOf(pairs) else KeysOf(pairs) + [x.0]
  {
    assert (pairs + [x])[..|pairs|] == pairs;
  }

  lemma AliasedSnoc(clients: seq<Component>, idx: nat, pairs: seq<(Option<string>, Component)>, alias: Option<string>)
    requires idx < |clients| && Aliased(clients[..idx]) == Ok(pairs)
    requires ProviderAlias(clients[idx]) == Ok(alias)
    ensures Aliased(clients[..idx + 1]) == Ok(pairs + [(alias, clients[idx])])
  {
    assert clients[..idx + 1][..idx] == clients[..idx];
  }

  /** Filing one more pair keeps the groups equal to `GroupOf` of the pairs filed so far. */
  lemma GroupsStep(groups: map<Option<string>, seq<Component>>, pairs: seq<(Option<string>, Component)>,
                   x: (Option<string>, Component))
    requires forall a :: a in groups <==> a in KeysOf(pairs)
    requires forall a :: a in groups ==> groups[a] == GroupOf(pairs, a)
    ensures var g := (if x.0 in groups then groups[x.0] else []) + [x.1];
            forall a :: a in groups[x.0 := g] ==> groups[x.0 := g][a] == GroupOf(pairs + [x], a)
  {
    var g := (if x.0 in groups then groups[x.0] else []) + [x.1];
    if x.0 !in groups {
      GroupOfAbsent(pairs, x.0);
    }
    forall a | a in groups[x.0 := g] ensures groups[x.0 := g][a] == GroupOf(pairs + [x], a) {
      GroupOfSnoc(pairs, x, a);
    }
  }

  /** Storing under a key keeps the map's keys those of the list, with a new key appended. */
  lemma SameKeysStep<V>(groups: map<Option<string>, V>, keys: seq<Option<string>>, k: Option<string>, v: V)
    requires forall a :: a in groups <==> a in keys
    ensures k in groups ==> forall a :: a in groups[k := v] <==> a in keys
    ensures k !in groups ==> forall a :: a in groups[k := v] <==> a in keys + [k]
  {
  }

  /** One step of the first loop: the pod is appended to its alias's group, a new alias to the keys. */
  method FileClient(groups: map<Option<string>, seq<Component>>, keys: seq<Option<string>>,
                    ghost pairs: seq<(Option<string>, Component)>, x: (Option<string>, Component))
    returns (groups': map<Option<string>, seq<Component>>, keys': seq<Option<string>>)
    requires keys == KeysOf(pairs)
    requires forall a :: a in groups <==> a in keys
    requires forall a :: a in groups ==> groups[a] == GroupOf(pairs, a)
    ensures keys' == KeysOf(pairs + [x])
    ensures forall a :: a in groups' <==> a in keys'
    ensures forall a :: a in groups' ==> groups'[a] == GroupOf(pairs + [x], a)
  {
    KeysOfSnoc(pairs, x);
    GroupsStep(groups, pairs, x);
    var g := (if x.0 in groups then groups[x.0] else []) + [x.1];
    SameKeysStep(groups, keys, x.0, g);
    if x.0 !in groups {
      keys' := keys + [x.0];
      groups' := groups[x.0 := [x.1]];
    } else {
      keys' := keys;
      groups' := groups[x.0 := groups[x.0] + [x.1]];
    }
  }

  /** The first loop of `client_alias_to_pod_mapping`: files each client pod under its provider alias. */
  method GroupByAlias(clients: seq<Component>)
    returns (r: Result<(map<Option<string>, seq<Component>>, seq<Option<string>>)>,
             ghost pairs: seq<(Option<string>, Component)>)
    ensures r.Fail? ==> Aliased(clients).Fail? && r.error == Aliased(clients).error
    ensures r.Ok? ==> Aliased(clients) == Ok(pairs)
    ensures r.Ok? ==> r.value.1 == KeysOf(pairs)
    ensures r.Ok? ==> forall a :: a in r.value.0 <==> a in r.value.1
    ensures r.Ok? ==> forall a :: a in r.value.0 ==> r.value.0[a] == GroupOf(pairs, a)
  {
    var groups: map<Option<string>, seq<Component>> := map[];
    var keys: seq<Option<string>> := [];
    pairs := [];
    var idx := 0;
    while idx < |clients|
      invariant 0 <= idx <= |clients|
      invariant Aliased(clients[..idx]) == Ok(pairs)
      invariant keys == KeysOf(pairs)
      invariant forall a :: a in groups <==> a in keys
      invariant forall a :: a in groups ==> groups[a] == GroupOf(pairs, a)
    {
      var provider := GetEnvVariable(clients[idx], "ONECLIENT_PROVIDER_HOST");
      if provider.None? {
        assert clients[..idx + 1][..idx] == clients[..idx];
        assert Aliased(clients[..idx + 1]) == Fail(TypeError);
        AliasedFailsOn(clients, idx + 1);
        return Fail(TypeError), pairs;
      }
      var alias := ServiceNameToAlias(provider.value);
      var x := (alias, clients[idx]);
      AliasedSnoc(clients, idx, pairs, alias);
      groups, keys := FileClient(groups, keys, pairs, x);
      pairs := pairs + [x];
      idx := idx + 1;
    }
    assert clients[..|clients|] == clients;
    r := Ok((groups, keys));
  }

  lemma NumberedCons(ordered: seq<Component>, i: nat, m: map<string, string>)
    requires ordered != []
    ensures Numbered(ordered, i, m) ==
            Numbered(ordered[1..], i + 1, m[ClientKey(i) := ordered[0].name][ordered[0].name := ClientKey(i)])
  {
  }

  lemma OrderedCons(pairs: seq<(Option<string>, Component)>, order: seq<Option<string>>)
    requires order != []
    ensures Ordered(pairs, order) == SortBy(GroupOf(pairs, order[0]), GetName) + Ordered(pairs, order[1..])
  {
  }

  /** The inner loop: numbers the pods of one group in turn, from `i` on. */
  method NumberGroup(group: seq<Component>, ghost rest: seq<Component>, i0: nat, m0: map<string, string>)
    returns (m: map<string, string>, i: nat)
    ensures Numbered(group + rest, i0, m0) == Numbered(rest, i, m)
  {
    m, i := m0, i0;
    var j := 0;
    assert group[0..] == group;
    while j < |group|
      invariant 0 <= j <= |group|
      invariant Numbered(group + rest, i0, m0) == Numbered(group[j..] + rest, i, m)
    {
      var name := group[j].name;
      var key := ClientKey(i);
      NumberedCons(group[j..] + rest, i, m);
      assert (group[j..] + rest)[1..] == group[j + 1..] + rest;
      m := m[key := name];
      m := m[name := key];
      i := i + 1;
      j := j + 1;
    }
    assert group[|group|..] + rest == rest;
  }

  /** The second loop of `client_alias_to_pod_mapping`: numbers the pods alias by alias, each group by pod name. */
  method NumberGroups(groups: map<Option<string>, seq<Component>>, order: seq<Option<string>>,
                      ghost pairs: seq<(Option<string>, Component)>)
    returns (m: map<string, string>)
    requires forall a :: a in order ==> a in groups && groups[a] == GroupOf(pairs, a)
    ensures m == Numbered(Ordered(pairs, order), 1, map[])
  {
    m := map[];
    var i := 1;
    var k := 0;
    ghost var total := Numbered(Ordered(pairs, order), 1, map[]);
    while k < |order|
      invariant 0 <= k <= |order|
      invariant total == Numbered(Ordered(pairs, order[k..]), i, m)
    {
      var group := SortBy(groups[order[k]], GetName);
      ghost var rest := Ordered(pairs, order[k + 1..]);
      assert order[k] in order;
      OrderedCons(pairs, order[k..]);
      assert order[k..][1..] == order[k + 1..];
      assert total == Numbered(group + rest, i, m);
      m, i := NumberGroup(group, rest, i, m);
      k := k + 1;
    }
  }

  /**
   * `client_alias_to_pod_mapping()` over the pod listing: files each client
   * pod under its provider alias, then numbers the pods alias by alias.
   */
  method ClientAliasToPodMapping(pods: seq<Component>) returns (r: Result<map<string, string>>)
    ensures r == AliasMapping(pods)
  {
    var clients := ClientPods(pods);
    var grouped, pairs := GroupByAlias(clients);
    if grouped.Fail? {
      return Fail(grouped.error);
    }
    var (groups, keys) := grouped.value;
    var sorted := SortAliases(keys);
    if sorted.Fail? {
      return Fail(sorted.error);
    }
    var order := sorted.value;
    SortAliasesMembers(keys);
    var m := NumberGroups(groups, order, pairs);
    r := Ok(m);
  }

  lemma GroupOfAbsent(clients: seq<(Option<string>, Component)>, alias: Option<string>)
    requires alias !in KeysOf(clients)
    ensures GroupOf(clients, alias) == []
  {
    if clients != [] {
      assert clients[0].0 in KeysOf(clients);
      assert forall b :: b in KeysOf(clients[1..]) ==> b in KeysOf(clients) by {
        forall b | b in KeysOf(clients[1..]) ensures b in KeysOf(clients) {
          var i :| 0 <= i < |clients[1..]| && clients[1..][i].0 == b;
          assert clients[i + 1].0 == b;
        }
      }
      GroupOfAbsent(clients[1..], alias);
    }
  }

  /** The first client without a provider host decides the failure. */
  lemma {:induction false} AliasedFailsOn(clients: seq<Component>, n: nat)
    requires n <= |clients| && Aliased(clients[..n]).Fail?
    ensures Aliased(clients) == Aliased(clients[..n])
    decreases |clients|
  {
    if n == |clients| {
      assert clients[..n] == clients;
    } else {
      var init := clients[..|clients| - 1];
      assert init[..n] == clients[..n];
      AliasedFailsOn(init, n);
    }
  }

  lemma SortAliasesMembers(keys: seq<Option<string>>)
    requires SortAliases(keys).Ok?
    ensures forall a :: a in SortAliases(keys).value ==> a in keys
  {
    if None !in keys {
      var strs := Strings(keys);
      var sorted := SortStrings(strs);
      forall a | a in SortAliases(keys).value ensures a in keys {
        var i :| 0 <= i < |Somes(sorted)| && Somes(sorted)[i] == a;
        assert sorted[i] in multiset(strs);
        var j :| 0 <= j < |strs| && strs[j] == sorted[i];
        assert keys[j] == a;
      }
    }
  }

  /** A key is a client key when it starts with 'oneclient-'. */
  lemma ClientKeyPrefix(i: nat)
    ensures StartsWith(ClientKey(i), "oneclient-")
  {
    assert ClientKey(i)[..10] == "oneclient-";
  }

  /** Numbering leaves alone every key it does not write. */
  lemma {:induction false} NumberedKeeps(ordered: seq<Component>, i: nat, m: map<string, string>, k: string)
    requires forall a :: 0 <= a < |ordered| ==> ordered[a].name != k
    requires !StartsWith(k, "oneclient-")
    requires k in m
    ensures k in Numbered(ordered, i, m) && Numbered(ordered, i, m)[k] == m[k]
    decreases |ordered|
  {
    if ordered != [] {
      ClientKeyPrefix(i);
      var m1 := m[ClientKey(i) := ordered[0].name][ordered[0].name := ClientKey(i)];
      NumberedKeeps(ordered[1..], i + 1, m1, k);
    }
  }

  /** Numbering from `i + 1` on does not write the key 'oneclient-i'. */
  lemma {:induction false} NumberedKeepsKey(ordered: seq<Component>, i: nat, m: map<string, string>, t: nat)
    requires t < i
    requires forall a :: 0 <= a < |ordered| ==> !StartsWith(ordered[a].name, "oneclient-")
    requires ClientKey(t) in m
    ensures ClientKey(t) in Numbered(ordered, i, m) && Numbered(ordered, i, m)[ClientKey(t)] == m[ClientKey(t)]
    decreases |ordered|
  {
    if ordered != [] {
      ClientKeyPrefix(t);
      if ClientKey(i) == ClientKey(t) {
        NatToStringInjective(i, t);
      }
      var m1 := m[ClientKey(i) := ordered[0].name][ordered[0].name := ClientKey(i)];
      NumberedKeepsKey(ordered[1..], i + 1, m1, t);
    }
  }

  /** Names are distinct and none looks like a client key. */
  predicate PlainNames(ordered: seq<Component>)
  {
    (forall a, b :: 0 <= a < b < |ordered| ==> ordered[a].name != ordered[b].name)
    && forall a :: 0 <= a < |ordered| ==> !StartsWith(ordered[a].name, "oneclient-")
  }

  lemma PlainNamesTail(ordered: seq<Component>)
    requires ordered != [] && PlainNames(ordered)
    ensures PlainNames(ordered[1..])
    ensures forall a :: 0 <= a < |ordered| - 1 ==> ordered[1..][a].name != ordered[0].name
  {
    var rest := ordered[1..];
    forall a | 0 <= a < |rest| ensures rest[a] == ordered[a + 1] { }
  }

  /** The first pod numbered keeps its two entries through the rest of the numbering. */
  lemma NumberedFirst(ordered: seq<Component>, i: nat, m: map<string, string>)
    requires ordered != [] && PlainNames(ordered)
    ensures ordered[0].name in Numbered(ordered, i, m) && Numbered(ordered, i, m)[ordered[0].name] == ClientKey(i)
    ensures ClientKey(i) in Numbered(ordered, i, m) && Numbered(ordered, i, m)[ClientKey(i)] == ordered[0].name
  {
    var m1 := m[ClientKey(i) := ordered[0].name][ordered[0].name := ClientKey(i)];
    ClientKeyPrefix(i);
    PlainNamesTail(ordered);
    NumberedKeeps(ordered[1..], i + 1, m1, ordered[0].name);
    NumberedKeepsKey(ordered[1..], i + 1, m1, i);
  }

  /**
   * When the client pods have distinct names and none looks like a client
   * key, the pod numbered j-th gets 'oneclient-(i + j)' and that key gets the
   * pod's name back.
   */
  lemma {:induction false} NumberedBothWays(ordered: seq<Component>, i: nat, m: map<string, string>, j: nat)
    requires j < |ordered| && PlainNames(ordered)
    ensures ordered[j].name in Numbered(ordered, i, m) && Numbered(ordered, i, m)[ordered[j].name] == ClientKey(i + j)
    ensures ClientKey(i + j) in Numbered(ordered, i, m) && Numbered(ordered, i, m)[ClientKey(i + j)] == ordered[j].name
    decreases |ordered|
  {
    if j == 0 {
      NumberedFirst(ordered, i, m);
    } else {
      var m1 := m[ClientKey(i) := ordered[0].name][ordered[0].name := ClientKey(i)];
      PlainNamesTail(ordered);
      NumberedBothWays(ordered[1..], i + 1, m1, j - 1);
      assert ordered[1..][j - 1] == ordered[j];
    }
  }
}
