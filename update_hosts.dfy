/**
 * The older /etc/hosts updater (scripts/update_etc_hosts.py): for every
 * `dev-` pod with an IP and a domain, the first line of the hosts file in
 * which the domain is found is replaced by the pod's entry, or the entry
 * is appended when no line has it.
 *
 * The deployment status (the output of `./onenv status`) is a parameter:
 * its pods by name, in the order the status lists them, where an absent
 * or null field is the empty string. `re.search(domain, line)`, which
 * reads the domain as a regular expression, is the `search` parameter.
 */
module UpdateHosts {
  import opened Util
  import opened Common
  import opened Disk
  import opened Hosts

  /** A pod of the status under its name. */
  datatype NamedPod = NamedPod(name: string, domain: string, ip: string)

  /** `re.compile(r'dev-.*').match(name)`: the name starts with `dev-`. */
  predicate IsDevNode(name: string)
  {
    StartsWith(name, "dev-")
  }

  /** The pods the loop acts on: `dev-` nodes that have an IP and a domain. */
  predicate Selected(p: NamedPod)
  {
    IsDevNode(p.name) && p.ip != [] && p.domain != []
  }

  /** The first line the domain is found in, if any. */
  function FirstMatch(lines: seq<string>, domain: string, search: (string, string) -> bool): (r: Option<nat>)
    ensures r.Some? ==> r.value < |lines| && search(domain, lines[r.value]) &&
                        forall j :: 0 <= j < r.value ==> !search(domain, lines[j])
    ensures r.None? <==> forall j :: 0 <= j < |lines| ==> !search(domain, lines[j])
  {
    if lines == [] then None
    else if search(domain, lines[0]) then Some(0)
    else
      var rest := FirstMatch(lines[1..], domain, search);
      assert forall j :: 1 <= j < |lines| ==> lines[j] == lines[1..][j - 1];
      if rest.Some? then Some(rest.value + 1) else None
  }

  /**
   * One pod's update: exactly the first line the domain is found in is
   * replaced by the pod's entry, or the entry is appended when there is
   * none; every other line keeps its place.
   */
  function PutEntry(lines: seq<string>, p: NamedPod, search: (string, string) -> bool): (r: seq<string>)
    ensures var m := FirstMatch(lines, p.domain, search);
            (m.Some? ==> |r| == |lines| && r[m.value] == HostsEntry(p.ip, p.domain) &&
                         forall j :: 0 <= j < |lines| && j != m.value ==> r[j] == lines[j]) &&
            (m.None? ==> r == lines + [HostsEntry(p.ip, p.domain)])
  {
    var entry := HostsEntry(p.ip, p.domain);
    match FirstMatch(lines, p.domain, search)
    case Some(i) => lines[i := entry]
    case None => lines + [entry]
  }

  /** The hosts lines after the loop over `pods`. */
  function UpdatedLines(lines: seq<string>, pods: seq<NamedPod>, search: (string, string) -> bool): seq<string>
  {
    if pods == [] then lines
    else
      var before := UpdatedLines(lines, pods[..|pods| - 1], search);
      var p := pods[|pods| - 1];
      if Selected(p) then PutEntry(before, p, search) else before
  }

  /**
   * `[i for i, x in enumerate(hosts_content) if re.search(domain, x)][0]`:
   * the whole list is scanned and the first index kept; an empty list is
   * the IndexError that sends the code to the append.
   */
  method FindFirstMatch(lines: seq<string>, domain: string, search: (string, string) -> bool)
    returns (r: Option<nat>)
    ensures r == FirstMatch(lines, domain, search)
  {
    var found: seq<nat> := [];
    var i := 0;
    while i < |lines|
      invariant 0 <= i <= |lines|
      invariant forall k :: 0 <= k < |found| ==> found[k] < i && search(domain, lines[found[k]])
      invariant found == [] <==> forall j :: 0 <= j < i ==> !search(domain, lines[j])
      invariant found != [] ==> forall j :: 0 <= j < found[0] ==> !search(domain, lines[j])
    {
      if search(domain, lines[i]) {
        found := found + [i];
      }
      i := i + 1;
    }
    if found == [] {
      return None;
    }
    r := Some(found[0]);
    FirstMatchUnique(lines, domain, search, found[0]);
  }

  /** The first matching index is the only index with no match before it. */
  lemma FirstMatchUnique(lines: seq<string>, domain: string, search: (string, string) -> bool, i: nat)
    requires i < |lines| && search(domain, lines[i])
    requires forall j :: 0 <= j < i ==> !search(domain, lines[j])
    ensures FirstMatch(lines, domain, search) == Some(i)
  {
    assert FirstMatch(lines, domain, search).Some?;
  }

  /**
   * `update_etc_hosts()`: a missing hosts file is a FileNotFoundError;
   * otherwise its lines are updated pod by pod, in place, and written back.
   */
  method UpdateEtcHosts(fs: FileSystem, pods: seq<NamedPod>, search: (string, string) -> bool)
    returns (r: Result<()>)
    modifies fs
    ensures fs.dirs == old(fs.dirs)
    ensures HOSTS_LOCATION !in old(fs.files) ==> r == Fail(FileNotFound(HOSTS_LOCATION)) && fs.files == old(fs.files)
    ensures HOSTS_LOCATION in old(fs.files) ==>
              r == Ok(()) &&
              fs.files == old(fs.files)[HOSTS_LOCATION :=
                Concat(UpdatedLines(LinesOf(old(fs.files)[HOSTS_LOCATION]), pods, search))]
  {
    if HOSTS_LOCATION !in fs.files {
      return Fail(FileNotFound(HOSTS_LOCATION));
    }
    var original := LinesOf(fs.files[HOSTS_LOCATION]);
    var lines := original;
    var k := 0;
    while k < |pods|
      invariant 0 <= k <= |pods|
      invariant lines == UpdatedLines(original, pods[..k], search)
      invariant fs.files == old(fs.files) && fs.dirs == old(fs.dirs)
    {
      assert pods[..k + 1][..k] == pods[..k];
      var p := pods[k];
      if IsDevNode(p.name) && p.ip != [] && p.domain != [] {
        var entry := HostsEntry(p.ip, p.domain);
        var index := FindFirstMatch(lines, p.domain, search);
        if index.Some? {
          lines := lines[index.value := entry];
        } else {
          lines := lines + [entry];
        }
      }
      k := k + 1;
    }
    assert pods[..|pods|] == pods;
    fs.Write(HOSTS_LOCATION, Concat(lines));
    r := Ok(());
  }

  /**
   * After the loop the file has grown by at most one line per pod,
   * and every original line is either still in its place or was replaced
   * by the entry of a selected pod.
   */
  lemma {:induction false} UpdatedLinesFrame(lines: seq<string>, pods: seq<NamedPod>, search: (string, string) -> bool)
    ensures var r := UpdatedLines(lines, pods, search);
            |lines| <= |r| <= |lines| + |pods| &&
            forall j :: 0 <= j < |r| ==>
              (j < |lines| && r[j] == lines[j]) ||
              exists k :: 0 <= k < |pods| && Selected(pods[k]) && r[j] == HostsEntry(pods[k].ip, pods[k].domain)
  {
    if pods != [] {
      var init := pods[..|pods| - 1];
      UpdatedLinesFrame(lines, init, search);
      var before := UpdatedLines(lines, init, search);
      var p := pods[|pods| - 1];
      var r := UpdatedLines(lines, pods, search);
      forall j | 0 <= j < |r|
        ensures (j < |lines| && r[j] == lines[j]) ||
                exists k :: 0 <= k < |pods| && Selected(pods[k]) && r[j] == HostsEntry(pods[k].ip, pods[k].domain)
      {
        if Selected(p) && r[j] == HostsEntry(p.ip, p.domain) {
          assert pods[|pods| - 1] == p;
        } else {
          assert j < |before| && r[j] == before[j];
          if !(j < |lines| && before[j] == lines[j]) {
            var k :| 0 <= k < |init| && Selected(init[k]) && before[j] == HostsEntry(init[k].ip, init[k].domain);
            assert pods[k] == init[k];
          }
        }
      }
    }
  }

  /** Pods that are not `dev-` nodes, or lack an IP or a domain, change nothing. */
  lemma {:induction false} UnselectedIgnored(lines: seq<string>, pods: seq<NamedPod>, search: (string, string) -> bool)
    requires forall k :: 0 <= k < |pods| ==> !Selected(pods[k])
    ensures UpdatedLines(lines, pods, search) == lines
  {
    if pods != [] {
      UnselectedIgnored(lines, pods[..|pods| - 1], search);
    }
  }
}
