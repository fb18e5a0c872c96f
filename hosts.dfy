/**
 * Rewriting /etc/hosts for the current deployment (scripts/onenv_hosts.py):
 * every pod's domain and hostname is mapped to its IP; the hosts file keeps
 * its two-field entries for other names, and gets one entry per mapped
 * name appended.
 *
 * The deployment status is a parameter: its pods in the order the status
 * lists them, each with its domain, IP and hostname, where an absent or
 * null field is the empty string (the code only tests them for truth).
 */
module Hosts {
  import opened Util
  import opened Common
  import opened Disk

  const HOSTS_LOCATION: string := "/etc/hosts"

  /** One pod of the deployment status. */
  datatype PodStatus = PodStatus(domain: string, ip: string, hostname: string)

  // ---------------------------------------------------------------------------
  // str.split()

  /** The whitespace `str.split()` splits on (the ASCII part of it). */
  predicate IsSpace(c: char)
  {
    c == ' ' || c == '\t' || c == '\n' || c == '\r' || c == '\U{000B}' || c == '\U{000C}'
  }

  predicate NoSpace(s: string)
  {
    forall j :: 0 <= j < |s| ==> !IsSpace(s[j])
  }

  /** The length of the run of non-space characters `s` starts with. */
  function WordLen(s: string): (n: nat)
    ensures n <= |s| && NoSpace(s[..n]) && (n < |s| ==> IsSpace(s[n]))
  {
    if s == [] || IsSpace(s[0]) then 0
    else
      var m := WordLen(s[1..]);
      assert s[..1 + m] == [s[0]] + s[1..][..m];
      1 + m
  }

  /** `s.split()`: the maximal runs of non-space characters, in order. */
  function Tokens(s: string): (r: seq<string>)
    ensures forall k :: 0 <= k < |r| ==> r[k] != [] && NoSpace(r[k])
    decreases |s|
  {
    if s == [] then []
    else if IsSpace(s[0]) then Tokens(s[1..])
    else
      var n := WordLen(s);
      [s[..n]] + Tokens(s[n..])
  }

  /** `s` with its whitespace removed. */
  function Unspaced(s: string): (r: string)
    ensures NoSpace(r)
  {
    if s == [] then []
    else if IsSpace(s[0]) then Unspaced(s[1..])
    else [s[0]] + Unspaced(s[1..])
  }

  lemma {:induction false} UnspacedWord(s: string, n: nat)
    requires n <= |s| && NoSpace(s[..n])
    ensures Unspaced(s) == s[..n] + Unspaced(s[n..])
  {
    if n > 0 {
      assert s[1..][..n - 1] == s[1..n];
      UnspacedWord(s[1..], n - 1);
      assert s[1..][n - 1..] == s[n..];
      assert s[..n] == [s[0]] + s[1..n];
    }
  }

  /** The tokens are all of the text but its whitespace, in order. */
  lemma {:induction false} TokensCover(s: string)
    ensures Concat(Tokens(s)) == Unspaced(s)
    decreases |s|
  {
    if s != [] {
      if IsSpace(s[0]) {
        TokensCover(s[1..]);
      } else {
        var n := WordLen(s);
        TokensCover(s[n..]);
        ConcatCons(s[..n], Tokens(s[n..]));
        UnspacedWord(s, n);
      }
    }
  }

  /** A word followed by whitespace is a whole token. */
  lemma {:induction false} WordLenOf(w: string, rest: string)
    requires NoSpace(w) && (rest == [] || IsSpace(rest[0]))
    ensures WordLen(w + rest) == |w|
  {
    if w != [] {
      assert (w + rest)[1..] == w[1..] + rest;
      WordLenOf(w[1..], rest);
    }
  }

  lemma TokensWord(w: string, rest: string)
    requires w != [] && NoSpace(w) && (rest == [] || IsSpace(rest[0]))
    ensures Tokens(w + rest) == [w] + Tokens(rest)
  {
    WordLenOf(w, rest);
    assert (w + rest)[..|w|] == w;
    assert (w + rest)[|w|..] == rest;
  }

  /** Trailing whitespace adds no token. */
  lemma {:induction false} TokensTrailingSpace(s: string, c: char)
    requires IsSpace(c)
    ensures Tokens(s + [c]) == Tokens(s)
    decreases |s|
  {
    var t := s + [c];
    if s == [] {
      assert t[1..] == [];
    } else if IsSpace(s[0]) {
      assert t[1..] == s[1..] + [c];
      TokensTrailingSpace(s[1..], c);
    } else {
      var n := WordLen(s);
      WordLenOf(s[..n], s[n..] + [c]);
      assert t == s[..n] + (s[n..] + [c]);
      assert WordLen(t) == n && t[..n] == s[..n] && t[n..] == s[n..] + [c];
      TokensTrailingSpace(s[n..], c);
    }
  }

  // ---------------------------------------------------------------------------
  // The name-to-IP map

  /** The map entries one pod adds: its domain, then its hostname, each with an IP. */
  function PodEntries(p: PodStatus): seq<(string, string)>
  {
    (if p.domain != [] && p.ip != [] then [(p.domain, p.ip)] else []) +
    (if p.hostname != [] && p.ip != [] then [(p.hostname, p.ip)] else [])
  }

  function Entries(pods: seq<PodStatus>): seq<(string, string)>
  {
    if pods == [] then [] else Entries(pods[..|pods| - 1]) + PodEntries(pods[|pods| - 1])
  }

  /**
   * `onenv_ip_map` as a Python dict: its keys in insertion order, and the
   * value of each. Storing under a present key keeps the key's place.
   */
  datatype IpMap = IpMap(keys: seq<string>, ips: map<string, string>)

  function Store(m: IpMap, name: string, ip: string): IpMap
  {
    IpMap(if name in m.ips then m.keys else m.keys + [name], m.ips[name := ip])
  }

  function IpMapOf(entries: seq<(string, string)>): IpMap
  {
    if entries == [] then IpMap([], map[])
    else
      var last := entries[|entries| - 1];
      Store(IpMapOf(entries[..|entries| - 1]), last.0, last.1)
  }

  /** The keys list each name once, and lists exactly the names mapped. */
  ghost predicate Ordered(m: IpMap)
  {
    (forall i, j :: 0 <= i < j < |m.keys| ==> m.keys[i] != m.keys[j]) &&
    (forall k :: k in m.ips <==> k in m.keys)
  }

  /**
   * The map holds exactly the names of the entries, each listed once,
   * with the IP of its last entry: a hostname equal to a domain overwrites
   * that domain's IP.
   */
  lemma IpMapOfSpec(entries: seq<(string, string)>)
    ensures var m := IpMapOf(entries);
            Ordered(m) &&
            (forall k :: k in m.ips <==> exists i :: 0 <= i < |entries| && entries[i].0 == k) &&
            (forall k :: k in m.ips ==>
               exists i :: 0 <= i < |entries| && entries[i] == (k, m.ips[k]) &&
                 forall j :: i < j < |entries| ==> entries[j].0 != k)
  {
    IpMapOrdered(entries);
    IpMapNames(entries);
    IpMapLastEntry(entries);
  }

  /** Each name is listed once, and the listed names are the mapped ones. */
  lemma {:induction false} IpMapOrdered(entries: seq<(string, string)>)
    ensures Ordered(IpMapOf(entries))
  {
    if entries != [] {
      IpMapOrdered(entries[..|entries| - 1]);
    }
  }

  /** The mapped names are the names of the entries. */
  lemma {:induction false} IpMapNames(entries: seq<(string, string)>)
    ensures forall k :: k in IpMapOf(entries).ips <==> exists i :: 0 <= i < |entries| && entries[i].0 == k
  {
    if entries != [] {
      var init := entries[..|entries| - 1];
      var last := entries[|entries| - 1];
      IpMapNames(init);
      var m0 := IpMapOf(init);
      var m := IpMapOf(entries);
      forall k ensures k in m.ips <==> exists i :: 0 <= i < |entries| && entries[i].0 == k {
        if k in m0.ips && k != last.0 {
          var i :| 0 <= i < |init| && init[i].0 == k;
          assert entries[i].0 == k;
        }
        if k == last.0 {
          assert entries[|entries| - 1].0 == k;
        }
        if exists i :: 0 <= i < |entries| && entries[i].0 == k {
          var i :| 0 <= i < |entries| && entries[i].0 == k;
          if i < |init| { assert init[i].0 == k; }
        }
      }
    }
  }

  /** A mapped name has the IP of its last entry. */
  lemma {:induction false} IpMapLastEntry(entries: seq<(string, string)>)
    ensures forall k :: k in IpMapOf(entries).ips ==>
              exists i :: 0 <= i < |entries| && entries[i] == (k, IpMapOf(entries).ips[k]) &&
                forall j :: i < j < |entries| ==> entries[j].0 != k
  {
    if entries != [] {
      var init := entries[..|entries| - 1];
      var last := entries[|entries| - 1];
      IpMapLastEntry(init);
      var m0 := IpMapOf(init);
      var m := IpMapOf(entries);
      forall k | k in m.ips
        ensures exists i :: 0 <= i < |entries| && entries[i] == (k, m.ips[k]) &&
                  forall j :: i < j < |entries| ==> entries[j].0 != k
      {
        if k == last.0 {
          assert entries[|entries| - 1] == (k, m.ips[k]);
        } else {
          assert k in m0.ips && m.ips[k] == m0.ips[k];
          var i :| 0 <= i < |init| && init[i] == (k, m0.ips[k]) &&
                   forall j :: i < j < |init| ==> init[j].0 != k;
          assert entries[i] == (k, m.ips[k]);
          assert forall j :: i < j < |entries| ==> entries[j].0 != k by {
            forall j | i < j < |entries| ensures entries[j].0 != k {
              if j < |init| { assert entries[j] == init[j]; }
            }
          }
        }
      }
    }
  }

  /** Filling the map pod by pod, as the first loop of `main` does. */
  method BuildIpMap(pods: seq<PodStatus>) returns (m: IpMap)
    ensures m == IpMapOf(Entries(pods))
  {
    m := IpMap([], map[]);
    var i := 0;
    while i < |pods|
      invariant 0 <= i <= |pods|
      invariant m == IpMapOf(Entries(pods[..i]))
    {
      assert pods[..i + 1][..i] == pods[..i];
      assert Entries(pods[..i + 1]) == Entries(pods[..i]) + PodEntries(pods[i]);
      m := StorePod(m, pods[i], Entries(pods[..i]));
      i := i + 1;
    }
    assert pods[..|pods|] == pods;
  }

  /** One pass of that loop: the pod's domain, then its hostname, each stored when it and the IP are set. */
  method StorePod(m0: IpMap, p: PodStatus, ghost before: seq<(string, string)>) returns (m: IpMap)
    requires m0 == IpMapOf(before)
    ensures m == IpMapOf(before + PodEntries(p))
  {
    m := m0;
    ghost var mid := before;
    if p.domain != [] && p.ip != [] {
      assert IpMapOf(before + [(p.domain, p.ip)]) == Store(m, p.domain, p.ip) by {
        assert (before + [(p.domain, p.ip)])[..|before|] == before;
      }
      m := Store(m, p.domain, p.ip);
      mid := before + [(p.domain, p.ip)];
    }
    assert m == IpMapOf(mid);
    ghost var rest := if p.hostname != [] && p.ip != [] then [(p.hostname, p.ip)] else [];
    if p.hostname != [] && p.ip != [] {
      assert IpMapOf(mid + [(p.hostname, p.ip)]) == Store(m, p.hostname, p.ip) by {
        assert (mid + [(p.hostname, p.ip)])[..|mid|] == mid;
      }
      m := Store(m, p.hostname, p.ip);
    } else {
      assert mid + rest == mid;
    }
    assert before + PodEntries(p) == mid + rest;
  }

  // ---------------------------------------------------------------------------
  // The hosts file

  /** An entry the filter keeps: exactly two fields, and not a comment. */
  predicate TwoFields(entry: string)
  {
    |Tokens(entry)| == 2 && entry[0] != '#'
  }

  /** A kept entry naming none of the mapped names survives. */
  predicate Survives(entry: string, ips: map<string, string>)
  {
    TwoFields(entry) && Tokens(entry)[1] !in ips
  }

  /** The entries the rewrite keeps, in their order. */
  function Survivors(lines: seq<string>, ips: map<string, string>): (r: seq<string>)
    ensures forall k :: 0 <= k < |r| ==> Survives(r[k], ips)
  {
    if lines == [] then []
    else
      var init := Survivors(lines[..|lines| - 1], ips);
      if Survives(lines[|lines| - 1], ips) then init + [lines[|lines| - 1]] else init
  }

  /** Keeping distributes over concatenation, so the kept entries keep their order. */
  lemma {:induction false} SurvivorsAppend(a: seq<string>, b: seq<string>, ips: map<string, string>)
    ensures Survivors(a + b, ips) == Survivors(a, ips) + Survivors(b, ips)
    decreases |b|
  {
    if b != [] {
      assert (a + b)[..|a + b| - 1] == a + b[..|b| - 1];
      assert (a + b)[|a + b| - 1] == b[|b| - 1];
      SurvivorsAppend(a, b[..|b| - 1], ips);
      var x := Survivors(a, ips);
      var y := Survivors(b[..|b| - 1], ips);
      assert (x + y) + [b[|b| - 1]] == x + (y + [b[|b| - 1]]);
    } else {
      assert a + b == a;
      assert Survivors(a, ips) + [] == Survivors(a, ips);
    }
  }

  /** An entry is kept exactly when it is in the file, has two fields, is no comment and names no mapped name. */
  lemma {:induction false} SurvivorsSpec(lines: seq<string>, ips: map<string, string>, x: string)
    ensures x in Survivors(lines, ips) <==> x in lines && Survives(x, ips)
  {
    if lines != [] {
      SurvivorsSpec(lines[..|lines| - 1], ips, x);
      assert lines == lines[..|lines| - 1] + [lines[|lines| - 1]];
    }
  }

  /** The entry appended for a mapped name. */
  function HostsEntry(ip: string, name: string): string
  {
    ip + "\t" + name + "\n"
  }

  function Added(m: IpMap): (r: seq<string>)
    requires forall k :: k in m.keys ==> k in m.ips
    ensures |r| == |m.keys|
    ensures forall i :: 0 <= i < |r| ==> r[i] == HostsEntry(m.ips[m.keys[i]], m.keys[i])
  {
    seq(|m.keys|, i requires 0 <= i < |m.keys| => HostsEntry(m.ips[m.keys[i]], m.keys[i]))
  }

  /**
   * A kept entry as it is written back. The last line of a file need not
   * end with a newline; the entry is completed with one so that the next
   * one starts on a line of its own.
   */
  function Terminate(line: string): (r: string)
    ensures r != [] && r[|r| - 1] == '\n'
  {
    if line != [] && line[|line| - 1] == '\n' then line else line + "\n"
  }

  function TerminateAll(lines: seq<string>): (r: seq<string>)
    ensures |r| == |lines| && forall k :: 0 <= k < |r| ==> r[k] == Terminate(lines[k])
  {
    seq(|lines|, k requires 0 <= k < |lines| => Terminate(lines[k]))
  }

  /**
   * The text `main` writes as it stands: the kept entries as read, then
   * one entry per mapped name.
   */
  function HostsContentAsWritten(text: string, pods: seq<PodStatus>): string
  {
    var m := IpMapOf(Entries(pods));
    IpMapOfSpec(Entries(pods));
    Concat(Survivors(LinesOf(text), m.ips)) + Concat(Added(m))
  }

  /** The text written back, with the last kept entry completed by a newline. */
  function HostsContent(text: string, pods: seq<PodStatus>): string
  {
    var m := IpMapOf(Entries(pods));
    IpMapOfSpec(Entries(pods));
    Concat(TerminateAll(Survivors(LinesOf(text), m.ips))) + Concat(Added(m))
  }

  /** A text without a newline is a single line. */
  lemma {:induction false} LinesOfUnterminated(s: string)
    requires s != [] && !HasChar(s, '\n')
    ensures LinesOf(s) == [s]
    decreases |s|
  {
    if |s| > 1 {
      assert !HasChar(s[1..], '\n') by {
        forall j | 0 <= j < |s[1..]| ensures s[1..][j] != '\n' {
          assert s[1..][j] == s[j + 1];
        }
      }
      LinesOfUnterminated(s[1..]);
      assert s[0] != '\n';
      assert [s[0]] + s[1..] == s;
    } else {
      assert s[1..] == [] && [s[0]] == s;
    }
  }

  /** One pod with a domain and an IP maps just that domain. */
  lemma OnePodMap(name: string, ip: string)
    requires name != [] && ip != []
    ensures IpMapOf(Entries([PodStatus(name, ip, "")])) == IpMap([name], map[name := ip])
  {
    var pods := [PodStatus(name, ip, "")];
    assert pods[..0] == [];
    assert Entries(pods) == [(name, ip)];
    assert [(name, ip)][..0] == [];
  }

  /** A line without a newline followed by a complete line is one line. */
  lemma GluedLine(line: string, entry: string)
    requires !HasChar(line, '\n') && IsLine(entry) && entry[|entry| - 1] == '\n'
    ensures LinesOf(line + entry) == [line + entry]
  {
    var out := line + entry;
    assert IsLine(out) by {
      forall j | 0 <= j < |out| - 1 ensures out[j] != '\n' {
        if j < |line| { assert out[j] == line[j]; }
        else { assert out[j] == entry[j - |line|]; }
      }
    }
    LinesOfPrepend(out, []);
    assert out + [] == out;
  }

  /** A line without a newline, completed, followed by a complete line are two lines. */
  lemma CompletedLines(line: string, entry: string)
    requires !HasChar(line, '\n') && IsLine(entry) && entry[|entry| - 1] == '\n'
    ensures LinesOf((line + "\n") + entry) == [line + "\n", entry]
  {
    assert IsLine(line + "\n") by {
      forall j | 0 <= j < |line| ensures (line + "\n")[j] != '\n' {
        assert (line + "\n")[j] == line[j];
      }
    }
    LinesOfPrepend(line + "\n", entry);
    LinesOfPrepend(entry, []);
    assert entry + [] == entry;
  }

  /** The text both versions write for one unterminated line and one pod. */
  lemma OneLineOnePod(line: string, name: string, ip: string)
    requires line != [] && !HasChar(line, '\n') && TwoFields(line) && Tokens(line)[1] != name
    requires name != [] && ip != []
    ensures var pods := [PodStatus(name, ip, "")];
            HostsContentAsWritten(line, pods) == line + HostsEntry(ip, name) &&
            HostsContent(line, pods) == (line + "\n") + HostsEntry(ip, name)
  {
    OnePodMap(name, ip);
    LinesOfUnterminated(line);
    OneLineKept(line, name, ip);
    OneNameAdded(name, ip);
  }

  /** The one entry, naming another name, is kept: as read, and completed. */
  lemma OneLineKept(line: string, name: string, ip: string)
    requires TwoFields(line) && Tokens(line)[1] != name
    ensures Concat(Survivors([line], map[name := ip])) == line
    ensures Concat(TerminateAll(Survivors([line], map[name := ip]))) == Terminate(line)
  {
    assert [line][..0] == [];
    assert Survivors([line], map[name := ip]) == [line];
    ConcatCons(line, []);
    assert TerminateAll([line]) == [Terminate(line)];
    ConcatCons(Terminate(line), []);
  }

  /** A map of one name adds that name's entry alone. */
  lemma OneNameAdded(name: string, ip: string)
    ensures Concat(Added(IpMap([name], map[name := ip]))) == HostsEntry(ip, name)
  {
    assert Added(IpMap([name], map[name := ip])) == [HostsEntry(ip, name)];
    ConcatCons(HostsEntry(ip, name), []);
  }

  /**
   * As written, a hosts file whose last entry lacks its newline has the
   * first added entry glued onto it: the result is a single line, with
   * more than two fields, so the pod's domain gets no entry of its own;
   * with the kept entry completed, the domain gets its own line. For
   * instance `1.2.3.4 foo` and a pod `dev-a` at `10.0.0.1` give the one
   * line `1.2.3.4 foo10.0.0.1<TAB>dev-a`.
   */
  lemma MissingNewlineMergesEntries(line: string, name: string, ip: string)
    requires line != [] && !HasChar(line, '\n') && TwoFields(line) && Tokens(line)[1] != name
    requires name != [] && ip != [] && NoSpace(name) && NoSpace(ip)
    ensures var pods := [PodStatus(name, ip, "")];
            var out := HostsContentAsWritten(line, pods);
            out == line + HostsEntry(ip, name) &&
            LinesOf(out) == [out] &&
            LinesOf(HostsContent(line, pods)) == [line + "\n", HostsEntry(ip, name)]
  {
    OneLineOnePod(line, name, ip);
    HostsEntryTokens(ip, name);
    GluedLine(line, HostsEntry(ip, name));
    CompletedLines(line, HostsEntry(ip, name));
  }

  /** One more line read: a surviving line adds itself, as read, to the text. */
  lemma KeptStep(lines: seq<string>, i: nat, ips: map<string, string>)
    requires i < |lines|
    ensures Concat(Survivors(lines[..i + 1], ips))
            == Concat(Survivors(lines[..i], ips)) + (if Survives(lines[i], ips) then lines[i] else [])
  {
    assert lines[..i + 1][..i] == lines[..i];
    var kept := Survivors(lines[..i], ips);
    if Survives(lines[i], ips) {
      assert Survivors(lines[..i + 1], ips) == kept + [lines[i]];
      ConcatAppend(kept, [lines[i]]);
      ConcatCons(lines[i], []);
    } else {
      assert Survivors(lines[..i + 1], ips) == kept;
      assert Concat(kept) + [] == Concat(kept);
    }
  }

  /** The second loop of `main`: the kept entries, gathered in order as read. */
  method KeptText(lines: seq<string>, ips: map<string, string>) returns (content: string)
    ensures content == Concat(Survivors(lines, ips))
  {
    content := "";
    var i := 0;
    while i < |lines|
      invariant 0 <= i <= |lines|
      invariant content == Concat(Survivors(lines[..i], ips))
    {
      KeptStep(lines, i, ips);
      if Survives(lines[i], ips) {
        content := content + lines[i];
      }
      i := i + 1;
    }
    assert lines[..|lines|] == lines;
  }

  /** The third loop of `main`: one entry per mapped name, in the map's order. */
  method AddedText(m: IpMap) returns (content: string)
    requires forall k :: k in m.keys ==> k in m.ips
    ensures content == Concat(Added(m))
  {
    content := "";
    var added := Added(m);
    var j := 0;
    while j < |m.keys|
      invariant 0 <= j <= |m.keys|
      invariant content == Concat(added[..j])
    {
      assert added[..j + 1] == added[..j] + [added[j]];
      ConcatAppend(added[..j], [added[j]]);
      ConcatCons(added[j], []);
      content := content + HostsEntry(m.ips[m.keys[j]], m.keys[j]);
      j := j + 1;
    }
    assert added[..|m.keys|] == added;
  }

  /**
   * `main()` on the host: a missing hosts file is a FileNotFoundError;
   * otherwise the file is rewritten with the kept entries, as read, and
   * the mapped names (`HostsContentAsWritten`).
   */
  method OnenvHosts(fs: FileSystem, pods: seq<PodStatus>) returns (r: Result<()>)
    modifies fs
    ensures fs.dirs == old(fs.dirs)
    ensures HOSTS_LOCATION !in old(fs.files) ==> r == Fail(FileNotFound(HOSTS_LOCATION)) && fs.files == old(fs.files)
    ensures HOSTS_LOCATION in old(fs.files) ==>
              r == Ok(()) &&
              fs.files == old(fs.files)[HOSTS_LOCATION := HostsContentAsWritten(old(fs.files)[HOSTS_LOCATION], pods)]
  {
    var m := BuildIpMap(pods);
    IpMapOfSpec(Entries(pods));
    if HOSTS_LOCATION !in fs.files {
      return Fail(FileNotFound(HOSTS_LOCATION));
    }
    var kept := KeptText(LinesOf(fs.files[HOSTS_LOCATION]), m.ips);
    var added := AddedText(m);
    fs.Write(HOSTS_LOCATION, kept + added);
    r := Ok(());
  }

  // ---------------------------------------------------------------------------
  // Properties of the rewrite

  /**
   * The new file is the kept entries, as read, followed by
   * exactly one entry per mapped name in the map's order; no kept entry
   * names a mapped name, and every two-field entry of the file that names
   * none of them is kept.
   */
  lemma HostsContentShape(text: string, pods: seq<PodStatus>)
    ensures var m := IpMapOf(Entries(pods));
            var kept := Survivors(LinesOf(text), m.ips);
            Ordered(m) &&
            HostsContentAsWritten(text, pods) ==
              Concat(kept) + Concat(seq(|m.keys|, i requires 0 <= i < |m.keys| && m.keys[i] in m.ips =>
                                                   HostsEntry(m.ips[m.keys[i]], m.keys[i]))) &&
            (forall k :: 0 <= k < |kept| ==> kept[k] in LinesOf(text) && TwoFields(kept[k]) && Tokens(kept[k])[1] !in m.ips) &&
            (forall x :: x in LinesOf(text) && TwoFields(x) && Tokens(x)[1] !in m.ips ==> x in kept)
  {
    var m := IpMapOf(Entries(pods));
    IpMapOfSpec(Entries(pods));
    var kept := Survivors(LinesOf(text), m.ips);
    forall x ensures x in kept <==> x in LinesOf(text) && Survives(x, m.ips) {
      SurvivorsSpec(LinesOf(text), m.ips, x);
    }
    assert Added(m) == seq(|m.keys|, i requires 0 <= i < |m.keys| && m.keys[i] in m.ips =>
                             HostsEntry(m.ips[m.keys[i]], m.keys[i]));
  }

  /** Names and IPs that `str.split()` keeps whole, and an IP that does not start a comment. */
  predicate PlainPod(p: PodStatus)
  {
    NoSpace(p.domain) && NoSpace(p.hostname) && NoSpace(p.ip) && (p.ip != [] ==> p.ip[0] != '#')
  }

  /** An entry written for a plain name has the IP and the name as its two fields. */
  lemma HostsEntryTokens(ip: string, name: string)
    requires ip != [] && name != [] && NoSpace(ip) && NoSpace(name)
    ensures Tokens(HostsEntry(ip, name)) == [ip, name]
    ensures IsLine(HostsEntry(ip, name))
  {
    var tail := "\t" + name + "\n";
    assert HostsEntry(ip, name) == ip + tail;
    EntryTailTokens(name);
    TokensWord(ip, tail);
    HostsEntryIsLine(ip, name);
  }

  /** The tab, the name and the newline after the IP give the name alone. */
  lemma EntryTailTokens(name: string)
    requires name != [] && NoSpace(name)
    ensures Tokens("\t" + name + "\n") == [name]
  {
    var tail := "\t" + name + "\n";
    assert tail[1..] == name + "\n";
    TokensWord(name, "\n");
    assert "\n"[1..] == [];
  }

  /** An entry has no newline but its last character. */
  lemma HostsEntryIsLine(ip: string, name: string)
    requires NoSpace(ip) && NoSpace(name)
    ensures IsLine(HostsEntry(ip, name))
  {
    var e := HostsEntry(ip, name);
    forall j | 0 <= j < |e| - 1 ensures e[j] != '\n' {
      if j < |ip| { assert e[j] == ip[j]; }
      else if j > |ip| { assert e[j] == name[j - |ip| - 1]; }
    }
  }

  lemma EntriesPlain(pods: seq<PodStatus>)
    requires forall k :: 0 <= k < |pods| ==> PlainPod(pods[k])
    ensures forall i :: 0 <= i < |Entries(pods)| ==>
              var e := Entries(pods)[i];
              e.0 != [] && e.1 != [] && NoSpace(e.0) && NoSpace(e.1) && e.1[0] != '#'
  {
    if pods != [] {
      EntriesPlain(pods[..|pods| - 1]);
    }
  }

  /** The kept entries, completed, are complete lines that survive again. */
  lemma TerminatedSurvive(lines: seq<string>, ips: map<string, string>)
    requires forall k :: 0 <= k < |lines| ==> IsLine(lines[k]) && Survives(lines[k], ips)
    ensures var t := TerminateAll(lines);
            (forall k :: 0 <= k < |t| ==> IsLine(t[k]) && t[k][|t[k]| - 1] == '\n') &&
            Survivors(t, ips) == t && TerminateAll(t) == t
  {
    var t := TerminateAll(lines);
    forall k | 0 <= k < |t| ensures IsLine(t[k]) && Survives(t[k], ips) {
      TerminateSurvives(lines[k], ips);
    }
    SurvivorsAll(t, ips);
  }

  /** A surviving line, completed, is still one line and still survives. */
  lemma TerminateSurvives(l: string, ips: map<string, string>)
    requires IsLine(l) && Survives(l, ips)
    ensures IsLine(Terminate(l)) && Survives(Terminate(l), ips)
  {
    if !(l[|l| - 1] == '\n') {
      TokensTrailingSpace(l, '\n');
      var t := Terminate(l);
      assert t == l + ['\n'];
      forall j | 0 <= j < |t| - 1 ensures t[j] != '\n' {
        assert t[j] == l[j];
      }
    }
  }

  lemma {:induction false} SurvivorsAll(lines: seq<string>, ips: map<string, string>)
    requires forall k :: 0 <= k < |lines| ==> Survives(lines[k], ips)
    ensures Survivors(lines, ips) == lines
  {
    if lines != [] {
      SurvivorsAll(lines[..|lines| - 1], ips);
      assert lines == lines[..|lines| - 1] + [lines[|lines| - 1]];
    }
  }

  lemma {:induction false} SurvivorsNone(lines: seq<string>, ips: map<string, string>)
    requires forall k :: 0 <= k < |lines| ==> !Survives(lines[k], ips)
    ensures Survivors(lines, ips) == []
  {
    if lines != [] {
      SurvivorsNone(lines[..|lines| - 1], ips);
    }
  }

  /** The appended entries are complete lines that a second run drops. */
  lemma AddedDropped(pods: seq<PodStatus>)
    requires forall k :: 0 <= k < |pods| ==> PlainPod(pods[k])
    ensures var m := IpMapOf(Entries(pods));
            (forall k :: k in m.keys ==> k in m.ips) &&
            var added := Added(m);
            (forall i :: 0 <= i < |added| ==> IsLine(added[i]) && added[i][|added[i]| - 1] == '\n') &&
            Survivors(added, m.ips) == []
  {
    var m := IpMapOf(Entries(pods));
    IpMapOrdered(Entries(pods));
    IpMapLastEntry(Entries(pods));
    EntriesPlain(pods);
    var added := Added(m);
    forall i | 0 <= i < |added|
      ensures IsLine(added[i]) && added[i][|added[i]| - 1] == '\n' && !Survives(added[i], m.ips)
    {
      var name := m.keys[i];
      var e :| 0 <= e < |Entries(pods)| && Entries(pods)[e] == (name, m.ips[name]) &&
               forall j :: e < j < |Entries(pods)| ==> Entries(pods)[j].0 != name;
      PlainEntryDropped(m.ips[name], name, m.ips);
    }
    SurvivorsNone(added, m.ips);
  }

  /** The entry of a mapped plain name is a complete line that the filter drops. */
  lemma PlainEntryDropped(ip: string, name: string, ips: map<string, string>)
    requires ip != [] && name != [] && NoSpace(ip) && NoSpace(name) && name in ips
    ensures var e := HostsEntry(ip, name);
            IsLine(e) && e[|e| - 1] == '\n' && !Survives(e, ips)
  {
    HostsEntryTokens(ip, name);
  }

  /** The kept entries of any text, completed, are complete lines that a second run keeps. */
  lemma KeptKept(text: string, ips: map<string, string>)
    ensures var t := TerminateAll(Survivors(LinesOf(text), ips));
            (forall k :: 0 <= k < |t| ==> IsLine(t[k]) && t[k][|t[k]| - 1] == '\n') &&
            Survivors(t, ips) == t && TerminateAll(t) == t
  {
    var lines := LinesOf(text);
    LinesShape(text);
    var kept := Survivors(lines, ips);
    forall k | 0 <= k < |kept| ensures IsLine(kept[k]) && Survives(kept[k], ips) {
      SurvivorsSpec(lines, ips, kept[k]);
    }
    TerminatedSurvive(kept, ips);
  }

  /**
   * Running the rewrite again for the same pods changes nothing, as long as
   * their names and IPs carry no whitespace and no IP starts with `#`.
   */
  lemma HostsContentIdempotent(text: string, pods: seq<PodStatus>)
    requires forall k :: 0 <= k < |pods| ==> PlainPod(pods[k])
    ensures HostsContent(HostsContent(text, pods), pods) == HostsContent(text, pods)
  {
    var m := IpMapOf(Entries(pods));
    IpMapOfSpec(Entries(pods));
    AddedDropped(pods);
    KeptKept(text, m.ips);
    var t := TerminateAll(Survivors(LinesOf(text), m.ips));
    var added := Added(m);
    var out := HostsContent(text, pods);
    assert out == Concat(t) + Concat(added);
    ConcatAppend(t, added);
    LinesOfConcat(t + added);
    SurvivorsAppend(t, added, m.ips);
    assert t + [] == t;
  }
}
