/**
 * Patching an application's app.config (scripts/utils/deployment/node.py):
 * every `{<key>, ...}` term of the file is overwritten with the value the
 * release built from sources needs, one attribute at a time, and a node's
 * app.config is first copied from the panel's release when there is one.
 */
module DeployNode {
  import opened Util
  import opened Paths
  import opened Application
  import opened NamesAndPaths
  import opened Disk

  // ---------------------------------------------------------------------------
  // re.sub(r'{<key>, .*}', r'{<key>, "<val>"}', content), line by line: '.'
  // does not match a newline, so every match lies within one line; it starts
  // at the line's first '{<key>, ' and, '.*' being greedy, ends at the line's
  // last '}'. The scan resumes after that '}', so each line is rewritten at
  // most once.

  function Tag(key: string): string
  {
    "{" + key + ", "
  }

  function Replacement(key: string, val: string): string
  {
    "{" + key + ", \"" + val + "\"}"
  }

  lemma ReplacementParts(key: string, val: string)
    ensures Replacement(key, val) == Tag(key) + "\"" + val + "\"" + "}"
  {
  }

  /** The position of the last `c` in `s`. */
  function LastIndex(s: string, c: char): (r: Option<nat>)
    ensures r.Some? ==> r.value < |s| && s[r.value] == c && forall j :: r.value < j < |s| ==> s[j] != c
    ensures r.None? ==> !HasChar(s, c)
  {
    if s == [] then None
    else if s[|s| - 1] == c then Some(|s| - 1)
    else
      var r := LastIndex(s[..|s| - 1], c);
      assert forall j :: 0 <= j < |s| - 1 ==> s[..|s| - 1][j] == s[j];
      r
  }

  /** The substitution on one line. */
  function PatchLine(line: string, key: string, val: string): string
  {
    match IndexFrom(Tag(key), line, 0)
    case None => line
    case Some(p) =>
      match LastIndex(line, '}')
      case None => line
      case Some(q) => if q >= p + |Tag(key)| then line[..p] + Replacement(key, val) + line[q + 1..] else line
  }

  /** The pattern matches the line: some '{<key>, ' has a '}' after it. */
  ghost predicate TermIn(line: string, key: string)
  {
    exists p: nat, q :: OccursAt(Tag(key), line, p) && p + |Tag(key)| <= q < |line| && line[q] == '}'
  }

  /**
   * The line is rewritten from its first '{<key>, ' (at `p`) through its last
   * '}' (at `q`).
   */
  predicate RewrittenSpan(line: string, key: string, val: string, r: string, p: nat, q: nat)
  {
    OccursAt(Tag(key), line, p) && (forall j :: 0 <= j < p ==> !OccursAt(Tag(key), line, j)) &&
    p + |Tag(key)| <= q < |line| && line[q] == '}' && (forall j :: q < j < |line| ==> line[j] != '}') &&
    r == line[..p] + Replacement(key, val) + line[q + 1..]
  }

  /** A line holding the term is rewritten over exactly that span; any other line is unchanged. */
  lemma PatchLineSpec(line: string, key: string, val: string)
    ensures !TermIn(line, key) ==> PatchLine(line, key, val) == line
    ensures TermIn(line, key) ==> exists p: nat, q: nat :: RewrittenSpan(line, key, val, PatchLine(line, key, val), p, q)
  {
    var t := Tag(key);
    match IndexFrom(t, line, 0)
    case None =>
    case Some(p) =>
      match LastIndex(line, '}')
      case None =>
      case Some(q) =>
        if q >= p + |t| {
          assert RewrittenSpan(line, key, val, PatchLine(line, key, val), p, q);
        } else {
          forall p': nat, q': nat | OccursAt(t, line, p') && p' + |t| <= q' < |line|
            ensures line[q'] != '}'
          {
            assert p <= p';
          }
        }
  }

  /** An occurrence ending within a common prefix is an occurrence in both strings. */
  lemma OccursInPrefix(t: string, s1: string, s2: string, j: nat, k: nat)
    requires k <= |s1| && k <= |s2| && s1[..k] == s2[..k] && j + |t| <= k
    ensures OccursAt(t, s1, j) <==> OccursAt(t, s2, j)
  {
    assert s1[j..j + |t|] == s1[..k][j..j + |t|];
    assert s2[j..j + |t|] == s2[..k][j..j + |t|];
  }

  lemma LastIndexIs(s: string, c: char, q: nat)
    requires q < |s| && s[q] == c && forall j :: q < j < |s| ==> s[j] != c
    ensures LastIndex(s, c) == Some(q)
  {
  }

  /** The last `c` of `x + [c] + y` is the one in the middle when `y` has none. */
  lemma LastIndexMiddle(x: string, c: char, y: string)
    requires !HasChar(y, c)
    ensures LastIndex(x + [c] + y, c) == Some(|x|)
  {
    var s := x + [c] + y;
    forall j | |x| < j < |s| ensures s[j] != c {
      assert s[j] == y[j - |x| - 1];
    }
    LastIndexIs(s, c, |x|);
  }

  /** Where both the tag and a later '}' are found, the span between them is replaced. */
  lemma PatchLineAt(line: string, key: string, val: string, p: nat, q: nat)
    requires IndexFrom(Tag(key), line, 0) == Some(p) && LastIndex(line, '}') == Some(q) && q >= p + |Tag(key)|
    ensures PatchLine(line, key, val) == line[..p] + Replacement(key, val) + line[q + 1..]
  {
  }

  /** The first '{<key>, ' of a rewritten line is where the replacement starts. */
  lemma FirstTagKept(line: string, key: string, val: string, p: nat, l2: string)
    requires IndexFrom(Tag(key), line, 0) == Some(p)
    requires |l2| >= p + |Tag(key)| && l2[..p + |Tag(key)|] == line[..p + |Tag(key)|]
    ensures IndexFrom(Tag(key), l2, 0) == Some(p)
  {
    var t := Tag(key);
    forall j | 0 <= j < p ensures !OccursAt(t, l2, j) {
      OccursInPrefix(t, l2, line, j, p + |t|);
    }
    OccursInPrefix(t, l2, line, p, p + |t|);
  }

  /** A line rewritten over the span the rewrite chose is left alone by a second rewrite. */
  lemma RewriteFixed(line: string, key: string, val: string, p: nat, q: nat)
    requires IndexFrom(Tag(key), line, 0) == Some(p) && LastIndex(line, '}') == Some(q) && q >= p + |Tag(key)|
    requires !HasChar(val, '}')
    ensures var l2 := line[..p] + Replacement(key, val) + line[q + 1..];
            PatchLine(l2, key, val) == l2
  {
    var x := line[..p] + Tag(key) + "\"" + val + "\"";
    var tail := line[q + 1..];
    var l2 := line[..p] + Replacement(key, val) + tail;
    RewrittenShape(line, key, val, p, q);
    FirstTagKept(line, key, val, p, l2);
    LastIndexMiddle(x, '}', tail);
    PatchLineAt(l2, key, val, p, |x|);
  }

  /** The rewritten line: the text before the tag, the new value, its '}', and a tail without '}'. */
  lemma RewrittenShape(line: string, key: string, val: string, p: nat, q: nat)
    requires IndexFrom(Tag(key), line, 0) == Some(p)
    requires LastIndex(line, '}') == Some(q) && q >= p + |Tag(key)|
    ensures var x := line[..p] + Tag(key) + "\"" + val + "\"";
            var tail := line[q + 1..];
            var l2 := line[..p] + Replacement(key, val) + tail;
            l2 == x + "}" + tail && l2[..p] == line[..p] && l2[|x| + 1..] == tail &&
            !HasChar(tail, '}') && l2[..p + |Tag(key)|] == line[..p + |Tag(key)|]
  {
    var t := Tag(key);
    var tail := line[q + 1..];
    var pre := line[..p];
    ReplacementParts(key, val);
    var x := pre + t + "\"" + val + "\"";
    var l2 := pre + Replacement(key, val) + tail;
    Regroup6(pre, t, "\"", val, "\"", "}", tail);
    assert l2 == x + "}" + tail;
    PrefixOfConcat(pre, t + "\"" + val + "\"" + "}" + tail);
    assert l2 == pre + (t + "\"" + val + "\"" + "}" + tail);
    PrefixOfConcat(pre + t, "\"" + val + "\"" + "}" + tail);
    assert l2 == (pre + t) + ("\"" + val + "\"" + "}" + tail);
    SuffixOfConcat(x, "}", tail);
    PrefixSplit(line, p, |t|);
    forall i | 0 <= i < |tail| ensures tail[i] != '}' {
      assert tail[i] == line[q + 1 + i];
    }
  }

  lemma Regroup6<T>(a: seq<T>, b: seq<T>, c: seq<T>, d: seq<T>, e: seq<T>, f: seq<T>, g: seq<T>)
    ensures a + (b + c + d + e + f) + g == (a + b + c + d + e) + f + g
    ensures a + (b + c + d + e + f) + g == a + (b + c + d + e + f + g)
    ensures a + (b + c + d + e + f) + g == (a + b) + (c + d + e + f + g)
  {
  }

  lemma PrefixOfConcat<T>(a: seq<T>, b: seq<T>)
    ensures (a + b)[..|a|] == a
  {
  }

  lemma SuffixOfConcat<T>(x: seq<T>, m: seq<T>, y: seq<T>)
    ensures (x + m + y)[|x| + |m|..] == y
  {
  }

  /** The first `p + n` elements are the first `p` and the `n` after them. */
  lemma PrefixSplit<T>(s: seq<T>, p: nat, n: nat)
    requires p + n <= |s|
    ensures s[..p + n] == s[..p] + s[p..p + n]
  {
  }

  /** Rewriting a rewritten line changes nothing more, when the value has no '}'. */
  lemma PatchLineIdempotent(line: string, key: string, val: string)
    requires !HasChar(val, '}')
    ensures PatchLine(PatchLine(line, key, val), key, val) == PatchLine(line, key, val)
  {
    match IndexFrom(Tag(key), line, 0)
    case None =>
    case Some(p) =>
      match LastIndex(line, '}')
      case None =>
      case Some(q) =>
        if q >= p + |Tag(key)| {
          PatchLineAt(line, key, val, p, q);
          RewriteFixed(line, key, val, p, q);
        }
  }

  /** Rewriting a line adds no newline when the value has none. */
  lemma PatchLineNoNewline(line: string, key: string, val: string)
    requires !HasChar(line, '\n') && !HasChar(val, '\n')
    ensures !HasChar(PatchLine(line, key, val), '\n')
  {
    var t := Tag(key);
    match IndexFrom(t, line, 0)
    case None =>
    case Some(p) =>
      match LastIndex(line, '}')
      case None =>
      case Some(q) =>
        if q >= p + |t| {
          NoCharSlice(line, 0, p, '\n');
          NoCharSlice(line, p, p + |t|, '\n');
          NoCharSlice(line, q + 1, |line|, '\n');
          assert line[p..p + |t|] == t;
          ReplacementParts(key, val);
          NoCharConcat(t, "\"", '\n');
          NoCharConcat(t + "\"", val, '\n');
          NoCharConcat(t + "\"" + val, "\"" + "}", '\n');
          NoCharConcat(line[..p], Replacement(key, val), '\n');
          assert line[q + 1..] == line[q + 1..|line|];
          NoCharConcat(line[..p] + Replacement(key, val), line[q + 1..], '\n');
        }
  }

  function PatchLines(lines: seq<string>, key: string, val: string): (r: seq<string>)
    ensures |r| == |lines| && forall i :: 0 <= i < |lines| ==> r[i] == PatchLine(lines[i], key, val)
  {
    if lines == [] then [] else [PatchLine(lines[0], key, val)] + PatchLines(lines[1..], key, val)
  }

  /** `re.sub(r'{<key>, .*}', r'{<key>, "<val>"}', content)`. */
  function PatchText(content: string, key: string, val: string): string
  {
    Join(PatchLines(Split(content, '\n'), key, val), "\n")
  }

  /** The text keeps its lines: line `i` of the result is line `i` of the input, rewritten. */
  lemma PatchTextLines(content: string, key: string, val: string)
    requires !HasChar(val, '\n')
    ensures var lines := Split(content, '\n');
            Split(PatchText(content, key, val), '\n') == PatchLines(lines, key, val)
  {
    var lines := Split(content, '\n');
    var patched := PatchLines(lines, key, val);
    forall k | 0 <= k < |patched| ensures !HasChar(patched[k], '\n') {
      PatchLineNoNewline(lines[k], key, val);
    }
    SplitJoin(patched, '\n');
  }

  /**
   * Applying the substitution to its own output changes nothing, when the
   * value holds no '}' and no newline.
   */
  lemma PatchTextIdempotent(content: string, key: string, val: string)
    requires !HasChar(val, '}') && !HasChar(val, '\n')
    ensures PatchText(PatchText(content, key, val), key, val) == PatchText(content, key, val)
  {
    var lines := Split(content, '\n');
    PatchTextLines(content, key, val);
    var once := PatchLines(lines, key, val);
    var twice := PatchLines(once, key, val);
    forall i | 0 <= i < |lines| ensures twice[i] == once[i] {
      PatchLineIdempotent(lines[i], key, val);
    }
    assert twice == once;
  }

  // ---------------------------------------------------------------------------
  // modify_app_config

  /** The key under which an attribute is patched: panels use the 'onepanel' prefix. */
  function AttrKey(appName: string, attr: Attr): string
  {
    (if Contains(appName, APP_TYPE_PANEL) then APP_ONEPANEL else appName) + "_" + AttrName(attr)
  }

  /** The file text after patching the attributes in `entries`, in order. */
  function PatchAll(content: string, appName: string, entries: Entries): string
  {
    if entries == [] then content
    else
      var last := entries[|entries| - 1];
      PatchText(PatchAll(content, appName, entries[..|entries| - 1]), AttrKey(appName, last.0), last.1)
  }

  lemma PatchAllSnoc(content: string, appName: string, entries: Entries, i: nat)
    requires i < |entries|
    ensures PatchAll(content, appName, entries[..i + 1])
         == PatchText(PatchAll(content, appName, entries[..i]), AttrKey(appName, entries[i].0), entries[i].1)
  {
    assert entries[..i + 1][..i] == entries[..i];
  }

  lemma ReplaceTwice(m: map<string, string>, k: string, a: string, b: string)
    ensures m[k := a][k := b] == m[k := b]
  {
  }

  /**
   * `modify_app_config(app, path)`: each attribute re-opens the file, so a
   * missing file fails on the first attribute; an app without attributes
   * never opens it.
   */
  method ModifyAppConfig(fs: FileSystem, app: App, path: string) returns (r: Result<()>)
    modifies fs
    ensures fs.dirs == old(fs.dirs)
    ensures app.config == [] ==> r == Ok(()) && fs.files == old(fs.files)
    ensures app.config != [] && path !in old(fs.files) ==> r == Fail(FileNotFound(path)) && fs.files == old(fs.files)
    ensures path in old(fs.files) ==>
              r == Ok(()) && fs.files == old(fs.files)[path := PatchAll(old(fs.files)[path], app.name, app.config)]
  {
    var i := 0;
    while i < |app.config|
      invariant 0 <= i <= |app.config|
      invariant fs.dirs == old(fs.dirs)
      invariant path !in old(fs.files) ==> i == 0 && fs.files == old(fs.files)
      invariant path in old(fs.files) ==>
                  fs.files == old(fs.files)[path := PatchAll(old(fs.files)[path], app.name, app.config[..i])]
    {
      if path !in fs.files {
        return Fail(FileNotFound(path));
      }
      var (attr, val) := app.config[i];
      var content := fs.files[path];
      PatchAllSnoc(old(fs.files)[path], app.name, app.config, i);
      ReplaceTwice(old(fs.files), path, content, PatchText(content, AttrKey(app.name, attr), val));
      fs.files := fs.files[path := PatchText(content, AttrKey(app.name, attr), val)];
      i := i + 1;
    }
    assert app.config[..|app.config|] == app.config;
    return Ok(());
  }

  // ---------------------------------------------------------------------------
  // Node

  /** A deployed node: its name, its applications and where its files go. */
  datatype Node = Node(nodeName: string, apps: seq<App>, serviceName: string, deploymentDir: string)

  function ServiceDir(n: Node): string
  {
    PathJoin(n.deploymentDir, n.serviceName)
  }

  function RelDir(n: Node): string
  {
    PathJoin(ServiceDir(n), n.nodeName)
  }

  function AppConfigPath(n: Node): string
  {
    PathJoin(RelDir(n), "app.config")
  }

  /** Below a normal deployment directory the node's files are '<dir>/<service>/<node>/app.config'. */
  lemma NodePaths(dir: seq<string>, service: string, node: string, apps: seq<App>)
    requires ValidComps(dir) && ValidComp(service) && ValidComp(node)
    ensures var n := Node(node, apps, service, AbsOf(dir));
            ServiceDir(n) == AbsOf(dir + [service]) &&
            RelDir(n) == AbsOf(dir + [service, node]) &&
            AppConfigPath(n) == AbsOf(dir + [service, node, "app.config"])
  {
    var n := Node(node, apps, service, AbsOf(dir));
    assert Join([service], "/") == service;
    JoinBelow(dir, [service]);
    assert Join([node], "/") == node;
    assert ValidComps(dir + [service]);
    JoinBelow(dir + [service], [node]);
    assert dir + [service] + [node] == dir + [service, node];
    assert ValidComp("app.config") by {
      assert !HasChar("app.config", '/');
    }
    assert Join(["app.config"], "/") == "app.config";
    assert ValidComps(dir + [service, node]);
    JoinBelow(dir + [service, node], ["app.config"]);
    assert dir + [service, node] + ["app.config"] == dir + [service, node, "app.config"];
  }

  /** The index of the first app whose name contains 'panel'. */
  function FirstPanel(apps: seq<App>): (r: Option<nat>)
    ensures r.Some? ==> r.value < |apps| && Contains(apps[r.value].name, APP_TYPE_PANEL) &&
                        forall j :: 0 <= j < r.value ==> !Contains(apps[j].name, APP_TYPE_PANEL)
    ensures r.None? ==> forall j :: 0 <= j < |apps| ==> !Contains(apps[j].name, APP_TYPE_PANEL)
  {
    if apps == [] then None
    else if Contains(apps[0].name, APP_TYPE_PANEL) then Some(0)
    else match FirstPanel(apps[1..])
      case None => None
      case Some(i) => Some(i + 1)
  }

  /** `os.path.basename` of a path ending in '/<b>' is `b`. */
  lemma BasenameAfterSlash(a: string, b: string)
    requires !HasChar(b, '/')
    ensures Basename(a + "/" + b) == b
  {
    var p := a + "/" + b;
    var i := AfterLastSlash(p);
    assert p[|a|] == '/';
    forall k | |a| + 1 <= k < |p| ensures p[k] != '/' {
      assert p[k] == b[k - |a| - 1];
    }
    assert i == |a| + 1;
    assert p[|a| + 1..] == b;
  }

  /** The panel's app.config, and where `shutil.copy` into the node's directory puts it. */
  function PanelConfigSource(releasePath: string): string
  {
    PathJoin(releasePath, "data/app.config")
  }

  lemma CopyTarget(n: Node, releasePath: string)
    ensures PathJoin(RelDir(n), Basename(PanelConfigSource(releasePath))) == AppConfigPath(n)
  {
    SourceBasename(releasePath);
  }

  lemma SourceBasename(releasePath: string)
    ensures Basename(PanelConfigSource(releasePath)) == "app.config"
  {
    var d, sep, f := "data", "/", "app.config";
    assert "data/app.config" == d + sep + f;
    assert !HasChar(f, '/');
    var head := if releasePath == [] || releasePath[|releasePath| - 1] == '/' then releasePath + d
                else releasePath + sep + d;
    assert PanelConfigSource(releasePath) == head + sep + f by {
      if releasePath == [] || releasePath[|releasePath| - 1] == '/' {
        Assoc3(releasePath, d, sep, f);
      } else {
        Assoc4(releasePath, sep, d, sep, f);
      }
    }
    BasenameAfterSlash(head, f);
  }

  lemma Assoc3<T>(a: seq<T>, b: seq<T>, c: seq<T>, e: seq<T>)
    ensures a + (b + c + e) == a + b + c + e
  {
  }

  lemma Assoc4<T>(a: seq<T>, s: seq<T>, b: seq<T>, c: seq<T>, e: seq<T>)
    ensures a + s + (b + c + e) == a + s + b + c + e
  {
  }

  /** The patches of `apps`, in order, to the file at `path`, stopping at the first failure. */
  function PatchApps(files: map<string, string>, apps: seq<App>, path: string): (Result<()>, map<string, string>)
  {
    if apps == [] then (Ok(()), files)
    else
      var app := apps[0];
      if app.config == [] then PatchApps(files, apps[1..], path)
      else if path !in files then (Fail(FileNotFound(path)), files)
      else PatchApps(files[path := PatchAll(files[path], app.name, app.config)], apps[1..], path)
  }

  /**
   * What `modify_node_app_config` does to the files: create the node's
   * directory (a file in its way raises `os.makedirs`' error), copy the
   * sourced panel's app.config into it, if the panel has a release, then
   * patch it app by app.
   */
  function NodeConfig(files: map<string, string>, n: Node): (Result<()>, map<string, string>)
    requires FirstPanel(n.apps).Some?
  {
    var panel := n.apps[FirstPanel(n.apps).value];
    if MakeDirsError(files, RelDir(n)).Some? then (Fail(MakeDirsError(files, RelDir(n)).value), files)
    else if panel.releasePath.Some? && panel.releasePath.value != [] then
      var src := PanelConfigSource(panel.releasePath.value);
      if src !in files then (Fail(FileNotFound(src)), files)
      else PatchApps(files[AppConfigPath(n) := files[src]], n.apps, AppConfigPath(n))
    else PatchApps(files, n.apps, AppConfigPath(n))
  }

  /** `node.modify_node_app_config()`. */
  method ModifyNodeAppConfig(fs: FileSystem, n: Node) returns (r: Result<()>)
    modifies fs
    ensures FirstPanel(n.apps).None? ==> r == Fail(StopIteration) && fs.files == old(fs.files) && fs.dirs == old(fs.dirs)
    ensures FirstPanel(n.apps).Some? ==> (r, fs.files) == NodeConfig(old(fs.files), n)
    ensures FirstPanel(n.apps).Some? ==>
              fs.dirs == if MakeDirsError(old(fs.files), RelDir(n)).None? then MakeDirs(old(fs.dirs), RelDir(n))
                         else old(fs.dirs)
  {
    var panelIndex := FirstPanel(n.apps);
    if panelIndex.None? {
      return Fail(StopIteration);
    }
    var panel := n.apps[panelIndex.value];
    var made := MakeDirsError(fs.files, RelDir(n));
    if made.Some? {
      return Fail(made.value);
    }
    fs.dirs := MakeDirs(fs.dirs, RelDir(n));
    if panel.releasePath.Some? && panel.releasePath.value != [] {
      var src := PanelConfigSource(panel.releasePath.value);
      if src !in fs.files {
        return Fail(FileNotFound(src));
      }
      CopyTarget(n, panel.releasePath.value);
      fs.files := fs.files[PathJoin(RelDir(n), Basename(src)) := fs.files[src]];
    }
    r := PatchNodeApps(fs, n.apps, AppConfigPath(n));
  }

  /** The `for app in self.apps` loop of `modify_node_app_config`. */
  method PatchNodeApps(fs: FileSystem, apps: seq<App>, path: string) returns (r: Result<()>)
    modifies fs
    ensures fs.dirs == old(fs.dirs)
    ensures (r, fs.files) == PatchApps(old(fs.files), apps, path)
  {
    var i := 0;
    assert apps[0..] == apps;
    while i < |apps|
      invariant 0 <= i <= |apps|
      invariant fs.dirs == old(fs.dirs)
      invariant PatchApps(old(fs.files), apps, path) == PatchApps(fs.files, apps[i..], path)
    {
      var res := PatchOneApp(fs, apps, i, path);
      if res.Fail? {
        return res;
      }
      i := i + 1;
    }
    return Ok(());
  }

  /** One turn of the loop: `modify_app_config` of the `i`-th app. */
  method PatchOneApp(fs: FileSystem, apps: seq<App>, i: nat, path: string) returns (res: Result<()>)
    requires i < |apps|
    modifies fs
    ensures fs.dirs == old(fs.dirs)
    ensures res.Fail? ==> (res, fs.files) == PatchApps(old(fs.files), apps[i..], path)
    ensures res.Ok? ==> PatchApps(old(fs.files), apps[i..], path) == PatchApps(fs.files, apps[i + 1..], path)
  {
    PatchAppsStep(fs.files, apps, i, path);
    res := ModifyAppConfig(fs, apps[i], path);
  }

  lemma PatchAppsStep(files: map<string, string>, apps: seq<App>, i: nat, path: string)
    requires i < |apps|
    ensures PatchApps(files, apps[i..], path) ==
              if apps[i].config == [] then PatchApps(files, apps[i + 1..], path)
              else if path !in files then (Fail(FileNotFound(path)), files)
              else PatchApps(files[path := PatchAll(files[path], apps[i].name, apps[i].config)], apps[i + 1..], path)
  {
    assert apps[i..][0] == apps[i] && apps[i..][1..] == apps[i + 1..];
  }

  /** Patching touches no file but the node's app.config. */
  lemma {:induction false} PatchAppsFrame(files: map<string, string>, apps: seq<App>, path: string)
    ensures var (_, files') := PatchApps(files, apps, path);
            files'.Keys == files.Keys + (if path in files then {path} else {}) &&
            forall p :: p in files && p != path ==> p in files' && files'[p] == files[p]
  {
    if apps != [] {
      var app := apps[0];
      if app.config == [] {
        PatchAppsFrame(files, apps[1..], path);
      } else if path in files {
        PatchAppsFrame(files[path := PatchAll(files[path], app.name, app.config)], apps[1..], path);
      }
    }
  }

  /**
   * With a sourced panel whose app.config exists, the node's app.config ends
   * up as that file patched by every app in list order, and no other file
   * changes.
   */
  lemma NodeConfigFromSources(files: map<string, string>, n: Node)
    requires FirstPanel(n.apps).Some?
    requires var panel := n.apps[FirstPanel(n.apps).value];
             panel.releasePath.Some? && panel.releasePath.value != [] &&
             PanelConfigSource(panel.releasePath.value) in files
    ensures MakeDirsError(files, RelDir(n)).Some? ==>
              NodeConfig(files, n) == (Fail(MakeDirsError(files, RelDir(n)).value), files)
    ensures MakeDirsError(files, RelDir(n)).None? ==>
            var panel := n.apps[FirstPanel(n.apps).value];
            var src := PanelConfigSource(panel.releasePath.value);
            var (r, files') := NodeConfig(files, n);
            r == Ok(()) && AppConfigPath(n) in files' && files'[AppConfigPath(n)] == PatchEach(files[src], n.apps) &&
            forall p :: p in files && p != AppConfigPath(n) ==> p in files' && files'[p] == files[p]
  {
    var panel := n.apps[FirstPanel(n.apps).value];
    var src := PanelConfigSource(panel.releasePath.value);
    var start := files[AppConfigPath(n) := files[src]];
    PatchAppsPresent(start, n.apps, AppConfigPath(n));
    PatchAppsFrame(start, n.apps, AppConfigPath(n));
  }

  /** A text patched by each app's attributes in turn. */
  function PatchEach(content: string, apps: seq<App>): string
    decreases apps
  {
    if apps == [] then content else PatchEach(PatchAll(content, apps[0].name, apps[0].config), apps[1..])
  }

  lemma {:induction false} PatchAppsPresent(files: map<string, string>, apps: seq<App>, path: string)
    requires path in files
    ensures var (r, files') := PatchApps(files, apps, path);
            r == Ok(()) && path in files' && files'[path] == PatchEach(files[path], apps)
  {
    if apps != [] {
      var app := apps[0];
      if app.config == [] {
        assert PatchAll(files[path], app.name, app.config) == files[path];
        PatchAppsPresent(files, apps[1..], path);
      } else {
        PatchAppsPresent(files[path := PatchAll(files[path], app.name, app.config)], apps[1..], path);
      }
    }
  }
}
