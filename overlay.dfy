/**
 * The overlay.config writer (scripts/environment/node.py): one Erlang term
 * `[ {onepanel, [ {Key, "Val"}, ... ]} ].` listing every attribute of every
 * application of a node, written line by line into
 * '<deployment dir>/<service>/overlay.config'.
 */
module Overlay {
  import opened Util
  import opened Paths
  import opened Disk

  /** An application as this writer sees it: a name and its attributes in dict order. */
  datatype OverlayApp = OverlayApp(name: string, config: seq<(string, string)>)

  datatype OverlayNode = OverlayNode(name: string, apps: seq<OverlayApp>, serviceName: string, deploymentDir: string)

  const OFFSET: nat := 4

  function Spaces(n: nat): (r: string)
    ensures |r| == n && forall i :: 0 <= i < n ==> r[i] == ' '
  {
    if n == 0 then [] else Spaces(n - 1) + " "
  }

  // ---------------------------------------------------------------------------
  // The text, as lines (each written followed by a newline)

  /** The text of `lines`, each followed by a newline. */
  function Unlines(lines: seq<string>): string
  {
    if lines == [] then [] else Unlines(lines[..|lines| - 1]) + lines[|lines| - 1] + "\n"
  }

  /** The attribute name written for an app: prefixed with '<app>_' unless the app is a panel. */
  function EntryName(appName: string, attr: string): string
  {
    if Contains(appName, "panel") then attr else appName + "_" + attr
  }

  /** `{attr, "val"}` at `indent` spaces, followed by ',' when `comma`. */
  function Render(indent: nat, key: string, val: string, comma: bool): string
  {
    Spaces(indent) + "{" + key + ", \"" + val + "\"}" + (if comma then "," else "")
  }

  function EntryLine(app: OverlayApp, kv: (string, string), indent: nat, comma: bool): string
  {
    Render(indent, EntryName(app.name, kv.0), kv.1, comma)
  }

  /** The comma-terminated lines of the attributes `cfg` of `app`. */
  function EntryLines(app: OverlayApp, cfg: seq<(string, string)>, indent: nat): (r: seq<string>)
    ensures |r| == |cfg|
  {
    if cfg == [] then []
    else EntryLines(app, cfg[..|cfg| - 1], indent) + [EntryLine(app, cfg[|cfg| - 1], indent, true)]
  }

  /** `write_line_to_config_file(app, f, offset)` for an app that is not the last. */
  function AppLines(app: OverlayApp, indent: nat): seq<string>
  {
    EntryLines(app, app.config, indent) + [""]
  }

  /** `write_line_to_config_file(app, f, offset, last_app=True)`: the final entry has no comma. */
  function LastAppLines(app: OverlayApp, indent: nat): seq<string>
    requires app.config != []
  {
    var cfg := app.config;
    EntryLines(app, cfg[..|cfg| - 1], indent) + [EntryLine(app, cfg[|cfg| - 1], indent, false)]
  }

  function BlockLines(apps: seq<OverlayApp>, indent: nat): seq<string>
  {
    if apps == [] then [] else BlockLines(apps[..|apps| - 1], indent) + AppLines(apps[|apps| - 1], indent)
  }

  function HeaderLines(): seq<string>
  {
    ["[", Spaces(OFFSET) + "{onepanel, ["]
  }

  function FooterLines(): seq<string>
  {
    [Spaces(OFFSET) + "]}", "]."]
  }

  /** The entry indentation: two steps of OFFSET. */
  const ENTRY_INDENT: nat := OFFSET + 4

  /**
   * What `Node.__init__` leaves in the file and whether it raises: an empty
   * app list, or a last app without attributes, raises IndexError after
   * the lines written so far.
   */
  function OverlayOutput(apps: seq<OverlayApp>): (Result<()>, string)
  {
    if apps == [] then (Fail(IndexError), Unlines(HeaderLines()))
    else
      var init := apps[..|apps| - 1];
      var last := apps[|apps| - 1];
      if last.config == [] then (Fail(IndexError), Unlines(HeaderLines() + BlockLines(init, ENTRY_INDENT)))
      else (Ok(()), Unlines(HeaderLines() + BodyLines(apps) + FooterLines()))
  }

  /** The lines between header and footer of a complete file. */
  function BodyLines(apps: seq<OverlayApp>): seq<string>
    requires apps != [] && apps[|apps| - 1].config != []
  {
    BlockLines(apps[..|apps| - 1], ENTRY_INDENT) + LastAppLines(apps[|apps| - 1], ENTRY_INDENT)
  }

  // ---------------------------------------------------------------------------
  // The writer

  function ServiceDir(n: OverlayNode): string
  {
    PathJoin(n.deploymentDir, n.serviceName)
  }

  /** The file depends on the deployment directory and service only, not on the node. */
  function OverlayPath(n: OverlayNode): string
  {
    PathJoin(ServiceDir(n), "overlay.config")
  }

  lemma {:induction false} UnlinesAppend(a: seq<string>, b: seq<string>)
    ensures Unlines(a + b) == Unlines(a) + Unlines(b)
    decreases |b|
  {
    if b != [] {
      var b' := b[..|b| - 1];
      assert (a + b)[..|a + b| - 1] == a + b';
      UnlinesAppend(a, b');
    } else {
      assert a + b == a;
    }
  }

  lemma UnlinesSnoc(a: seq<string>, l: string)
    ensures Unlines(a + [l]) == Unlines(a) + l + "\n"
  {
    assert (a + [l])[..|a|] == a;
  }

  /** Writing one more line after `base` and the lines `a`. */
  lemma WriteLine(base: string, a: seq<string>, l: string)
    ensures base + Unlines(a) + (l + "\n") == base + Unlines(a + [l])
  {
    UnlinesSnoc(a, l);
  }

  lemma EntryLinesSnoc(app: OverlayApp, cfg: seq<(string, string)>, i: nat, indent: nat)
    requires i < |cfg|
    ensures EntryLines(app, cfg[..i + 1], indent) == EntryLines(app, cfg[..i], indent) + [EntryLine(app, cfg[i], indent, true)]
  {
    assert cfg[..i + 1][..i] == cfg[..i];
  }

  /** The `for attr, val in ...` loop of `write_line_to_config_file`: one comma-terminated line per attribute. */
  method WriteEntries(fs: FileSystem, path: string, app: OverlayApp, cfg: seq<(string, string)>, offset: nat)
    requires path in fs.files
    modifies fs
    ensures fs.dirs == old(fs.dirs)
    ensures fs.files == old(fs.files)[path := old(fs.files)[path] + Unlines(EntryLines(app, cfg, offset))]
  {
    ghost var base := fs.files[path];
    var i := 0;
    assert cfg[..0] == [];
    assert base + Unlines(EntryLines(app, cfg[..0], offset)) == base;
    while i < |cfg|
      invariant 0 <= i <= |cfg|
      invariant path in fs.files && fs.dirs == old(fs.dirs)
      invariant fs.files == old(fs.files)[path := base + Unlines(EntryLines(app, cfg[..i], offset))]
    {
      var line := EntryLine(app, cfg[i], offset, true);
      fs.Append(path, line + "\n");
      WriteLine(base, EntryLines(app, cfg[..i], offset), line);
      EntryLinesSnoc(app, cfg, i, offset);
      i := i + 1;
    }
    assert cfg[..i] == cfg;
  }

  /** `write_line_to_config_file`. */
  method WriteAppLines(fs: FileSystem, path: string, app: OverlayApp, offset: nat, lastApp: bool)
    returns (r: Result<()>)
    requires path in fs.files
    modifies fs
    ensures fs.dirs == old(fs.dirs)
    ensures !lastApp ==> r == Ok(()) && fs.files == old(fs.files)[path := old(fs.files)[path] + Unlines(AppLines(app, offset))]
    ensures lastApp && app.config == [] ==> r == Fail(IndexError) && fs.files == old(fs.files)
    ensures lastApp && app.config != [] ==>
              r == Ok(()) && fs.files == old(fs.files)[path := old(fs.files)[path] + Unlines(LastAppLines(app, offset))]
  {
    var cfg := app.config;
    ghost var base := fs.files[path];
    if !lastApp {
      WriteEntries(fs, path, app, cfg, offset);
      fs.Append(path, "" + "\n");
      WriteLine(base, EntryLines(app, cfg, offset), "");
      return Ok(());
    }
    if cfg == [] {
      return Fail(IndexError);
    }
    var n := |cfg| - 1;
    WriteEntries(fs, path, app, cfg[..n], offset);
    var line := EntryLine(app, cfg[n], offset, false);
    fs.Append(path, line + "\n");
    WriteLine(base, EntryLines(app, cfg[..n], offset), line);
    return Ok(());
  }

  lemma MapUpdateTwice<K, V>(m: map<K, V>, k: K, a: V, b: V)
    ensures m[k := a][k := b] == m[k := b]
  {
  }

  lemma HeaderText()
    ensures "" + ("[" + "\n") + (Spaces(OFFSET) + "{onepanel, [" + "\n") == Unlines(HeaderLines())
  {
    UnlinesSnoc([], "[");
    assert [] + ["["] == ["["];
    UnlinesSnoc(["["], Spaces(OFFSET) + "{onepanel, [");
    assert ["["] + [Spaces(OFFSET) + "{onepanel, ["] == HeaderLines();
  }

  lemma FooterText(lines: seq<string>)
    ensures Unlines(lines) + (Spaces(OFFSET) + "]}" + "\n") + ("]." + "\n") == Unlines(lines + FooterLines())
  {
    UnlinesSnoc(lines, Spaces(OFFSET) + "]}");
    UnlinesSnoc(lines + [Spaces(OFFSET) + "]}"], "].");
    assert lines + [Spaces(OFFSET) + "]}"] + ["]."] == lines + FooterLines();
  }

  lemma BlockStep(base: string, apps: seq<OverlayApp>, i: nat, indent: nat)
    requires i < |apps|
    ensures base + Unlines(BlockLines(apps[..i], indent)) + Unlines(AppLines(apps[i], indent))
         == base + Unlines(BlockLines(apps[..i + 1], indent))
  {
    assert apps[..i + 1][..i] == apps[..i];
    UnlinesAppend(BlockLines(apps[..i], indent), AppLines(apps[i], indent));
  }

  lemma ClosingStep(apps: seq<OverlayApp>)
    requires apps != [] && apps[|apps| - 1].config != []
    ensures Unlines(HeaderLines() + BlockLines(apps[..|apps| - 1], ENTRY_INDENT))
          + Unlines(LastAppLines(apps[|apps| - 1], ENTRY_INDENT) + FooterLines())
         == OverlayOutput(apps).1
  {
    var block := BlockLines(apps[..|apps| - 1], ENTRY_INDENT);
    var lastLines := LastAppLines(apps[|apps| - 1], ENTRY_INDENT);
    calc {
      Unlines(HeaderLines() + block) + Unlines(lastLines + FooterLines());
      { UnlinesAppend(HeaderLines() + block, lastLines + FooterLines()); }
      Unlines((HeaderLines() + block) + (lastLines + FooterLines()));
      { Regroup(HeaderLines(), block, lastLines, FooterLines()); }
      Unlines(HeaderLines() + (block + lastLines) + FooterLines());
      { assert BodyLines(apps) == block + lastLines; }
      Unlines(HeaderLines() + BodyLines(apps) + FooterLines());
    }
  }

  lemma Regroup<T>(a: seq<T>, b: seq<T>, c: seq<T>, d: seq<T>)
    ensures (a + b) + (c + d) == a + (b + c) + d
  {
  }

  /** The `for app in self.apps[:-1]` loop: every app but the last, each with its blank line. */
  method WriteBlocks(fs: FileSystem, path: string, apps: seq<OverlayApp>, offset: nat)
    requires path in fs.files
    modifies fs
    ensures fs.dirs == old(fs.dirs)
    ensures fs.files == old(fs.files)[path := old(fs.files)[path] + Unlines(BlockLines(apps, offset))]
  {
    ghost var base := fs.files[path];
    var i := 0;
    assert apps[..0] == [];
    assert base + Unlines(BlockLines(apps[..0], offset)) == base;
    while i < |apps|
      invariant 0 <= i <= |apps|
      invariant path in fs.files && fs.dirs == old(fs.dirs)
      invariant fs.files == old(fs.files)[path := base + Unlines(BlockLines(apps[..i], offset))]
    {
      var _ := WriteAppLines(fs, path, apps[i], offset, false);
      BlockStep(base, apps, i, offset);
      i := i + 1;
    }
    assert apps[..i] == apps;
  }

  /** The last app, without a comma after its final entry, and the closing lines, with `offset` back at 0. */
  method WriteLastApp(fs: FileSystem, path: string, last: OverlayApp, offset: nat) returns (r: Result<()>)
    requires path in fs.files && offset == ENTRY_INDENT
    modifies fs
    ensures fs.dirs == old(fs.dirs)
    ensures last.config == [] ==> r == Fail(IndexError) && fs.files == old(fs.files)
    ensures last.config != [] ==>
              r == Ok(()) && fs.files == old(fs.files)[path := old(fs.files)[path] + Unlines(LastAppLines(last, offset) + FooterLines())]
  {
    r := WriteAppLines(fs, path, last, offset, true);
    if r.Fail? {
      return;
    }
    var offset := offset - 4;
    fs.Append(path, Spaces(offset) + "]}" + "\n");
    offset := offset - 4;
    fs.Append(path, "]." + "\n");
    ClosingText(old(fs.files)[path], LastAppLines(last, ENTRY_INDENT));
  }

  lemma ClosingText(base: string, lines: seq<string>)
    ensures base + Unlines(lines) + (Spaces(OFFSET) + "]}" + "\n") + ("]." + "\n")
         == base + Unlines(lines + FooterLines())
  {
    FooterText(lines);
  }

  /** The file is opened for writing and gets its two header lines. */
  method WriteHeader(fs: FileSystem, path: string)
    modifies fs
    ensures fs.dirs == old(fs.dirs)
    ensures fs.files == old(fs.files)[path := Unlines(HeaderLines())]
  {
    fs.files := fs.files[path := ""];
    fs.Append(path, "[" + "\n");
    fs.Append(path, Spaces(OFFSET) + "{onepanel, [" + "\n");
    HeaderText();
    MapUpdateTwice(old(fs.files), path, "" + ("[" + "\n"), Unlines(HeaderLines()));
  }

  /** After the header: every app but the last, then the last app and the footer. */
  method WriteApps(fs: FileSystem, path: string, apps: seq<OverlayApp>) returns (r: Result<()>)
    requires path in fs.files && fs.files[path] == Unlines(HeaderLines())
    modifies fs
    ensures fs.dirs == old(fs.dirs)
    ensures r == OverlayOutput(apps).0 && fs.files == old(fs.files)[path := OverlayOutput(apps).1]
  {
    var offset: nat := ENTRY_INDENT;
    var init := if apps == [] then [] else apps[..|apps| - 1];
    WriteBlocks(fs, path, init, offset);
    UnlinesAppend(HeaderLines(), BlockLines(init, offset));
    if apps == [] {
      assert HeaderLines() + BlockLines(init, offset) == HeaderLines();
      MapUpdateTwice(old(fs.files), path, Unlines(HeaderLines()), Unlines(HeaderLines()));
      return Fail(IndexError);
    }
    ghost var written := Unlines(HeaderLines() + BlockLines(init, offset));
    assert fs.files == old(fs.files)[path := written];
    r := WriteLastApp(fs, path, apps[|apps| - 1], offset);
    if r.Fail? {
      return;
    }
    ClosingStep(apps);
    MapUpdateTwice(old(fs.files), path, written, OverlayOutput(apps).1);
  }

  /** `Node(name, apps, service_name, deployment_dir)`: writes the service's overlay.config. */
  method WriteOverlay(fs: FileSystem, n: OverlayNode) returns (r: Result<()>)
    modifies fs
    ensures fs.dirs == old(fs.dirs)
    ensures ServiceDir(n) !in old(fs.dirs) ==> r == Fail(FileNotFound(OverlayPath(n))) && fs.files == old(fs.files)
    ensures ServiceDir(n) in old(fs.dirs) ==>
              r == OverlayOutput(n.apps).0 && fs.files == old(fs.files)[OverlayPath(n) := OverlayOutput(n.apps).1]
  {
    var path := OverlayPath(n);
    if ServiceDir(n) !in fs.dirs {
      return Fail(FileNotFound(path));
    }
    WriteHeader(fs, path);
    r := WriteApps(fs, path, n.apps);
    MapUpdateTwice(old(fs.files), path, Unlines(HeaderLines()), OverlayOutput(n.apps).1);
  }

  // ---------------------------------------------------------------------------
  // What the rendered text is: a header, one entry line per attribute in app
  // order and then dict order, a blank line after each app but the last, a
  // footer, and a comma after every entry but the very last one.

  /** The total number of attributes. */
  function Total(apps: seq<OverlayApp>): nat
  {
    if apps == [] then 0 else Total(apps[..|apps| - 1]) + |apps[|apps| - 1].config|
  }

  /** The attributes of `cfg` under the names written for `app`. */
  function Named(app: OverlayApp, cfg: seq<(string, string)>): (r: seq<(string, string)>)
    ensures |r| == |cfg| && forall i :: 0 <= i < |cfg| ==> r[i] == (EntryName(app.name, cfg[i].0), cfg[i].1)
  {
    if cfg == [] then [] else Named(app, cfg[..|cfg| - 1]) + [(EntryName(app.name, cfg[|cfg| - 1].0), cfg[|cfg| - 1].1)]
  }

  /** Every attribute of every app, in app order and then dict order, under its written name. */
  function Flat(apps: seq<OverlayApp>): (r: seq<(string, string)>)
    ensures |r| == Total(apps)
  {
    if apps == [] then [] else Flat(apps[..|apps| - 1]) + Named(apps[|apps| - 1], apps[|apps| - 1].config)
  }

  function Commas(ps: seq<(string, string)>, indent: nat): (r: seq<string>)
    ensures |r| == |ps| && forall i :: 0 <= i < |ps| ==> r[i] == Render(indent, ps[i].0, ps[i].1, true)
  {
    if ps == [] then [] else Commas(ps[..|ps| - 1], indent) + [Render(indent, ps[|ps| - 1].0, ps[|ps| - 1].1, true)]
  }

  /** The entries as a comma-separated Erlang list: the last has no comma. */
  function ListEntries(ps: seq<(string, string)>, indent: nat): seq<string>
    requires ps != []
  {
    Commas(ps[..|ps| - 1], indent) + [Render(indent, ps[|ps| - 1].0, ps[|ps| - 1].1, false)]
  }

  /** The lines that are not blank. */
  function NonBlank(lines: seq<string>): seq<string>
  {
    if lines == [] then []
    else NonBlank(lines[..|lines| - 1]) + (if lines[|lines| - 1] == "" then [] else [lines[|lines| - 1]])
  }

  lemma {:induction false} NonBlankAppend(a: seq<string>, b: seq<string>)
    ensures NonBlank(a + b) == NonBlank(a) + NonBlank(b)
    decreases |b|
  {
    if b == [] {
      assert a + b == a;
    } else {
      assert (a + b)[..|a + b| - 1] == a + b[..|b| - 1];
      NonBlankAppend(a, b[..|b| - 1]);
    }
  }

  lemma {:induction false} NonBlankEntries(ls: seq<string>)
    requires forall i :: 0 <= i < |ls| ==> ls[i] != ""
    ensures NonBlank(ls) == ls
    decreases |ls|
  {
    if ls != [] {
      NonBlankEntries(ls[..|ls| - 1]);
    }
  }

  lemma RenderNotBlank(indent: nat, key: string, val: string, comma: bool)
    ensures Render(indent, key, val, comma) != ""
  {
    assert |Render(indent, key, val, comma)| >= 1;
  }

  lemma CommasNotBlank(ps: seq<(string, string)>, indent: nat)
    ensures NonBlank(Commas(ps, indent)) == Commas(ps, indent)
  {
    var c := Commas(ps, indent);
    forall i | 0 <= i < |c| ensures c[i] != "" {
      RenderNotBlank(indent, ps[i].0, ps[i].1, true);
    }
    NonBlankEntries(c);
  }

  lemma EntryLinesNamed(app: OverlayApp, cfg: seq<(string, string)>, indent: nat)
    ensures EntryLines(app, cfg, indent) == Commas(Named(app, cfg), indent)
  {
    var e := EntryLines(app, cfg, indent);
    var c := Commas(Named(app, cfg), indent);
    forall i | 0 <= i < |cfg| ensures e[i] == c[i] {
      EntryLinesAt(app, cfg, indent, i);
    }
  }

  lemma {:induction false} EntryLinesAt(app: OverlayApp, cfg: seq<(string, string)>, indent: nat, i: nat)
    requires i < |cfg|
    ensures EntryLines(app, cfg, indent)[i] == EntryLine(app, cfg[i], indent, true)
    decreases |cfg|
  {
    if i < |cfg| - 1 {
      EntryLinesAt(app, cfg[..|cfg| - 1], indent, i);
    }
  }

  /** The app blocks hold one entry per attribute and one blank line per app. */
  lemma {:induction false} BlockEntries(apps: seq<OverlayApp>, indent: nat)
    ensures NonBlank(BlockLines(apps, indent)) == Commas(Flat(apps), indent)
    ensures |BlockLines(apps, indent)| == Total(apps) + |apps|
    decreases |apps|
  {
    if apps != [] {
      var init := apps[..|apps| - 1];
      var last := apps[|apps| - 1];
      BlockEntries(init, indent);
      NonBlankAppend(BlockLines(init, indent), AppLines(last, indent));
      NonBlankAppend(EntryLines(last, last.config, indent), [""]);
      EntryLinesNamed(last, last.config, indent);
      CommasNotBlank(Named(last, last.config), indent);
      assert NonBlank([""]) == [];
      CommasAppend(Flat(init), Named(last, last.config), indent);
    }
  }

  lemma CommasAppend(a: seq<(string, string)>, b: seq<(string, string)>, indent: nat)
    ensures Commas(a + b, indent) == Commas(a, indent) + Commas(b, indent)
  {
  }

  /** The last app's lines are its entries as a comma-separated list. */
  lemma LastAppEntries(last: OverlayApp)
    requires last.config != []
    ensures NonBlank(LastAppLines(last, ENTRY_INDENT)) == ListEntries(Named(last, last.config), ENTRY_INDENT)
  {
    var cfg := last.config;
    var k := |cfg| - 1;
    var lastLine := EntryLine(last, cfg[k], ENTRY_INDENT, false);
    NonBlankAppend(EntryLines(last, cfg[..k], ENTRY_INDENT), [lastLine]);
    EntryLinesNamed(last, cfg[..k], ENTRY_INDENT);
    CommasNotBlank(Named(last, cfg[..k]), ENTRY_INDENT);
    RenderNotBlank(ENTRY_INDENT, EntryName(last.name, cfg[k].0), cfg[k].1, false);
    assert NonBlank([lastLine]) == [lastLine] by {
      assert [lastLine][..0] == [];
    }
    var named := Named(last, cfg);
    assert named[..k] == Named(last, cfg[..k]);
  }

  lemma ListEntriesAppend(a: seq<(string, string)>, b: seq<(string, string)>, indent: nat)
    requires b != []
    ensures ListEntries(a + b, indent) == Commas(a, indent) + ListEntries(b, indent)
  {
    var ab := a + b;
    var b' := b[..|b| - 1];
    var lastLine := Render(indent, b[|b| - 1].0, b[|b| - 1].1, false);
    calc {
      ListEntries(ab, indent);
      Commas(ab[..|ab| - 1], indent) + [Render(indent, ab[|ab| - 1].0, ab[|ab| - 1].1, false)];
      { assert ab[..|ab| - 1] == a + b'; assert ab[|ab| - 1] == b[|b| - 1]; }
      Commas(a + b', indent) + [lastLine];
      { CommasAppend(a, b', indent); }
      (Commas(a, indent) + Commas(b', indent)) + [lastLine];
      Commas(a, indent) + (Commas(b', indent) + [lastLine]);
      Commas(a, indent) + ListEntries(b, indent);
    }
  }

  /**
   * A complete file lists every attribute once, in app order and then dict
   * order, each under its written name, all but the very last followed by
   * a comma; the only other body lines are one blank line after each app but
   * the last.
   */
  lemma BodyEntries(apps: seq<OverlayApp>)
    requires apps != [] && apps[|apps| - 1].config != []
    ensures NonBlank(BodyLines(apps)) == ListEntries(Flat(apps), ENTRY_INDENT)
    ensures |NonBlank(BodyLines(apps))| == Total(apps)
    ensures |BodyLines(apps)| == Total(apps) + |apps| - 1
  {
    var init := apps[..|apps| - 1];
    var last := apps[|apps| - 1];
    BlockEntries(init, ENTRY_INDENT);
    NonBlankAppend(BlockLines(init, ENTRY_INDENT), LastAppLines(last, ENTRY_INDENT));
    LastAppEntries(last);
    ListEntriesAppend(Flat(init), Named(last, last.config), ENTRY_INDENT);
    assert |ListEntries(Flat(apps), ENTRY_INDENT)| == |Flat(apps)|;
  }

  lemma HeaderIs()
    ensures Unlines(HeaderLines()) == "[\n    {onepanel, [\n"
  {
    HeaderText();
    assert Spaces(OFFSET) == "    ";
  }

  lemma FooterIs()
    ensures Unlines(FooterLines()) == "    ]}\n].\n"
  {
    FooterText([]);
    assert [] + FooterLines() == FooterLines();
    assert Spaces(OFFSET) == "    ";
  }

  lemma Framed(head: string, body: string, foot: string)
    ensures var text := head + body + foot;
            text[..|head|] == head && text[|text| - |foot|..] == foot
  {
  }

  /** A complete file opens with the onepanel list and closes it. */
  lemma OverlayFrame(apps: seq<OverlayApp>)
    requires apps != [] && apps[|apps| - 1].config != []
    ensures OverlayOutput(apps).0 == Ok(())
    ensures var text := OverlayOutput(apps).1;
            var head := "[\n    {onepanel, [\n";
            var foot := "    ]}\n].\n";
            |text| >= |head| + |foot| && text[..|head|] == head && text[|text| - |foot|..] == foot
  {
    UnlinesAppend(HeaderLines() + BodyLines(apps), FooterLines());
    UnlinesAppend(HeaderLines(), BodyLines(apps));
    HeaderIs();
    FooterIs();
    Framed(Unlines(HeaderLines()), Unlines(BodyLines(apps)), Unlines(FooterLines()));
  }
}
