/**
 * The general helpers of scripts/utils/common.py: random names, in-place
 * text replacement in a file, recreating a directory, looking for a file
 * along a list of relative paths, and naming the git repository a source
 * tree was cloned from. The random generator, the regular-expression
 * engine, the working directory and the output of `git` are parameters.
 */
module Common {
  import opened Util
  import opened Paths
  import opened Disk
  import opened SourcesPaths

  // ---------------------------------------------------------------------------
  // random_string

  predicate IsAsciiLetter(c: char) { 'a' <= c <= 'z' || 'A' <= c <= 'Z' }

  /** The letter at position `i` of `string.ascii_letters`: lower case first, then upper case. */
  function LetterAt(i: nat): (c: char)
    requires i < 52
    ensures IsAsciiLetter(c)
  {
    if i < 26 then ('a' as int + i) as char else ('A' as int + (i - 26)) as char
  }

  /** `string.ascii_letters`: `a` to `z`, then `A` to `Z`. */
  function AsciiLetters(): (r: string)
    ensures |r| == 52 && forall i :: 0 <= i < 52 ==> r[i] == LetterAt(i)
  {
    seq(52, i requires 0 <= i < 52 => LetterAt(i))
  }

  /** Where `c` stands in `string.ascii_letters`. */
  function LetterIndex(c: char): (i: nat)
    requires IsAsciiLetter(c)
    ensures i < 52 && AsciiLetters()[i] == c
  {
    if 'a' <= c <= 'z' then c as int - 'a' as int else 26 + c as int - 'A' as int
  }

  /**
   * `random_string(n)`: `n` draws of `random.choice(string.ascii_letters)`;
   * the `i`-th draw picks position `pick(i)` (taken modulo the alphabet's
   * size). `range` of a negative count is empty.
   */
  function RandomString(n: int, pick: nat -> nat): (r: string)
    ensures |r| == if n < 0 then 0 else n
    ensures forall i :: 0 <= i < |r| ==> IsAsciiLetter(r[i])
  {
    assert forall k :: 0 <= k < 52 ==> IsAsciiLetter(AsciiLetters()[k]);
    if n <= 0 then []
    else seq(n, i requires 0 <= i < n => AsciiLetters()[pick(i) % 52])
  }

  /** Every string of ASCII letters of the right length is a possible result. */
  lemma RandomStringCovers(s: string)
    requires forall i :: 0 <= i < |s| ==> IsAsciiLetter(s[i])
    ensures exists pick: nat -> nat :: RandomString(|s|, pick) == s
  {
    var pick := (i: nat) => if i < |s| then LetterIndex(s[i]) else 0;
    if s != [] {
      var r := RandomString(|s|, pick);
      forall i | 0 <= i < |s| ensures r[i] == s[i] {
        assert pick(i) == LetterIndex(s[i]);
      }
      assert r == s;
    }
    assert RandomString(|s|, pick) == s;
  }

  // ---------------------------------------------------------------------------
  // Lines as file iteration yields them

  /** Glues lines back together. */
  function Concat(lines: seq<string>): string
  {
    if lines == [] then [] else Concat(lines[..|lines| - 1]) + lines[|lines| - 1]
  }

  lemma ConcatCons(x: string, lines: seq<string>)
    ensures Concat([x] + lines) == x + Concat(lines)
    decreases |lines|
  {
    if lines != [] {
      var init := lines[..|lines| - 1];
      assert ([x] + lines)[..|lines|] == [x] + init;
      ConcatCons(x, init);
    }
  }

  /**
   * The lines `for line in file` yields: each ends just after a newline,
   * except possibly the last, and keeps that newline.
   */
  function LinesOf(s: string): (r: seq<string>)
    decreases |s|
  {
    if s == [] then []
    else
      var rest := LinesOf(s[1..]);
      if s[0] == '\n' || rest == [] then [[s[0]]] + rest
      else [[s[0]] + rest[0]] + rest[1..]
  }

  /** A line holds a newline at most as its last character. */
  predicate IsLine(l: string)
  {
    l != [] && forall j :: 0 <= j < |l| - 1 ==> l[j] != '\n'
  }

  /** Every line but the last ends with its newline. */
  predicate Terminated(lines: seq<string>)
  {
    forall k :: 0 <= k < |lines| - 1 ==> lines[k] != [] && lines[k][|lines[k]| - 1] == '\n'
  }

  /** Gluing the lines back together gives the text. */
  lemma {:induction false} LinesConcat(s: string)
    ensures Concat(LinesOf(s)) == s
    decreases |s|
  {
    if s != [] {
      LinesConcat(s[1..]);
      var rest := LinesOf(s[1..]);
      assert s == [s[0]] + s[1..];
      if s[0] == '\n' || rest == [] {
        ConcatCons([s[0]], rest);
      } else {
        var first := [s[0]] + rest[0];
        assert rest == [rest[0]] + rest[1..];
        ConcatCons(rest[0], rest[1..]);
        ConcatCons(first, rest[1..]);
      }
    }
  }

  /** Only the empty text has no lines. */
  lemma LinesEmpty(s: string)
    ensures s == [] <==> LinesOf(s) == []
  {
  }

  /** The first line of a text. */
  lemma {:induction false} LinesFirst(s: string)
    requires s != []
    ensures var r := LinesOf(s); r != [] && IsLine(r[0]) && r[0][0] == s[0]
    ensures var r := LinesOf(s); |r| > 1 ==> r[0][|r[0]| - 1] == '\n'
    decreases |s|
  {
    var rest := LinesOf(s[1..]);
    if s[0] != '\n' && rest != [] {
      LinesFirst(s[1..]);
      var first := [s[0]] + rest[0];
      assert IsLine(first) by {
        forall j | 0 <= j < |first| - 1 ensures first[j] != '\n' {
          if j > 0 { assert first[j] == rest[0][j - 1]; }
        }
      }
      if |rest| > 1 {
        assert first[|first| - 1] == rest[0][|rest[0]| - 1];
      }
    }
  }

  /** Every line is a line, and every line but the last ends with its newline. */
  lemma {:induction false} LinesShape(s: string)
    ensures forall k :: 0 <= k < |LinesOf(s)| ==> IsLine(LinesOf(s)[k])
    ensures Terminated(LinesOf(s))
    decreases |s|
  {
    if s != [] {
      LinesShape(s[1..]);
      LinesFirst(s);
      var rest := LinesOf(s[1..]);
      var r := LinesOf(s);
      if s[0] == '\n' || rest == [] {
        assert r[1..] == rest;
      } else {
        assert r[1..] == rest[1..];
      }
      forall k | 1 <= k < |r| ensures IsLine(r[k]) && (k < |r| - 1 ==> r[k] != [] && r[k][|r[k]| - 1] == '\n') {
        assert r[k] == r[1..][k - 1];
      }
    }
  }

  /** Gluing two runs of lines is gluing each and joining the texts. */
  lemma {:induction false} ConcatAppend(a: seq<string>, b: seq<string>)
    ensures Concat(a + b) == Concat(a) + Concat(b)
    decreases |b|
  {
    if b != [] {
      var init := b[..|b| - 1];
      assert (a + b)[..|a + b| - 1] == a + init;
      assert (a + b)[|a + b| - 1] == b[|b| - 1];
      ConcatAppend(a, init);
    } else {
      assert a + b == a;
    }
  }

  /** A complete line in front of a text is that text's first line. */
  lemma {:induction false} LinesOfPrepend(x: string, rest: string)
    requires IsLine(x) && x[|x| - 1] == '\n'
    ensures LinesOf(x + rest) == [x] + LinesOf(rest)
    decreases |x|
  {
    var s := x + rest;
    assert s[1..] == x[1..] + rest;
    if |x| > 1 {
      assert IsLine(x[1..]) by {
        forall j | 0 <= j < |x[1..]| - 1 ensures x[1..][j] != '\n' {
          assert x[1..][j] == x[j + 1];
        }
      }
      LinesOfPrepend(x[1..], rest);
      assert s[0] == x[0] && x[0] != '\n';
      assert [s[0]] + x[1..] == x;
    } else {
      assert x == "\n";
    }
  }

  /** Complete lines glued together split back into the same lines. */
  lemma {:induction false} LinesOfConcat(lines: seq<string>)
    requires forall k :: 0 <= k < |lines| ==> IsLine(lines[k]) && lines[k][|lines[k]| - 1] == '\n'
    ensures LinesOf(Concat(lines)) == lines
    decreases |lines|
  {
    if lines != [] {
      assert lines == [lines[0]] + lines[1..];
      ConcatCons(lines[0], lines[1..]);
      LinesOfConcat(lines[1..]);
      LinesOfPrepend(lines[0], Concat(lines[1..]));
    }
  }

  // ---------------------------------------------------------------------------
  // replace_in_file_using_fileinput

  /**
   * What is printed back for one line: `re.sub(pattern, value, line)` in
   * regexp mode, given here as `sub`, or `line.replace(pattern, value)`.
   */
  function LineOut(line: string, pattern: string, value: string, regexp: bool, sub: string -> string): string
  {
    if regexp then sub(line) else ReplaceAll(line, pattern, value)
  }

  function LinesOut(lines: seq<string>, pattern: string, value: string, regexp: bool, sub: string -> string): (r: seq<string>)
    ensures |r| == |lines|
    ensures forall k :: 0 <= k < |lines| ==> r[k] == LineOut(lines[k], pattern, value, regexp, sub)
  {
    seq(|lines|, k requires 0 <= k < |lines| => LineOut(lines[k], pattern, value, regexp, sub))
  }

  /** The text the file holds once every line has been printed back. */
  function FileinputText(text: string, pattern: string, value: string, regexp: bool, sub: string -> string): string
  {
    Concat(LinesOut(LinesOf(text), pattern, value, regexp, sub))
  }

  /**
   * The name fileinput moves the original to: the path with the backup
   * suffix, `.bak` when none is given.
   */
  function BackupName(path: string, backup: string): (r: string)
    ensures |r| > |path| && r[..|path|] == path
  {
    path + if backup == [] then ".bak" else backup
  }

  /**
   * The files after the rewrite: the original moved to its backup name,
   * which is removed again when no backup suffix was asked for (taking any
   * file of that name with it), and the path holding the rewritten text.
   */
  function AfterFileinput(files: map<string, string>, path: string, backup: string, out: string): (r: map<string, string>)
    requires path in files
    ensures path in r && r[path] == out
    ensures backup != [] ==> BackupName(path, backup) in r && r[BackupName(path, backup)] == files[path]
    ensures backup == [] ==> BackupName(path, backup) !in r
    ensures forall p :: p in files && p != path && p != BackupName(path, backup) ==> p in r && r[p] == files[p]
    ensures forall p :: p in r ==> p in files || p == BackupName(path, backup)
  {
    var bak := BackupName(path, backup);
    var moved := (files - {path})[bak := files[path]];
    var written := moved[path := out];
    if backup == [] then written - {bak} else written
  }

  /**
   * `replace_in_file_using_fileinput(file_path, pattern, value, backup,
   * regexp)`: every line printed back, rewritten, into a fresh file at the
   * same path. A missing file is a FileNotFoundError before anything moves.
   */
  method ReplaceInFileUsingFileinput(fs: FileSystem, path: string, pattern: string, value: string,
                                     backup: string, regexp: bool, sub: string -> string)
    returns (r: Result<()>)
    modifies fs
    ensures fs.dirs == old(fs.dirs)
    ensures path !in old(fs.files) ==> r == Fail(FileNotFound(path)) && fs.files == old(fs.files)
    ensures path in old(fs.files) ==>
              r == Ok(()) &&
              fs.files == AfterFileinput(old(fs.files), path, backup,
                                         FileinputText(old(fs.files)[path], pattern, value, regexp, sub))
  {
    if path !in fs.files {
      return Fail(FileNotFound(path));
    }
    ghost var original := fs.files;
    var text := fs.files[path];
    var bak := BackupName(path, backup);
    fs.files := (fs.files - {path})[bak := text][path := []];
    PrintLines(fs, path, LinesOf(text), pattern, value, regexp, sub);
    ghost var out := FileinputText(text, pattern, value, regexp, sub);
    assert fs.files == (original - {path})[bak := text][path := out];
    if backup == [] {
      fs.files := fs.files - {bak};
    }
    assert fs.files == AfterFileinput(original, path, backup, out);
    r := Ok(());
  }

  /** The loop of `fileinput` printing each line, rewritten, to the file at `path`, emptied beforehand. */
  method PrintLines(fs: FileSystem, path: string, lines: seq<string>, pattern: string, value: string, regexp: bool,
                    sub: string -> string)
    requires path in fs.files && fs.files[path] == []
    modifies fs
    ensures fs.dirs == old(fs.dirs)
    ensures fs.files == old(fs.files)[path := Concat(LinesOut(lines, pattern, value, regexp, sub))]
  {
    var outs := LinesOut(lines, pattern, value, regexp, sub);
    var i := 0;
    while i < |lines|
      invariant 0 <= i <= |lines|
      invariant fs.dirs == old(fs.dirs)
      invariant fs.files == old(fs.files)[path := Concat(outs[..i])]
    {
      assert outs[..i + 1][..i] == outs[..i];
      fs.Append(path, LineOut(lines[i], pattern, value, regexp, sub));
      i := i + 1;
    }
    assert outs[..i] == outs;
  }

  /** A match at the start of `x + y` that reaches the newline ending `x` contains it. */
  lemma MatchReachesNewline(x: string, y: string, p: string)
    requires x != [] && x[|x| - 1] == '\n'
    requires |x + y| >= |p| && (x + y)[..|p|] == p
    ensures |p| >= |x| ==> HasChar(p, '\n')
    ensures |p| < |x| ==> x[..|p|] == p
  {
    if |p| >= |x| {
      assert p[|x| - 1] == (x + y)[..|p|][|x| - 1];
    }
  }

  /** `ReplaceAll` splits at a newline that the pattern cannot contain. */
  lemma {:induction false} ReplaceAllAppend(x: string, y: string, p: string, v: string)
    requires x != [] && x[|x| - 1] == '\n'
    requires p != [] && !HasChar(p, '\n')
    ensures ReplaceAll(x + y, p, v) == ReplaceAll(x, p, v) + ReplaceAll(y, p, v)
    decreases |x|
  {
    var s := x + y;
    if |s| < |p| {
      assert ReplaceAll(y, p, v) == y;
    } else if s[..|p|] == p {
      MatchReachesNewline(x, y, p);
      ReplaceAllAppendMatch(x, y, p, v);
    } else {
      ReplaceAllAppendSkip(x, y, p, v);
    }
  }

  lemma {:induction false} ReplaceAllAppendMatch(x: string, y: string, p: string, v: string)
    requires x != [] && x[|x| - 1] == '\n'
    requires p != [] && !HasChar(p, '\n')
    requires |p| < |x| && x[..|p|] == p
    ensures ReplaceAll(x + y, p, v) == ReplaceAll(x, p, v) + ReplaceAll(y, p, v)
    decreases |x|, 0
  {
    var s := x + y;
    assert s[..|p|] == p;
    var x' := x[|p|..];
    assert s[|p|..] == x' + y;
    ReplaceAllAppend(x', y, p, v);
  }

  lemma {:induction false} ReplaceAllAppendSkip(x: string, y: string, p: string, v: string)
    requires x != [] && x[|x| - 1] == '\n'
    requires p != [] && !HasChar(p, '\n')
    requires |x + y| >= |p| && (x + y)[..|p|] != p
    ensures ReplaceAll(x + y, p, v) == ReplaceAll(x, p, v) + ReplaceAll(y, p, v)
    decreases |x|, 1
  {
    if |x| == 1 {
      ReplaceSkipNewline(x, y, p, v);
    } else {
      ReplaceSkipLonger(x, y, p, v);
    }
  }

  /** The unmatched text starts with the newline that is all of `x`. */
  lemma ReplaceSkipNewline(x: string, y: string, p: string, v: string)
    requires |x| == 1 && x[0] == '\n'
    requires p != [] && !HasChar(p, '\n')
    requires |x + y| >= |p| && (x + y)[..|p|] != p
    ensures ReplaceAll(x + y, p, v) == ReplaceAll(x, p, v) + ReplaceAll(y, p, v)
  {
    var s := x + y;
    assert s[1..] == y;
    assert ReplaceAll(s, p, v) == [s[0]] + ReplaceAll(y, p, v);
    ReplaceNewline(p, v);
    assert x == "\n";
  }

  /** The unmatched text starts inside a longer `x`. */
  lemma {:induction false} ReplaceSkipLonger(x: string, y: string, p: string, v: string)
    requires |x| > 1 && x[|x| - 1] == '\n'
    requires p != [] && !HasChar(p, '\n')
    requires |x + y| >= |p| && (x + y)[..|p|] != p
    ensures ReplaceAll(x + y, p, v) == ReplaceAll(x, p, v) + ReplaceAll(y, p, v)
    decreases |x|, 0
  {
    var s := x + y;
    assert s[1..] == x[1..] + y;
    assert s[..|x|] == x;
    var a := ReplaceAll(x[1..], p, v);
    var b := ReplaceAll(y, p, v);
    calc {
      ReplaceAll(s, p, v);
      [s[0]] + ReplaceAll(x[1..] + y, p, v);
      { ReplaceAllAppend(x[1..], y, p, v); }
      [x[0]] + (a + b);
      ([x[0]] + a) + b;
      { ReplaceSkipFirst(x, p, v, s); }
      ReplaceAll(x, p, v) + b;
    }
  }

  /** A lone newline is left as it is. */
  lemma ReplaceNewline(p: string, v: string)
    requires p != [] && !HasChar(p, '\n')
    ensures ReplaceAll("\n", p, v) == "\n"
  {
    if |p| == 1 {
      assert p[0] == p[..1][0];
    }
  }

  /** No match at the start of `x`, which `s` extends. */
  lemma ReplaceSkipFirst(x: string, p: string, v: string, s: string)
    requires 1 < |x| <= |s| && p != [] && |s| >= |p| && s[..|p|] != p && s[..|x|] == x
    ensures ReplaceAll(x, p, v) == [x[0]] + ReplaceAll(x[1..], p, v)
  {
    if |x| >= |p| {
      assert x[..|p|] == s[..|p|];
    } else {
      assert ReplaceAll(x[1..], p, v) == x[1..];
    }
  }

  /** Replacing line by line is replacing in the joined text, for a one-line pattern. */
  lemma {:induction false} ReplaceLines(lines: seq<string>, p: string, v: string)
    requires p != [] && !HasChar(p, '\n')
    requires Terminated(lines)
    ensures Concat(LinesOut(lines, p, v, false, s => s)) == ReplaceAll(Concat(lines), p, v)
    decreases |lines|
  {
    if lines == [] {
      assert ReplaceAll([], p, v) == [];
    } else {
      var rest := lines[1..];
      assert Terminated(rest) by {
        forall k | 0 <= k < |rest| - 1 ensures rest[k] != [] && rest[k][|rest[k]| - 1] == '\n' {
          assert rest[k] == lines[k + 1];
        }
      }
      ReplaceLines(rest, p, v);
      var outs := LinesOut(lines, p, v, false, s => s);
      var restOuts := LinesOut(rest, p, v, false, s => s);
      assert outs == [ReplaceAll(lines[0], p, v)] + restOuts;
      assert lines == [lines[0]] + rest;
      ReplaceJoinCons(lines[0], rest, restOuts, p, v);
    }
  }

  /** One more line in front, on both sides of `ReplaceLines`. */
  lemma ReplaceJoinCons(x: string, restIn: seq<string>, restOut: seq<string>, p: string, v: string)
    requires p != [] && !HasChar(p, '\n')
    requires restIn != [] ==> x != [] && x[|x| - 1] == '\n'
    requires Concat(restOut) == ReplaceAll(Concat(restIn), p, v)
    ensures Concat([ReplaceAll(x, p, v)] + restOut) == ReplaceAll(Concat([x] + restIn), p, v)
  {
    ConcatCons(x, restIn);
    ConcatCons(ReplaceAll(x, p, v), restOut);
    if restIn != [] {
      ReplaceAllAppend(x, Concat(restIn), p, v);
    } else {
      assert Concat(restIn) == [] && ReplaceAll([], p, v) == [];
      assert x + [] == x;
      assert ReplaceAll(x, p, v) + [] == ReplaceAll(x, p, v);
    }
  }

  /**
   * In literal mode, for a non-empty pattern without a newline, the
   * line-by-line rewrite is `text.replace(pattern, value)` on the whole text.
   */
  lemma LiteralFileinputIsReplace(text: string, pattern: string, value: string, sub: string -> string)
    requires pattern != [] && !HasChar(pattern, '\n')
    ensures FileinputText(text, pattern, value, false, sub) == ReplaceAll(text, pattern, value)
  {
    LinesConcat(text);
    LinesShape(text);
    ReplaceLines(LinesOf(text), pattern, value);
    var lines := LinesOf(text);
    assert LinesOut(lines, pattern, value, false, sub) == LinesOut(lines, pattern, value, false, s => s);
  }

  /** A pattern that spans a line break never matches, line by line. */
  lemma SpanningPatternNeverMatches(sub: string -> string)
    ensures FileinputText("a\nb", "a\nb", "X", false, sub) == "a\nb"
    ensures ReplaceAll("a\nb", "a\nb", "X") == "X"
  {
    assert "b"[1..] == [];
    assert LinesOf("b") == ["b"];
    assert "a\nb"[1..] == "\nb";
    assert "\nb"[1..] == "b";
    assert "\nb"[0] == '\n';
    assert LinesOf("\nb") == [['\n']] + ["b"];
    assert "a\nb"[0] == 'a';
    var rest := LinesOf("\nb");
    assert rest[0] == "\n" && rest[1..] == ["b"];
    assert ['a'] + "\n" == "a\n";
    assert LinesOf("a\nb") == ["a\n", "b"];
    var outs := LinesOut(["a\n", "b"], "a\nb", "X", false, sub);
    assert outs == ["a\n", "b"];
    assert outs[..1] == ["a\n"];
    assert Concat(outs) == "a\nb";
  }

  // ---------------------------------------------------------------------------
  // replace_in_file_using_open

  /**
   * `replace_in_file_using_open(file_path, pattern, value)`: the whole text
   * read, rewritten by `re.sub(pattern, value, ·)` (given as `sub`), and
   * written back from the start after truncating, so nothing of the old
   * text survives past the new end. Opening a missing file for `r+` is a
   * FileNotFoundError.
   */
  method ReplaceInFileUsingOpen(fs: FileSystem, path: string, sub: string -> string) returns (r: Result<()>)
    modifies fs
    ensures fs.dirs == old(fs.dirs)
    ensures path !in old(fs.files) ==> r == Fail(FileNotFound(path)) && fs.files == old(fs.files)
    ensures path in old(fs.files) ==> r == Ok(()) && fs.files == old(fs.files)[path := sub(old(fs.files)[path])]
  {
    if path !in fs.files {
      return Fail(FileNotFound(path));
    }
    var content := fs.files[path];
    content := sub(content);
    fs.files := fs.files[path := []];
    fs.Append(path, content);
    assert [] + content == content;
    r := Ok(());
  }

  // ---------------------------------------------------------------------------
  // force_create_directory

  /** A file tree: the files and the directories that exist. */
  datatype Tree = Tree(files: map<string, string>, dirs: set<string>)

  /** `p` lies somewhere below the directory `dir`. */
  predicate Under(p: string, dir: string)
  {
    StartsWith(p, dir + "/")
  }

  /** Every file and directory sits in directories that exist. */
  predicate Closed(t: Tree)
  {
    (forall p :: p in t.files ==> Ancestors(p) <= t.dirs) &&
    (forall p :: p in t.dirs ==> Ancestors(p) <= t.dirs)
  }

  /** `shutil.rmtree(path)` on a directory: it and everything below it go. */
  function RemoveTree(t: Tree, path: string): (r: Tree)
    ensures forall p :: p in r.files <==> p in t.files && !Under(p, path)
    ensures forall p :: p in r.files ==> r.files[p] == t.files[p]
    ensures forall p :: p in r.dirs <==> p in t.dirs && p != path && !Under(p, path)
  {
    Tree(map p | p in t.files && !Under(p, path) :: t.files[p],
         set p | p in t.dirs && p != path && !Under(p, path))
  }

  /**
   * `force_create_directory(path)`: an existing path is removed with
   * `shutil.rmtree` (a NotADirectoryError when it is a file), then
   * `os.makedirs(path)` creates it with its missing ancestors (a
   * NotADirectoryError when an ancestor is a file, after the removal has
   * happened). Returns the tree afterwards and the outcome.
   */
  function ForceCreate(t: Tree, path: string): (r: (Tree, Result<()>))
    ensures path in t.files ==> r == (t, Fail(NotADirectory(path)))
    ensures r.1.Ok? <==> path !in t.files && forall a :: a in Ancestors(path) ==> a !in t.files
    ensures r.1.Ok? ==> path in r.0.dirs && Ancestors(path) <= r.0.dirs
    ensures r.1.Fail? ==> r.1.error == NotADirectory(path)
    ensures forall p :: p in t.files && !Under(p, path) ==> p in r.0.files && r.0.files[p] == t.files[p]
    ensures forall p :: p in r.0.files ==> p in t.files
    ensures forall p :: p in t.dirs && p != path && !Under(p, path) ==> p in r.0.dirs
  {
    if path in t.files then (t, Fail(NotADirectory(path)))
    else
      var t' := if path in t.dirs then RemoveTree(t, path) else t;
      match MakeDirsError(t'.files, path)
      case Some(e) => (t', Fail(e))
      case None => (Tree(t'.files, MakeDirs(t'.dirs, path)), Ok(()))
  }

  /** An ancestor of an ancestor is an ancestor. */
  lemma AncestorsNest(p: string, a: string)
    requires a in Ancestors(p)
    ensures Ancestors(a) <= Ancestors(p)
  {
    var i :| 0 < i < |p| && p[i] == '/' && a == p[..i];
    forall b | b in Ancestors(a) ensures b in Ancestors(p) {
      var j :| 0 < j < |a| && a[j] == '/' && b == a[..j];
      assert p[j] == '/' && b == p[..j];
    }
  }

  /** Whatever sits above a path that sits in `dir` is `dir`, below it, or above it. */
  lemma AncestorOfUnder(p: string, a: string, dir: string)
    requires a in Ancestors(p) && (a == dir || Under(a, dir))
    ensures Under(p, dir)
  {
    var i :| 0 < i < |p| && p[i] == '/' && a == p[..i];
    if a == dir {
      assert p[..|dir + "/"|] == dir + "/";
    } else {
      assert p[..|dir + "/"|] == a[..|dir + "/"|];
    }
  }

  /** A path below `dir` has `dir` among its ancestors. */
  lemma UnderHasAncestor(p: string, dir: string)
    requires Under(p, dir) && dir != []
    ensures dir in Ancestors(p)
  {
    assert p[|dir|] == (dir + "/")[|dir|];
    assert p[..|dir|] == (dir + "/")[..|dir|];
  }

  /** Removing a directory tree keeps the tree closed. */
  lemma RemoveTreeClosed(t: Tree, path: string)
    requires Closed(t)
    ensures Closed(RemoveTree(t, path))
  {
    var r := RemoveTree(t, path);
    forall p, a | (p in r.files || p in r.dirs) && a in Ancestors(p) ensures a in r.dirs {
      if a == path || Under(a, path) {
        AncestorOfUnder(p, a, path);
      }
    }
  }

  /** `force_create_directory` keeps a closed tree closed, whatever its outcome. */
  lemma ForceCreateClosed(t: Tree, path: string)
    requires Closed(t)
    ensures Closed(ForceCreate(t, path).0)
  {
    if path !in t.files {
      var t' := if path in t.dirs then RemoveTree(t, path) else t;
      if path in t.dirs { RemoveTreeClosed(t, path); }
      var added := {path} + Ancestors(path);
      forall a | a in Ancestors(path) ensures Ancestors(a) <= added {
        AncestorsNest(path, a);
      }
    }
  }

  /**
   * In a closed tree, a successful `force_create_directory` leaves `path` an
   * existing, empty directory: nothing is below it.
   */
  lemma ForceCreateFresh(t: Tree, path: string)
    requires Closed(t) && path != []
    requires ForceCreate(t, path).1.Ok?
    ensures var t' := ForceCreate(t, path).0;
            path in t'.dirs &&
            (forall p :: p in t'.files ==> !Under(p, path)) &&
            (forall p :: p in t'.dirs ==> !Under(p, path))
  {
    var t' := ForceCreate(t, path).0;
    if path !in t.dirs {
      forall p | p in t.files || p in t.dirs ensures !Under(p, path) {
        if Under(p, path) { UnderHasAncestor(p, path); }
      }
      forall p | p in Ancestors(path) ensures !Under(p, path) {
        var i :| 0 < i < |path| && path[i] == '/' && p == path[..i];
      }
    } else {
      forall p | p in Ancestors(path) ensures !Under(p, path) {
        var i :| 0 < i < |path| && path[i] == '/' && p == path[..i];
      }
    }
  }

  /** Running it twice leaves the tree as running it once. */
  lemma ForceCreateTwice(t: Tree, path: string)
    requires Closed(t) && path != []
    requires ForceCreate(t, path).1.Ok?
    ensures ForceCreate(ForceCreate(t, path).0, path) == ForceCreate(t, path)
  {
    var t1 := ForceCreate(t, path).0;
    ForceCreateFresh(t, path);
    var t2 := RemoveTree(t1, path);
    assert t2.files == t1.files;
    assert t2.dirs + {path} + Ancestors(path) == t1.dirs;
  }

  /** `force_create_directory(path)` on the file system, with the warning left out. */
  method ForceCreateDirectory(fs: FileSystem, path: string) returns (r: Result<()>)
    modifies fs
    ensures (Tree(fs.files, fs.dirs), r) == ForceCreate(Tree(old(fs.files), old(fs.dirs)), path)
  {
    if fs.Exists(path) {
      if path in fs.files {
        return Fail(NotADirectory(path));
      }
      var t := RemoveTree(Tree(fs.files, fs.dirs), path);
      fs.files, fs.dirs := t.files, t.dirs;
    }
    var e := MakeDirsError(fs.files, path);
    if e.Some? {
      return Fail(e.value);
    }
    fs.dirs := MakeDirs(fs.dirs, path);
    r := Ok(());
  }

  // ---------------------------------------------------------------------------
  // find_files_in_relative_paths

  /**
   * `paths_to_check`: each name under the working directory, then each name
   * under every relative path in turn.
   */
  function RelCandidates(cwd: string, dirs: seq<string>, rels: seq<string>): (r: seq<string>)
    decreases |rels|
  {
    if rels == [] then JoinEach(cwd, dirs)
    else RelCandidates(cwd, dirs, rels[..|rels| - 1]) + JoinEach(PathJoin(cwd, rels[|rels| - 1]), dirs)
  }

  /** There are `|dirs|` candidates per search root: the working directory and each relative path. */
  lemma {:induction false} RelCandidatesLength(cwd: string, dirs: seq<string>, rels: seq<string>)
    ensures |RelCandidates(cwd, dirs, rels)| == |dirs| * (1 + |rels|)
    decreases |rels|
  {
    if rels != [] {
      var n := |rels| - 1;
      RelCandidatesLength(cwd, dirs, rels[..n]);
      assert |RelCandidates(cwd, dirs, rels)| == |RelCandidates(cwd, dirs, rels[..n])| + |dirs|;
      OneMoreRow(|dirs|, 1 + n, 1 + |rels|);
    }
  }

  /** `d` more candidates for one more search root. */
  lemma OneMoreRow(d: nat, roots: nat, roots': nat)
    requires roots' == roots + 1
    ensures d * roots' == d * roots + d
  {
  }

  /** The names under the working directory come first, in order. */
  lemma {:induction false} RelCandidatesHead(cwd: string, dirs: seq<string>, rels: seq<string>, j: nat)
    requires j < |dirs|
    ensures j < |RelCandidates(cwd, dirs, rels)| && RelCandidates(cwd, dirs, rels)[j] == PathJoin(cwd, dirs[j])
    decreases |rels|
  {
    if rels != [] {
      RelCandidatesHead(cwd, dirs, rels[..|rels| - 1], j);
    }
  }

  /** The candidates for the first `m` relative paths come first. */
  lemma {:induction false} RelCandidatesPrefix(cwd: string, dirs: seq<string>, rels: seq<string>, m: nat)
    requires m <= |rels|
    ensures RelCandidates(cwd, dirs, rels[..m]) <= RelCandidates(cwd, dirs, rels)
    decreases |rels|
  {
    if m < |rels| {
      var init := rels[..|rels| - 1];
      assert init[..m] == rels[..m];
      RelCandidatesPrefix(cwd, dirs, init, m);
    } else {
      assert rels[..m] == rels;
    }
  }

  /** The `j`-th name under the `k`-th relative path sits in block `k + 1`, position `j`. */
  lemma RelCandidatesBlock(cwd: string, dirs: seq<string>, rels: seq<string>, k: nat, j: nat)
    requires k < |rels| && j < |dirs|
    ensures (k + 1) * |dirs| + j < |RelCandidates(cwd, dirs, rels)|
    ensures RelCandidates(cwd, dirs, rels)[(k + 1) * |dirs| + j] == PathJoin(PathJoin(cwd, rels[k]), dirs[j])
  {
    var a := RelCandidates(cwd, dirs, rels[..k]);
    var row := JoinEach(PathJoin(cwd, rels[k]), dirs);
    var b := RelCandidates(cwd, dirs, rels[..k + 1]);
    assert rels[..k + 1][..k] == rels[..k];
    assert b == a + row;
    RelCandidatesLength(cwd, dirs, rels[..k]);
    OneMoreRow(|dirs|, k, k + 1);
    assert |a| == (k + 1) * |dirs|;
    ConcatAt(a, row, j);
    RelCandidatesPrefix(cwd, dirs, rels, k + 1);
    PrefixAt(b, RelCandidates(cwd, dirs, rels), |a| + j);
  }

  /** An index past the first part of a concatenation lands in the second. */
  lemma ConcatAt<T>(a: seq<T>, b: seq<T>, j: nat)
    requires j < |b|
    ensures |a| + j < |a + b| && (a + b)[|a| + j] == b[j]
  {
  }

  /** A prefix agrees with the whole sequence on its indices. */
  lemma PrefixAt<T>(a: seq<T>, b: seq<T>, i: nat)
    requires a <= b && i < |a|
    ensures i < |b| && b[i] == a[i]
  {
  }

  /**
   * `find_files_in_relative_paths(dirs, rel_paths)` run in `cwd`, with
   * `os.path.exists` given as `present`: the first candidate that exists
   * (or None) and all the candidates.
   */
  method FindFilesInRelativePaths(dirs: seq<string>, rels: seq<string>, cwd: string, present: string -> bool)
    returns (location: Option<string>, paths: seq<string>)
    ensures paths == RelCandidates(cwd, dirs, rels)
    ensures location.Some? ==> exists k :: 0 <= k < |paths| && paths[k] == location.value &&
                                  present(paths[k]) && forall j :: 0 <= j < k ==> !present(paths[j])
    ensures location.None? <==> forall k :: 0 <= k < |paths| ==> !present(paths[k])
  {
    paths := JoinEach(cwd, dirs);
    var i := 0;
    while i < |rels|
      invariant 0 <= i <= |rels|
      invariant paths == RelCandidates(cwd, dirs, rels[..i])
    {
      assert rels[..i + 1][..i] == rels[..i];
      paths := paths + JoinEach(PathJoin(cwd, rels[i]), dirs);
      i := i + 1;
    }
    assert rels[..i] == rels;
    var found := FindFirst(paths, present);
    location := if found.Some? then Some(paths[found.value]) else None;
  }

  // ---------------------------------------------------------------------------
  // get_git_repo

  /**
   * The shell helper `check_output(tokens, stderr)`: it accepts no other
   * keyword, so a call that passes one fails with a TypeError before any
   * command runs; otherwise the command's stripped output, given as `out`.
   */
  function CheckOutputCall(tokens: seq<string>, keywords: set<string>, out: string): (r: Result<string>)
    ensures r.Ok? <==> keywords <= {"stderr"}
  {
    if keywords <= {"stderr"} then Ok(out) else Fail(TypeError)
  }

  /** `get_git_repo(path)` as written: it passes `cwd=path` to `check_output`. */
  function GetGitRepoAsWritten(path: string, out: string): Result<string>
  {
    var url :- CheckOutputCall(["git", "config", "--get", "remote.origin.url"], {"cwd"}, out);
    Ok(StripExt(Basename(url)))
  }

  /** As written, every call fails. */
  lemma GetGitRepoAsWrittenFails(path: string, out: string)
    ensures GetGitRepoAsWritten(path, out) == Fail(TypeError)
  {
    assert !({"cwd"} <= {"stderr"});
  }

  /**
   * `get_git_repo(path)` as intended: `git config --get remote.origin.url`
   * run in `path` prints `url`, and the repository name is that URL's last
   * component without its extension.
   */
  function GitRepo(url: string): (r: string)
    ensures !HasChar(r, '/')
  {
    var b := Basename(url);
    NoSlashPrefix(b, |StripExt(b)|);
    StripExt(b)
  }

  lemma NoSlashPrefix(b: string, n: nat)
    requires !HasChar(b, '/') && n <= |b|
    ensures !HasChar(b[..n], '/')
  {
    forall i | 0 <= i < n ensures b[..n][i] != '/' {
      assert b[..n][i] == b[i];
    }
  }

  /** The last component of `a/b`, for a `b` without a slash, is `b`. */
  lemma BasenameOfJoin(a: string, b: string)
    requires !HasChar(b, '/')
    ensures Basename(a + "/" + b) == b
  {
    var p := a + "/" + b;
    var i := AfterLastSlash(p);
    assert p[|a|] == '/';
    assert p[|a| + 1..] == b;
  }

  /**
   * A remote URL `.../name.git` names the repository `name`, and so does
   * `.../name`, for a name without slashes or dots.
   */
  lemma GitRepoOfRemote(prefix: string, name: string)
    requires name != [] && !HasChar(name, '/') && !HasChar(name, '.')
    ensures GitRepo(prefix + "/" + name + ".git") == name
    ensures GitRepo(prefix + "/" + name) == name
  {
    var b := name + ".git";
    assert !HasChar(b, '/') by {
      forall i | 0 <= i < |b| ensures b[i] != '/' {
        if i < |name| { assert b[i] == name[i]; }
      }
    }
    assert prefix + "/" + name + ".git" == prefix + "/" + b;
    BasenameOfJoin(prefix, b);
    BasenameOfJoin(prefix, name);
    StripGitExt(name);
    assert AfterLastSlash(name) == 0;
    assert LastDot(name) == None by {
      NoDotNone(name);
    }
  }

  /** A slash-free `name.git`, with a name that does not start with a dot, loses exactly its extension. */
  lemma StripGitExt(name: string)
    requires name != [] && !HasChar(name, '/') && name[0] != '.'
    ensures StripExt(name + ".git") == name
  {
    var b := name + ".git";
    assert AfterLastSlash(b) == 0 by {
      forall i | 0 <= i < |b| ensures b[i] != '/' {
        if i < |name| { assert b[i] == name[i]; }
      }
    }
    var b1, b2, b3 := name + ".gi", name + ".g", name + ".";
    assert b[..|b| - 1] == b1 && b[|b| - 1] == 't';
    assert b1[..|b1| - 1] == b2 && b1[|b1| - 1] == 'i';
    assert b2[..|b2| - 1] == b3 && b2[|b2| - 1] == 'g';
    assert b3[|b3| - 1] == '.';
    assert LastDot(b3) == Some(|name|);
    assert LastDot(b) == LastDot(b1) == LastDot(b2) == LastDot(b3);
    assert b[0] == name[0];
    assert b[..|name|] == name;
  }

  lemma {:induction false} NoDotNone(p: string)
    requires !HasChar(p, '.')
    ensures LastDot(p) == None
  {
    if p != [] {
      var q := p[..|p| - 1];
      assert !HasChar(q, '.') by {
        forall i | 0 <= i < |q| ensures q[i] != '.' {
          assert q[i] == p[i];
        }
      }
      NoDotNone(p[..|p| - 1]);
    }
  }
}
