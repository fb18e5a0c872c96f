/**
 * The `os.path` functions of a POSIX host that the scripts use to build and
 * compare paths: `join`, `normpath`, `abspath` (with the working directory as
 * an explicit argument), `relpath`, `basename`, `dirname` and `splitext`.
 */
module Paths {
  import opened Util

  /** `os.path.join(a, b)`: an absolute `b` discards `a`. */
  function PathJoin(a: string, b: string): string
  {
    if |b| > 0 && b[0] == '/' then b
    else if a == [] || a[|a| - 1] == '/' then a + b
    else a + "/" + b
  }

  /** `os.path.join(p0, p1, ...)`, folding from the left. */
  function PathJoinAll(parts: seq<string>): string
    requires |parts| >= 1
  {
    if |parts| == 1 then parts[0]
    else PathJoin(PathJoinAll(parts[..|parts| - 1]), parts[|parts| - 1])
  }

  function Repeat(x: string, n: nat): (r: seq<string>)
    ensures |r| == n && forall i :: 0 <= i < n ==> r[i] == x
  {
    if n == 0 then [] else [x] + Repeat(x, n - 1)
  }

  /** The non-empty pieces of `p.split('/')`. */
  function NonEmpty(parts: seq<string>): (r: seq<string>)
    ensures forall i :: 0 <= i < |r| ==> r[i] != []
  {
    if parts == [] then []
    else if parts[0] == [] then NonEmpty(parts[1..])
    else [parts[0]] + NonEmpty(parts[1..])
  }

  /** The leading-slash count that `normpath` keeps: 0, 1, or exactly 2. */
  function InitialSlashes(p: string): nat
  {
    if |p| >= 2 && p[0] == '/' && p[1] == '/' && !(|p| >= 3 && p[2] == '/') then 2
    else if |p| >= 1 && p[0] == '/' then 1
    else 0
  }

  /**
   * The component loop of `normpath`: `.` and empty pieces vanish, `..`
   * removes the previous kept component, and a leading `..` is kept only in
   * a relative path.
   */
  function NormComps(comps: seq<string>, absolute: bool, acc: seq<string>): seq<string>
  {
    if comps == [] then acc
    else
      var c := comps[0];
      if c == [] || c == "." then NormComps(comps[1..], absolute, acc)
      else if c != ".." || (!absolute && acc == []) || (acc != [] && acc[|acc| - 1] == "..") then
        NormComps(comps[1..], absolute, acc + [c])
      else if acc != [] then NormComps(comps[1..], absolute, acc[..|acc| - 1])
      else NormComps(comps[1..], absolute, acc)
  }

  function Slashes(n: nat): string
  {
    if n == 0 then [] else "/" + Slashes(n - 1)
  }

  /** `os.path.normpath(p)`. */
  function NormPath(p: string): string
  {
    if p == [] then "."
    else
      var lead := InitialSlashes(p);
      var body := Join(NormComps(Split(p, '/'), lead > 0, []), "/");
      var r := Slashes(lead) + body;
      if r == [] then "." else r
  }

  predicate IsAbs(p: string) { |p| > 0 && p[0] == '/' }

  /** `os.path.abspath(p)` evaluated in working directory `cwd`. */
  function AbsPath(p: string, cwd: string): string
  {
    if IsAbs(p) then NormPath(p) else NormPath(PathJoin(cwd, p))
  }

  function CommonPrefixLen(a: seq<string>, b: seq<string>): (n: nat)
    ensures n <= |a| && n <= |b| && a[..n] == b[..n]
    ensures n < |a| && n < |b| ==> a[n] != b[n]
  {
    if a == [] || b == [] || a[0] != b[0] then 0
    else
      var k := CommonPrefixLen(a[1..], b[1..]);
      assert a[..k + 1] == [a[0]] + a[1..][..k];
      assert b[..k + 1] == [b[0]] + b[1..][..k];
      k + 1
  }

  /** `os.path.relpath(p, start)` evaluated in working directory `cwd`; an empty `p` is a ValueError. */
  function RelPath(p: string, start: string, cwd: string): Result<string>
  {
    if p == [] then Fail(ValueError)
    else
      var s := NonEmpty(Split(AbsPath(start, cwd), '/'));
      var t := NonEmpty(Split(AbsPath(p, cwd), '/'));
      var i := CommonPrefixLen(s, t);
      var rel := Repeat("..", |s| - i) + t[i..];
      if rel == [] then Ok(".") else Ok(PathJoinAll(rel))
  }

  /** The position just after the last '/', or 0. */
  function AfterLastSlash(p: string): (i: nat)
    ensures i <= |p|
    ensures i > 0 ==> p[i - 1] == '/'
    ensures forall j :: i <= j < |p| ==> p[j] != '/'
  {
    if p == [] then 0
    else if p[|p| - 1] == '/' then |p|
    else AfterLastSlash(p[..|p| - 1])
  }

  /** `os.path.basename(p)`. */
  function Basename(p: string): (r: string)
    ensures !HasChar(r, '/')
  {
    p[AfterLastSlash(p)..]
  }

  function StripTrailingSlashes(p: string): string
  {
    if p != [] && p[|p| - 1] == '/' then StripTrailingSlashes(p[..|p| - 1]) else p
  }

  predicate AllSlashes(p: string) { forall i :: 0 <= i < |p| ==> p[i] == '/' }

  /** `os.path.dirname(p)`. */
  function Dirname(p: string): string
  {
    var head := p[..AfterLastSlash(p)];
    if head != [] && !AllSlashes(head) then StripTrailingSlashes(head) else head
  }

  /** The position of the last '.' in `p` at or after `from`, if any. */
  function LastDot(p: string): Option<nat>
  {
    if p == [] then None
    else if p[|p| - 1] == '.' then Some(|p| - 1)
    else LastDot(p[..|p| - 1])
  }

  /**
   * `os.path.splitext(p)[0]`: drops the text from the last '.' of the final
   * component, unless that component is only dots before it.
   */
  function StripExt(p: string): string
  {
    var base := AfterLastSlash(p);
    match LastDot(p)
    case None => p
    case Some(d) =>
      if d >= base && d <= |p| && exists k :: base <= k < d && p[k] != '.' then p[..d] else p
  }

  // ---------------------------------------------------------------------------
  // Normal paths: an absolute path written as '/' followed by components that
  // are non-empty, free of '/', and neither '.' nor '..'.

  predicate ValidComp(c: string)
  {
    c != [] && c != "." && c != ".." && !HasChar(c, '/')
  }

  predicate ValidComps(cs: seq<string>)
  {
    forall i :: 0 <= i < |cs| ==> ValidComp(cs[i])
  }

  function AbsOf(cs: seq<string>): string
  {
    "/" + Join(cs, "/")
  }

  lemma {:induction false} SplitJoinComps(cs: seq<string>)
    requires |cs| >= 1 && ValidComps(cs)
    ensures Split(Join(cs, "/"), '/') == cs
  {
    if |cs| == 1 {
      SplitNoSep(cs[0], '/');
    } else {
      SplitJoinComps(cs[1..]);
      assert Join(cs, "/") == cs[0] + ['/'] + Join(cs[1..], "/");
      SplitFirst(cs[0], '/', Join(cs[1..], "/"));
      assert cs == [cs[0]] + cs[1..];
    }
  }

  lemma NonEmptyValid(cs: seq<string>)
    requires ValidComps(cs)
    ensures NonEmpty(cs) == cs
  {
    if cs != [] {
      NonEmptyValid(cs[1..]);
      assert cs == [cs[0]] + cs[1..];
    }
  }

  lemma {:induction false} NormCompsValid(cs: seq<string>, acc: seq<string>)
    requires ValidComps(cs)
    ensures NormComps(cs, true, acc) == acc + cs
  {
    if cs != [] {
      NormCompsValid(cs[1..], acc + [cs[0]]);
      assert acc + [cs[0]] + cs[1..] == acc + cs;
    }
  }

  /** The text of joined components starts with the first component's first character. */
  lemma JoinHead(cs: seq<string>)
    requires |cs| >= 1 && ValidComps(cs)
    ensures Join(cs, "/") != [] && Join(cs, "/")[0] == cs[0][0] && cs[0][0] != '/'
  {
    assert cs[0][0] in cs[0];
    if |cs| > 1 {
      assert Join(cs, "/") == cs[0] + "/" + Join(cs[1..], "/");
    }
  }

  lemma SplitRoot()
    ensures Split("/", '/') == [[], []]
  {
    assert "/"[1..] == [];
  }

  /** The pieces of a normal absolute path, split at '/'. */
  lemma SplitAbs(cs: seq<string>)
    requires ValidComps(cs)
    ensures Split(AbsOf(cs), '/') == if cs == [] then [[], []] else [[]] + cs
  {
    if cs == [] {
      assert AbsOf(cs) == "/";
      SplitRoot();
    } else {
      SplitJoinComps(cs);
      assert AbsOf(cs) == [] + ['/'] + Join(cs, "/");
      SplitFirst([], '/', Join(cs, "/"));
    }
  }

  /** The components of a normal absolute path, as `relpath` sees them. */
  lemma CompsOfAbs(cs: seq<string>)
    requires ValidComps(cs)
    ensures NonEmpty(Split(AbsOf(cs), '/')) == cs
  {
    SplitAbs(cs);
    if cs == [] {
      assert NonEmpty([[], []]) == NonEmpty([[]]) == NonEmpty([]);
    } else {
      NonEmptyValid(cs);
      assert ([[]] + cs)[1..] == cs;
    }
  }

  /** A normal absolute path is its own `normpath` (and `abspath`). */
  lemma NormPathOfAbs(cs: seq<string>, cwd: string)
    requires ValidComps(cs)
    ensures AbsPath(AbsOf(cs), cwd) == AbsOf(cs)
  {
    var p := AbsOf(cs);
    SplitAbs(cs);
    if cs == [] {
      assert p == "/";
      assert InitialSlashes(p) == 1;
      assert NormComps([[], []], true, []) == [];
      assert Slashes(1) == "/";
    } else {
      JoinHead(cs);
      assert p[1] == cs[0][0];
      assert InitialSlashes(p) == 1;
      NormCompsValid(cs, []);
      assert ([[]] + cs)[1..] == cs;
      assert NormComps([[]] + cs, true, []) == cs;
      assert Slashes(1) == "/";
    }
  }

  lemma {:induction false} JoinSnoc(cs: seq<string>, x: string, sep: string)
    requires |cs| >= 1
    ensures Join(cs + [x], sep) == Join(cs, sep) + sep + x
  {
    if |cs| == 1 {
      assert (cs + [x])[1..] == [x];
    } else {
      assert (cs + [x])[1..] == cs[1..] + [x];
      JoinSnoc(cs[1..], x, sep);
    }
  }

  lemma {:induction false} JoinLastChar(cs: seq<string>)
    requires |cs| >= 1 && ValidComps(cs)
    ensures Join(cs, "/") != [] && Join(cs, "/")[|Join(cs, "/")| - 1] != '/'
  {
    if |cs| > 1 {
      JoinLastChar(cs[1..]);
      assert Join(cs, "/") == cs[0] + "/" + Join(cs[1..], "/");
    } else {
      var c := cs[0];
      assert c[|c| - 1] in c;
    }
  }

  /** Joining path components one by one with `os.path.join` puts single slashes between them. */
  lemma {:induction false} PathJoinAllComps(cs: seq<string>)
    requires |cs| >= 1 && ValidComps(cs)
    ensures PathJoinAll(cs) == Join(cs, "/")
  {
    if |cs| > 1 {
      var init := cs[..|cs| - 1];
      var last := cs[|cs| - 1];
      PathJoinAllComps(init);
      JoinLastChar(init);
      assert last != [] && last[0] != '/' by {
        assert last[0] in last;
      }
      JoinSnoc(init, last, "/");
      assert init + [last] == cs;
    }
  }

  lemma {:induction false} JoinAppend(a: seq<string>, b: seq<string>)
    requires |a| >= 1 && |b| >= 1
    ensures Join(a + b, "/") == Join(a, "/") + "/" + Join(b, "/")
  {
    if |a| == 1 {
      assert (a + b)[1..] == b;
    } else {
      assert (a + b)[1..] == a[1..] + b;
      JoinAppend(a[1..], b);
    }
  }

  /** The common prefix of `home` and `home + rest` is all of `home`. */
  lemma CommonPrefixOfExtension(home: seq<string>, rest: seq<string>)
    ensures CommonPrefixLen(home, home + rest) == |home|
  {
  }

  /**
   * `relpath` undoes `join` for normal paths: a path below `home` is given
   * relative to `home` by its remaining components.
   */
  lemma RelPathBelow(home: seq<string>, rest: seq<string>, cwd: string)
    requires ValidComps(home) && ValidComps(rest) && |rest| >= 1
    ensures RelPath(AbsOf(home + rest), AbsOf(home), cwd) == Ok(Join(rest, "/"))
  {
    var full := home + rest;
    assert ValidComps(full);
    NormPathOfAbs(home, cwd);
    NormPathOfAbs(full, cwd);
    CompsOfAbs(home);
    CompsOfAbs(full);
    CommonPrefixOfExtension(home, rest);
    assert full[|home|..] == rest;
    assert Repeat("..", 0) + rest == rest;
    PathJoinAllComps(rest);
  }

  /** Joining a relative path onto a directory not ending in '/' puts one '/' between them. */
  lemma PathJoinRel(a: string, b: string)
    requires a != [] && a[|a| - 1] != '/' && !IsAbs(b)
    ensures PathJoin(a, b) == a + "/" + b
  {
  }

  lemma PathJoinPlain(a: string, b: string)
    requires a != [] && a[|a| - 1] != '/' && b != [] && b[0] != '/'
    ensures PathJoin(a, b) == a + "/" + b
  {
  }

  lemma JoinBelowInner(home: seq<string>, rest: seq<string>)
    requires ValidComps(home) && ValidComps(rest) && |rest| >= 1 && home != []
    ensures PathJoin(AbsOf(home), Join(rest, "/")) == AbsOf(home + rest)
  {
    var j1 := Join(home, "/");
    var j2 := Join(rest, "/");
    JoinHead(rest);
    JoinLastChar(home);
    var a := AbsOf(home);
    assert a == "/" + j1;
    assert a[|a| - 1] != '/';
    PathJoinPlain(a, j2);
    JoinAppend(home, rest);
    assert AbsOf(home + rest) == "/" + (j1 + "/" + j2);
    ConcatAssoc("/", j1, "/", j2);
  }

  lemma ConcatAssoc(x: string, y: string, z: string, w: string)
    ensures x + y + z + w == x + (y + z + w)
  {
  }

  /** Joining the relative remainder back onto `home` restores the full path. */
  lemma JoinBelow(home: seq<string>, rest: seq<string>)
    requires ValidComps(home) && ValidComps(rest) && |rest| >= 1
    ensures PathJoin(AbsOf(home), Join(rest, "/")) == AbsOf(home + rest)
  {
    if home == [] {
      JoinBelowRoot(home, rest);
    } else {
      JoinBelowInner(home, rest);
    }
  }

  /** Below the root directory, the joined path is the absolute one. */
  lemma JoinBelowRoot(home: seq<string>, rest: seq<string>)
    requires home == [] && ValidComps(rest) && |rest| >= 1
    ensures PathJoin(AbsOf(home), Join(rest, "/")) == AbsOf(home + rest)
  {
    JoinHead(rest);
    assert home + rest == rest;
    assert AbsOf(home) == "/" by {
      assert Join(home, "/") == [];
    }
  }
}
