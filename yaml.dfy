/**
 * The loaded YAML documents the scripts manipulate (scenario values,
 * deployment records, environment configs), as immutable values, with
 * Python's dict access written out: `d[k]`, `d.get(k, default)`, `d[k] = x`
 * and nested subscripting along a key path.
 */
module Yaml {
  import opened Util

  datatype Value =
    | VNone
    | VBool(b: bool)
    | VInt(i: int)
    | VStr(s: string)
    | VList(items: seq<Value>)
    | VDict(fields: map<string, Value>)

  const EmptyDict: Value := VDict(map[])

  /** Python truthiness. */
  predicate Truthy(v: Value)
  {
    match v
    case VNone => false
    case VBool(b) => b
    case VInt(i) => i != 0
    case VStr(s) => s != []
    case VList(items) => items != []
    case VDict(fields) => fields != map[]
  }

  /** `v[key]` on a dict: a KeyError for a missing key, a TypeError on a non-dict. */
  function Lookup(v: Value, key: string): (r: Result<Value>)
    ensures r.Ok? <==> v.VDict? && key in v.fields
    ensures r.Ok? ==> r.value == v.fields[key]
  {
    if !v.VDict? then Fail(TypeError)
    else if key in v.fields then Ok(v.fields[key])
    else Fail(KeyError(key))
  }

  /** `v.get(key, default)`: an AttributeError on a non-dict. */
  function GetOr(v: Value, key: string, default: Value): (r: Result<Value>)
    ensures r.Ok? <==> v.VDict?
    ensures v.VDict? && key !in v.fields ==> r == Ok(default)
    ensures v.VDict? && key in v.fields ==> r == Lookup(v, key)
  {
    if !v.VDict? then Fail(AttributeError)
    else if key in v.fields then Ok(v.fields[key])
    else Ok(default)
  }

  /** `v[key] = x` on a dict. */
  function SetKey(v: Value, key: string, x: Value): (r: Result<Value>)
    ensures r.Ok? <==> v.VDict?
    ensures r.Ok? ==> r.value.VDict? && r.value.fields == v.fields[key := x]
  {
    if v.VDict? then Ok(VDict(v.fields[key := x])) else Fail(TypeError)
  }

  /** `v[p0][p1]...[pn]`. */
  function GetPath(v: Value, path: seq<string>): Result<Value>
  {
    if path == [] then Ok(v)
    else
      var child :- Lookup(v, path[0]);
      GetPath(child, path[1..])
  }

  /**
   * `v[p0]...[pn-1][pn] = x`: every dict on the way must exist, and only the
   * last key may be new.
   */
  function SetPath(v: Value, path: seq<string>, x: Value): Result<Value>
    requires |path| >= 1
  {
    if |path| == 1 then SetKey(v, path[0], x)
    else
      var child :- Lookup(v, path[0]);
      var child' :- SetPath(child, path[1..], x);
      SetKey(v, path[0], child')
  }

  /** What was just stored is what is read back. */
  lemma {:induction false} GetSetPath(v: Value, path: seq<string>, x: Value)
    requires |path| >= 1 && SetPath(v, path, x).Ok?
    ensures GetPath(SetPath(v, path, x).value, path) == Ok(x)
  {
    if |path| > 1 {
      var child := Lookup(v, path[0]).value;
      GetSetPath(child, path[1..], x);
    }
  }

  /** `v[a][b]` succeeds exactly when `v` is a dict holding `a` and `v[a]` a dict holding `b`. */
  lemma GetPath2(v: Value, a: string, b: string)
    ensures GetPath(v, [a, b]).Ok? <==> v.VDict? && a in v.fields && v.fields[a].VDict? && b in v.fields[a].fields
    ensures GetPath(v, [a, b]).Ok? ==> GetPath(v, [a, b]).value == v.fields[a].fields[b]
  {
    assert [a, b][1..] == [b] && [b][1..] == [];
    if Lookup(v, a).Ok? {
      var x := v.fields[a];
      assert GetPath(v, [a, b]) == GetPath(x, [b]);
      if Lookup(x, b).Ok? {
        assert GetPath(x, [b]) == GetPath(x.fields[b], []);
      }
    }
  }

  /** `v[a][b][c]` succeeds exactly when the first two levels are dicts holding the keys. */
  lemma GetPath3(v: Value, a: string, b: string, c: string)
    ensures GetPath(v, [a, b, c]).Ok? <==>
              v.VDict? && a in v.fields && v.fields[a].VDict? && b in v.fields[a].fields
              && v.fields[a].fields[b].VDict? && c in v.fields[a].fields[b].fields
    ensures GetPath(v, [a, b, c]).Ok? ==> GetPath(v, [a, b, c]).value == v.fields[a].fields[b].fields[c]
  {
    assert [a, b, c][1..] == [b, c] && [b, c][1..] == [c] && [c][1..] == [];
    if Lookup(v, a).Ok? {
      var x := v.fields[a];
      assert GetPath(v, [a, b, c]) == GetPath(x, [b, c]);
      if Lookup(x, b).Ok? {
        var y := x.fields[b];
        assert GetPath(x, [b, c]) == GetPath(y, [c]);
        if Lookup(y, c).Ok? {
          assert GetPath(y, [c]) == GetPath(y.fields[c], []);
        }
      }
    }
  }

  /** Two key paths that part ways somewhere before either ends. */
  predicate Diverge(p: seq<string>, q: seq<string>)
  {
    exists k :: 0 <= k < |p| && k < |q| && p[..k] == q[..k] && p[k] != q[k]
  }

  /** Storing at one path leaves every path that diverges from it as it was. */
  lemma {:induction false} SetPathFrame(v: Value, p: seq<string>, q: seq<string>, x: Value)
    requires |p| >= 1 && SetPath(v, p, x).Ok? && Diverge(p, q)
    ensures GetPath(SetPath(v, p, x).value, q) == GetPath(v, q)
  {
    var k :| 0 <= k < |p| && k < |q| && p[..k] == q[..k] && p[k] != q[k];
    var v' := SetPath(v, p, x).value;
    if k == 0 {
      if |p| == 1 {
        assert v'.fields == v.fields[p[0] := x];
      } else {
        var child := Lookup(v, p[0]).value;
        var child' := SetPath(child, p[1..], x).value;
        assert v'.fields == v.fields[p[0] := child'];
      }
      assert Lookup(v', q[0]) == Lookup(v, q[0]);
    } else {
      var child := Lookup(v, p[0]).value;
      var child' := SetPath(child, p[1..], x).value;
      assert v'.fields == v.fields[p[0] := child'];
      assert p[1..][..k - 1] == q[1..][..k - 1] by {
        assert p[1..][..k - 1] == p[..k][1..];
        assert q[1..][..k - 1] == q[..k][1..];
      }
      assert p[0] == q[0] by {
        assert p[..k][0] == q[..k][0];
      }
      SetPathFrame(child, p[1..], q[1..], x);
    }
  }

  /**
   * A loaded document that the scripts update in place (`cfg[k] = x` on a
   * dict they were handed): the root value, reassigned as a whole.
   */
  class Doc {
    var root: Value

    constructor (v: Value)
      ensures root == v
    {
      root := v;
    }
  }

  /**
   * The elements a Python `for x in v` visits, for a loop whose body treats
   * each element as a dict. A list yields its items; a string or a dict
   * yields strings (characters, keys), on which the body's first access
   * fails with `strError`, so only their emptiness matters; any other value
   * is not iterable (TypeError).
   */
  function Iterate(v: Value, strError: Error): (r: Result<seq<Value>>)
    ensures v.VList? ==> r == Ok(v.items)
    ensures r.Ok? ==> v.VList? || v == VStr([]) || v == EmptyDict
    ensures r.Ok? && !v.VList? ==> r.value == []
  {
    match v
    case VList(items) => Ok(items)
    case VStr(s) => if s == [] then Ok([]) else Fail(strError)
    case VDict(fields) => if fields == map[] then Ok([]) else Fail(strError)
    case _ => Fail(TypeError)
  }

  /**
   * A loop that transforms each element in turn and stops at the first
   * failure: all results in order, or the first element's error.
   */
  function MapAll(items: seq<Value>, f: Value -> Result<Value>): (r: Result<seq<Value>>)
    ensures r.Ok? <==> forall i :: 0 <= i < |items| ==> f(items[i]).Ok?
    ensures r.Ok? ==> |r.value| == |items| &&
                      forall i :: 0 <= i < |items| ==> f(items[i]) == Ok(r.value[i])
    ensures r.Fail? ==> exists i :: 0 <= i < |items| && f(items[i]) == Fail(r.error) &&
                          forall j :: 0 <= j < i ==> f(items[j]).Ok?
  {
    if items == [] then Ok([])
    else
      var prefix := items[..|items| - 1];
      assert forall i :: 0 <= i < |prefix| ==> prefix[i] == items[i];
      var init := MapAll(prefix, f);
      if init.Fail? then Fail(init.error)
      else
        var x := f(items[|items| - 1]);
        if x.Fail? then Fail(x.error)
        else
          var r := init.value + [x.value];
          assert forall i :: 0 <= i < |init.value| ==> r[i] == init.value[i];
          Ok(r)
  }

  /** One more successful step of the loop that `MapAll` stands for. */
  lemma MapAllSnoc(items: seq<Value>, f: Value -> Result<Value>, i: nat, acc: seq<Value>)
    requires i < |items| && MapAll(items[..i], f) == Ok(acc) && f(items[i]).Ok?
    ensures MapAll(items[..i + 1], f) == Ok(acc + [f(items[i]).value])
  {
    assert items[..i + 1][..i] == items[..i];
  }

  /** The loop fails with the error of the first element that fails. */
  lemma {:induction false} MapAllFirstFail(items: seq<Value>, f: Value -> Result<Value>, i: nat)
    requires i < |items| && f(items[i]).Fail?
    requires forall j :: 0 <= j < i ==> f(items[j]).Ok?
    ensures MapAll(items, f) == Fail(f(items[i]).error)
  {
    var init := items[..|items| - 1];
    if i < |items| - 1 {
      assert forall j :: 0 <= j < i ==> f(init[j]).Ok? by {
        forall j | 0 <= j < i ensures f(init[j]).Ok? {
          assert init[j] == items[j];
        }
      }
      assert init[i] == items[i];
      MapAllFirstFail(init, f, i);
    } else {
      assert forall j :: 0 <= j < |init| ==> f(init[j]).Ok? by {
        forall j | 0 <= j < |init| ensures f(init[j]).Ok? {
          assert init[j] == items[j];
        }
      }
    }
  }

  /**
   * The loop `MapAll` stands for: transform each element in turn, append
   * the result, and stop at the first failure.
   */
  method MapEach(items: seq<Value>, f: Value -> Result<Value>) returns (r: Result<seq<Value>>)
    ensures r == MapAll(items, f)
  {
    var done: seq<Value> := [];
    var i := 0;
    while i < |items|
      invariant 0 <= i <= |items|
      invariant MapAll(items[..i], f) == Ok(done)
    {
      var x := f(items[i]);
      if x.Fail? {
        MapAllFirstFail(items, f, i);
        return Fail(x.error);
      }
      MapAllSnoc(items, f, i, done);
      done := done + [x.value];
      i := i + 1;
    }
    assert items[..i] == items;
    r := Ok(done);
  }

  // ---------------------------------------------------------------------------
  // Iteration orders

  /** `order` is an iteration order of `s`: every element once. */
  ghost predicate Enumerates(order: seq<string>, s: set<string>)
  {
    (forall i, j :: 0 <= i < j < |order| ==> order[i] != order[j]) &&
    (forall x :: x in s <==> x in order)
  }

  /** `dictOrder` lists every dict's keys, each once. */
  ghost predicate IsDictOrder(dictOrder: map<string, Value> -> seq<string>)
  {
    forall m :: Enumerates(dictOrder(m), m.Keys)
  }

  /** `setOrder` lists every set's elements, each once. */
  ghost predicate IsSetOrder(setOrder: set<string> -> seq<string>)
  {
    forall s :: Enumerates(setOrder(s), s)
  }
}
