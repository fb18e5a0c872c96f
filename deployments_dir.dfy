/**
 * The `deployments` directory of the one-env home: one sub-directory per
 * deployment, named by the time it was created, each of which may hold the
 * deployment's record file. The current deployment is the one with the
 * greatest name, and old deployments are pruned in name order.
 */
module DeploymentsDir {
  import opened Util
  import opened Order
  import opened Paths
  import opened Yaml
  import opened NamesAndPaths

  const DEPLOYMENTS: string := "deployments"
  const LOGS: string := "logs"

  function Reverse<T>(xs: seq<T>): (r: seq<T>)
    ensures |r| == |xs|
    ensures forall i :: 0 <= i < |xs| ==> r[i] == xs[|xs| - 1 - i]
    ensures multiset(r) == multiset(xs)
  {
    if xs == [] then []
    else
      assert xs == [xs[0]] + xs[1..];
      Reverse(xs[1..]) + [xs[0]]
  }

  /** A directory listing after `.sort(reverse=True)`: greatest name first. */
  function Descending(names: seq<string>): (r: seq<string>)
    ensures |r| == |names| && multiset(r) == multiset(names)
  {
    Reverse(SortStrings(names))
  }

  /** Where Python's slice `xs[k:]` starts on a list of length `n`. */
  function SliceStart(k: int, n: nat): (s: nat)
    ensures s <= n
  {
    if k >= 0 then (if k < n then k else n)
    else if n + k > 0 then n + k else 0
  }

  /** The deployments `prune_deployments_history` deletes, in deletion order. */
  function Doomed(names: seq<string>, limit: int): seq<string>
  {
    var all := Descending(names);
    all[SliceStart(limit, |all|)..]
  }

  /** `shutil.rmtree` of one deployment: its name leaves the listing. */
  function RemoveName(names: seq<string>, d: string): (r: seq<string>)
    ensures multiset(r) == multiset(names) - multiset{d}
  {
    if names == [] then []
    else if names[0] == d then
      assert names == [d] + names[1..];
      names[1..]
    else
      assert names == [names[0]] + names[1..];
      [names[0]] + RemoveName(names[1..], d)
  }

  /** The listing after each of `ds` has been removed in turn. */
  function Without(names: seq<string>, ds: seq<string>): seq<string>
  {
    if ds == [] then names
    else RemoveName(Without(names, ds[..|ds| - 1]), ds[|ds| - 1])
  }

  /** The records left after each of `ds` has been removed in turn. */
  function Drop(records: map<string, Value>, ds: seq<string>): map<string, Value>
  {
    if ds == [] then records
    else Drop(records, ds[..|ds| - 1]) - {ds[|ds| - 1]}
  }

  lemma DropSnoc(records: map<string, Value>, ds: seq<string>, d: string)
    ensures Drop(records, ds + [d]) == Drop(records, ds) - {d}
  {
    assert (ds + [d])[..|ds|] == ds;
  }

  lemma WithoutSnoc(names: seq<string>, ds: seq<string>, d: string)
    ensures Without(names, ds + [d]) == RemoveName(Without(names, ds), d)
  {
    assert (ds + [d])[..|ds|] == ds;
  }

  /** Exactly the records of the deployments not removed are left, unchanged. */
  lemma {:induction false} DropSpec(records: map<string, Value>, ds: seq<string>, k: string)
    ensures k in Drop(records, ds) <==> k in records && k !in ds
    ensures k in Drop(records, ds) ==> Drop(records, ds)[k] == records[k]
  {
    if ds != [] {
      DropSpec(records, ds[..|ds| - 1], k);
      assert ds == ds[..|ds| - 1] + [ds[|ds| - 1]];
    }
  }

  lemma {:induction false} WithoutMultiset(names: seq<string>, ds: seq<string>)
    ensures multiset(Without(names, ds)) == multiset(names) - multiset(ds)
  {
    if ds != [] {
      var init := ds[..|ds| - 1];
      var d := ds[|ds| - 1];
      calc {
        multiset(Without(names, ds));
        multiset(RemoveName(Without(names, init), d));
        multiset(Without(names, init)) - multiset{d};
        { WithoutMultiset(names, init); }
        (multiset(names) - multiset(init)) - multiset{d};
        { MinusAssoc(multiset(names), multiset(init), multiset{d}); }
        multiset(names) - (multiset(init) + multiset{d});
        { assert ds == init + [d]; }
        multiset(names) - multiset(ds);
      }
    }
  }

  lemma MinusAssoc(a: multiset<string>, b: multiset<string>, c: multiset<string>)
    ensures (a - b) - c == a - (b + c)
  {
    forall x ensures ((a - b) - c)[x] == (a - (b + c))[x] {
    }
  }

  /** A sub-multiset of a duplicate-free sequence is duplicate-free. */
  lemma DistinctSub(a: seq<string>, b: seq<string>)
    requires Distinct(b) && multiset(a) <= multiset(b)
    ensures Distinct(a)
  {
    forall i, j | 0 <= i < j < |a| ensures a[i] != a[j] {
      if a[i] == a[j] {
        RepeatCounted(a, i, j);
        DistinctCount(b, a[i]);
        assert false;
      }
    }
  }

  /**
   * `get_current_deployment_dir` picks the last name of the sorted listing:
   * the greatest one, or none in an empty directory.
   */
  function Newest(names: seq<string>): (r: Option<string>)
    ensures r.Some? <==> names != []
    ensures r.Some? ==> r.value in names && forall n :: n in names ==> StrLessEq(n, r.value)
  {
    if names == [] then None
    else
      var all := SortStrings(names);
      SortedLastGreatest(names);
      Some(all[|all| - 1])
  }

  /** The last name of the sorted listing is one of the names and the greatest of them. */
  lemma SortedLastGreatest(names: seq<string>)
    requires names != []
    ensures SortStrings(names)[|names| - 1] in names
    ensures forall n :: n in names ==> StrLessEq(n, SortStrings(names)[|names| - 1])
  {
    var all := SortStrings(names);
    var last := |all| - 1;
    SortBySorted(names, Identity);
    assert all[last] in multiset(all);
    forall n | n in names ensures StrLessEq(n, all[last]) {
      assert n in multiset(all);
      var k :| 0 <= k < |all| && all[k] == n;
      if k < last {
        assert StrLessEq(Identity(all[k]), Identity(all[last]));
      }
    }
  }

  /** The deployments a prune keeps: the first `k` names, greatest first. */
  function Kept(names: seq<string>, limit: int): seq<string>
  {
    Descending(names)[..SliceStart(limit, |names|)]
  }

  /** What a prune leaves is a rearrangement of the names it keeps. */
  lemma PruneMultiset(names: seq<string>, limit: int)
    ensures multiset(Without(names, Doomed(names, limit))) == multiset(Kept(names, limit))
  {
    var desc := Descending(names);
    var s := SliceStart(limit, |names|);
    var doomed := Doomed(names, limit);
    assert doomed == desc[s..] && Kept(names, limit) == desc[..s];
    calc {
      multiset(Without(names, doomed));
      { WithoutMultiset(names, doomed); }
      multiset(names) - multiset(doomed);
      multiset(desc) - multiset(desc[s..]);
      { SplitMultiset(desc, s); }
      (multiset(desc[..s]) + multiset(desc[s..])) - multiset(desc[s..]);
      { MinusAdded(multiset(desc[..s]), multiset(desc[s..])); }
      multiset(desc[..s]);
    }
  }

  lemma SplitMultiset<T>(a: seq<T>, s: nat)
    requires s <= |a|
    ensures multiset(a) == multiset(a[..s]) + multiset(a[s..])
  {
    assert a == a[..s] + a[s..];
  }

  lemma MinusAdded<T>(a: multiset<T>, b: multiset<T>)
    ensures (a + b) - b == a
  {
    forall x ensures ((a + b) - b)[x] == a[x] {
    }
  }

  lemma KeptSub(names: seq<string>, limit: int)
    ensures multiset(Kept(names, limit)) <= multiset(names)
  {
    var desc := Descending(names);
    var s := SliceStart(limit, |names|);
    assert Kept(names, limit) == desc[..s];
    SplitMultiset(desc, s);
  }

  /** Every kept name is greater than every deleted one. */
  lemma KeptAboveDoomed(names: seq<string>, limit: int, i: nat, j: nat)
    requires Distinct(names)
    requires i < SliceStart(limit, |names|) <= j < |names|
    ensures StrLess(Descending(names)[j], Descending(names)[i])
  {
    SortStringsStrict(names);
    ReverseLess(SortStrings(names), i, j);
  }

  /** Reversing a strictly ascending sequence makes it strictly descending. */
  lemma ReverseLess(all: seq<string>, i: nat, j: nat)
    requires forall a, b :: 0 <= a < b < |all| ==> StrLess(all[a], all[b])
    requires i < j < |all|
    ensures StrLess(Reverse(all)[j], Reverse(all)[i])
  {
    var n := |all|;
    ReverseAt(all, i);
    ReverseAt(all, j);
    assert StrLess(all[n - 1 - j], all[n - 1 - i]);
  }

  lemma ReverseAt<T>(xs: seq<T>, i: nat)
    requires i < |xs|
    ensures Reverse(xs)[i] == xs[|xs| - 1 - i]
  {
  }

  /** What a prune leaves is what it keeps, as a set of names. */
  lemma LeftIsKept(names: seq<string>, limit: int, x: string)
    ensures x in Without(names, Doomed(names, limit)) <==> x in Kept(names, limit)
  {
    PruneMultiset(names, limit);
    assert x in Without(names, Doomed(names, limit)) <==> x in multiset(Without(names, Doomed(names, limit)));
    assert x in Kept(names, limit) <==> x in multiset(Kept(names, limit));
  }

  /** A name left by a prune is greater than any name it removed. */
  lemma LeftAboveRemoved(names: seq<string>, limit: int, x: string, y: string)
    requires Distinct(names)
    requires x in Without(names, Doomed(names, limit))
    requires y in names && y !in Without(names, Doomed(names, limit))
    ensures StrLess(y, x)
  {
    var desc := Descending(names);
    var s := SliceStart(limit, |names|);
    LeftIsKept(names, limit, x);
    LeftIsKept(names, limit, y);
    assert y in multiset(names);
    assert y in multiset(desc);
    var i, j := SplitIndices(desc, s, x, y);
    KeptAboveDoomed(names, limit, i, j);
  }

  /** Where an element of the prefix and an element outside it sit in the whole sequence. */
  lemma SplitIndices<T>(all: seq<T>, s: nat, x: T, y: T) returns (i: nat, j: nat)
    requires s <= |all| && x in all[..s] && y in all && y !in all[..s]
    ensures i < s <= j < |all| && all[i] == x && all[j] == y
  {
    i :| 0 <= i < s && all[..s][i] == x;
    j :| 0 <= j < |all| && all[j] == y;
    assert forall k :: 0 <= k < s ==> all[..s][k] == all[k];
  }

  /**
   * After pruning, the remaining deployments are the `k` greatest names,
   * where `k` is where the slice `[limit:]` starts: `min(limit, n)` for a
   * non-negative limit.
   */
  lemma PruneKeepsGreatest(names: seq<string>, limit: int)
    requires Distinct(names)
    ensures var after := Without(names, Doomed(names, limit));
            Distinct(after)
            && |after| == SliceStart(limit, |names|)
            && (forall x :: x in after ==> x in names)
            && (forall x, y :: x in after && y in names && y !in after ==> StrLess(y, x))
  {
    var after := Without(names, Doomed(names, limit));
    PruneMultiset(names, limit);
    KeptSub(names, limit);
    DistinctSub(after, names);
    assert |after| == |multiset(Kept(names, limit))|;
    forall x | x in after ensures x in names {
      assert x in multiset(after);
    }
    forall x, y | x in after && y in names && y !in after ensures StrLess(y, x) {
      LeftAboveRemoved(names, limit, x, y);
    }
  }

  /** A prune keeps the directory state consistent. */
  lemma PrunedValid(names: seq<string>, records: map<string, Value>, limit: int,
                    after: seq<string>, left: map<string, Value>)
    requires Distinct(names) && forall k :: k in records ==> k in names
    requires after == Without(names, Doomed(names, limit)) && left == Drop(records, Doomed(names, limit))
    ensures Distinct(after)
    ensures forall k :: k in left ==> k in after
  {
    PruneMultiset(names, limit);
    KeptSub(names, limit);
    DistinctSub(after, names);
    PruneRecords(names, records, Doomed(names, limit));
  }

  /** The records left by a prune belong to the deployments left by it. */
  lemma PruneRecords(names: seq<string>, records: map<string, Value>, ds: seq<string>)
    requires Distinct(names) && forall k :: k in records ==> k in names
    ensures forall k :: k in Drop(records, ds) ==> k in Without(names, ds)
  {
    WithoutMultiset(names, ds);
    forall k | k in Drop(records, ds) ensures k in Without(names, ds) {
      DropSpec(records, ds, k);
      assert k in multiset(names) && k !in multiset(ds);
      assert k in multiset(names) - multiset(ds);
    }
  }

  /** A limit of 0 deletes every deployment, and every record with it. */
  lemma PruneZero(names: seq<string>, records: map<string, Value>)
    requires Distinct(names) && forall k :: k in records ==> k in names
    ensures Without(names, Doomed(names, 0)) == []
    ensures Drop(records, Doomed(names, 0)) == map[]
  {
    PruneMultiset(names, 0);
    PruneRecords(names, records, Doomed(names, 0));

  }

  /**
   * The name `new()` creates: the timestamp, or on a collision the
   * timestamp followed by '#' and the random letters; `None` when that is
   * taken as well.
   */
  function NewName(names: seq<string>, stamp: string, rand: string): (r: Option<string>)
    ensures r.Some? ==> r.value !in names
    ensures r.Some? && stamp !in names ==> r.value == stamp
    ensures r.Some? && stamp in names ==> r.value == stamp + "#" + rand
    ensures r.None? <==> stamp in names && stamp + "#" + rand in names
  {
    if stamp !in names then Some(stamp)
    else if stamp + "#" + rand !in names then Some(stamp + "#" + rand)
    else None
  }

  /** Appending '#' and the letters to a joined path is joining the longer name. */
  lemma JoinSuffix(dir: string, stamp: string, rand: string)
    requires PlainName(stamp)
    ensures PathJoin(dir, stamp) + "#" + rand == PathJoin(dir, stamp + "#" + rand)
  {
    var long := stamp + "#" + rand;
    assert long[0] == stamp[0];
    if dir == [] || dir[|dir| - 1] == '/' {
      assert dir + stamp + "#" + rand == dir + long;
    } else {
      assert dir + "/" + stamp + "#" + rand == dir + "/" + long;
    }
  }

  /** The `shutil.rmtree` loop: removes each of `doomed` in turn. */
  method RemoveAll(listing: seq<string>, loaded: map<string, Value>, doomed: seq<string>)
    returns (left: seq<string>, kept: map<string, Value>)
    ensures left == Without(listing, doomed) && kept == Drop(loaded, doomed)
  {
    left, kept := listing, loaded;
    for i := 0 to |doomed|
      invariant left == Without(listing, doomed[..i])
      invariant kept == Drop(loaded, doomed[..i])
    {
      assert doomed[..i + 1] == doomed[..i] + [doomed[i]];
      DropSnoc(loaded, doomed[..i], doomed[i]);
      WithoutSnoc(listing, doomed[..i], doomed[i]);
      left := RemoveName(left, doomed[i]);
      kept := kept - {doomed[i]};
    }
    assert doomed[..|doomed|] == doomed;
  }

  /** No deployment is listed twice, and every record belongs to a listed deployment. */
  ghost predicate Consistent(names: seq<string>, records: map<string, Value>)
  {
    Distinct(names) && forall k :: k in records ==> k in names
  }

  /** `prune_deployments_history` on the listing and the records: the doomed deployments removed in order. */
  method PruneListing(listing: seq<string>, loaded: map<string, Value>, limit: int)
    returns (left: seq<string>, kept: map<string, Value>)
    requires Consistent(listing, loaded)
    ensures left == Without(listing, Doomed(listing, limit)) && kept == Drop(loaded, Doomed(listing, limit))
    ensures Consistent(left, kept)
  {
    left, kept := RemoveAll(listing, loaded, Doomed(listing, limit));
    PrunedValid(listing, loaded, limit, left, kept);
  }

  class Deployments {
    /** `get_deployments_directory()`: `<one-env directory>/deployments`. */
    const path: string
    /** Whether the deployments directory exists. */
    var present: bool
    /** Its listing, in the order `os.listdir` returns it. */
    var names: seq<string>
    /** The loaded record file of each deployment that has one. */
    var records: map<string, Value>

    ghost predicate Valid()
      reads this
    {
      Consistent(names, records) && (!present ==> names == [])
    }

    constructor (oneEnvDir: string, present0: bool, names0: seq<string>, records0: map<string, Value>)
      ensures path == PathJoin(oneEnvDir, DEPLOYMENTS)
      ensures present == present0 && names == names0 && records == records0
    {
      path := PathJoin(oneEnvDir, DEPLOYMENTS);
      present := present0;
      names := names0;
      records := records0;
    }

    /**
     * The name of the current deployment: the greatest name in the
     * listing; `sys.exit(1)` when there is none.
     */
    function CurrentName(): (r: Result<string>)
      reads this
      ensures r.Ok? <==> present && names != []
      ensures r.Ok? ==> r.value in names && forall n :: n in names ==> StrLessEq(n, r.value)
      ensures !present ==> r == Fail(FileNotFound(path))
      ensures present && names == [] ==> r == Fail(Exit(1))
    {
      if !present then Fail(FileNotFound(path))
      else match Newest(names)
        case None => Fail(Exit(1))
        case Some(n) => Ok(n)
    }

    /** `get_current_deployment_dir()`. */
    function CurrentDir(): (r: Result<string>)
      reads this
      ensures r.Ok? <==> CurrentName().Ok?
      ensures r.Ok? ==> r.value == PathJoin(path, CurrentName().value)
    {
      var n :- CurrentName();
      Ok(PathJoin(path, n))
    }

    /** `get_current_log_dir()`: always `<current>/logs`. */
    function CurrentLogDir(): (r: Result<string>)
      reads this
      ensures r.Ok? <==> CurrentName().Ok?
      ensures r.Ok? ==> r.value == PathJoin(PathJoin(path, CurrentName().value), LOGS)
    {
      var d :- CurrentDir();
      Ok(PathJoin(d, LOGS))
    }

    /**
     * `prune_deployments_history()`: sorts the listing greatest first and
     * deletes every deployment from position `limit` on.
     */
    method Prune(limit: int) returns (r: Result<()>)
      requires Valid()
      modifies this
      ensures Valid()
      ensures present == old(present)
      ensures !old(present) ==> r == Fail(FileNotFound(path)) && names == old(names) && records == old(records)
      ensures old(present) ==> r == Ok(())
                               && names == Without(old(names), Doomed(old(names), limit))
                               && records == Drop(old(records), Doomed(old(names), limit))
    {
      if !present {
        return Fail(FileNotFound(path));
      }
      var left, kept := PruneListing(names, records, limit);
      names, records := left, kept;
      r := Ok(());
    }

    /**
     * `new()`: creates the deployments directory if needed, then a
     * deployment named by the timestamp `stamp`, or on a collision by the
     * timestamp, '#' and the random letters `rand`; then prunes with
     * `limit` and returns the new deployment's path.
     */
    method New(stamp: string, rand: string, limit: int) returns (r: Result<string>)
      requires Valid() && PlainName(stamp)
      modifies this
      ensures Valid() && present
      ensures var n := NewName(old(names), stamp, rand);
              (n.None? ==> r == Fail(FileExists(PathJoin(path, stamp + "#" + rand)))
                           && names == old(names) && records == old(records))
              && (n.Some? ==> r == Ok(PathJoin(path, n.value))
                              && names == Without(old(names) + [n.value], Doomed(old(names) + [n.value], limit))
                              && records == Drop(old(records), Doomed(old(names) + [n.value], limit)))
    {
      present := true;
      var dirPath := PathJoin(path, stamp);
      var name := stamp;
      if stamp in names {
        dirPath := dirPath + "#" + rand;
        name := stamp + "#" + rand;
        JoinSuffix(path, stamp, rand);
        if name in names {
          return Fail(FileExists(dirPath));
        }
      }
      names := names + [name];
      var _ := Prune(limit);
      return Ok(dirPath);
    }
  }

  /**
   * With a history limit of 0, the directory `new()` returns has already
   * been deleted by the prune that follows its creation.
   */
  lemma NewWithZeroLimit(names: seq<string>, records: map<string, Value>, stamp: string, rand: string)
    requires Distinct(names) && forall k :: k in records ==> k in names
    requires NewName(names, stamp, rand).Some?
    ensures var all := names + [NewName(names, stamp, rand).value];
            Without(all, Doomed(all, 0)) == [] && Drop(records, Doomed(all, 0)) == map[]
  {
    var all := names + [NewName(names, stamp, rand).value];
    assert Distinct(all);
    PruneZero(all, records);
  }
}
