/**
 * Kubernetes objects as the scripts see them (scripts/utils/k8s/kubernetes_utils.py):
 * a name, labels, owner references and environment variables; and the
 * dash-as-wildcard name matching used to pick pods and other components.
 */
module KubernetesUtils {
  import opened Util

  datatype EnvVar = EnvVar(name: string, value: Option<string>)

  /**
   * A pod or config map: `owners` is `metadata.owner_references`, which
   * Kubernetes leaves as None when there are none at all, and holds the
   * `kind` of each reference otherwise.
   */
  datatype Component = Component(
    name: string,
    labels: map<string, string>,
    owners: Option<seq<string>>,
    env: seq<EnvVar>)

  /** `get_name(component)`. */
  function GetName(c: Component): string
  {
    c.name
  }

  /** `get_chart_name(component)`: the 'chart' label, or None. */
  function GetChartName(c: Component): (r: Option<string>)
    ensures r.Some? <==> "chart" in c.labels
    ensures r.Some? ==> r.value == c.labels["chart"]
  {
    if "chart" in c.labels then Some(c.labels["chart"]) else None
  }

  // ---------------------------------------------------------------------------
  // The pattern '.*' + substring.replace('-', '.*') + '.*' under re.match:
  // anchored at the start of the name, where '.' is any character but a
  // newline. The substring's '-'-separated pieces are taken literally.

  predicate NoNewline(s: string, a: nat, b: nat)
    requires a <= b <= |s|
  {
    forall t :: a <= t < b ==> s[t] != '\n'
  }

  /** The pieces of the pattern that must appear, in order. */
  function Pieces(substring: string): seq<string>
  {
    Split(substring, '-')
  }

  /** `(.* piece)*` matches a prefix of `name[i..]`; the final `.*` may match nothing. */
  predicate MatchFrom(name: string, i: nat, pieces: seq<string>)
    requires i <= |name|
    decreases |pieces|, |name| - i, 1
  {
    pieces == [] || MatchAt(name, i, pieces)
  }

  /** The first piece is placed at `j` or later, after a newline-free gap that ends at `j`. */
  predicate MatchAt(name: string, j: nat, pieces: seq<string>)
    requires j <= |name| && pieces != []
    decreases |pieces|, |name| - j, 0
  {
    (OccursAt(pieces[0], name, j) && MatchFrom(name, j + |pieces[0]|, pieces[1..]))
    || (j < |name| && name[j] != '\n' && MatchAt(name, j + 1, pieces))
  }

  /** `re.match(pattern, name)` succeeds. */
  predicate NameMatches(substring: string, name: string)
  {
    MatchFrom(name, 0, Pieces(substring))
  }

  /**
   * The reference reading of the pattern: each piece is found at its
   * leftmost occurrence after the previous one, and nothing but non-newline
   * characters is skipped on the way.
   */
  predicate Greedy(name: string, i: nat, pieces: seq<string>)
    requires i <= |name|
    decreases |pieces|
  {
    if pieces == [] then true
    else match IndexFrom(pieces[0], name, i)
      case None => false
      case Some(k) => NoNewline(name, i, k) && Greedy(name, k + |pieces[0]|, pieces[1..])
  }

  lemma {:induction false} WalkMatchAt(name: string, j: nat, k: nat, pieces: seq<string>)
    requires j <= k <= |name| && pieces != [] && NoNewline(name, j, k)
    requires OccursAt(pieces[0], name, k) && MatchFrom(name, k + |pieces[0]|, pieces[1..])
    ensures MatchAt(name, j, pieces)
    decreases k - j
  {
    if j < k {
      WalkMatchAt(name, j + 1, k, pieces);
    }
  }

  lemma {:induction false} MatchAtWitness(name: string, j: nat, pieces: seq<string>) returns (k: nat)
    requires j <= |name| && pieces != [] && MatchAt(name, j, pieces)
    ensures j <= k <= |name| && NoNewline(name, j, k)
    ensures OccursAt(pieces[0], name, k) && MatchFrom(name, k + |pieces[0]|, pieces[1..])
    decreases |name| - j
  {
    if OccursAt(pieces[0], name, j) && MatchFrom(name, j + |pieces[0]|, pieces[1..]) {
      k := j;
    } else {
      k := MatchAtWitness(name, j + 1, pieces);
    }
  }

  /** Starting earlier, over characters the pattern may skip, still matches. */
  lemma MatchFromEarlier(name: string, b: nat, a: nat, pieces: seq<string>)
    requires b <= a <= |name| && NoNewline(name, b, a) && MatchFrom(name, a, pieces)
    ensures MatchFrom(name, b, pieces)
  {
    if pieces != [] {
      var k := MatchAtWitness(name, a, pieces);
      WalkMatchAt(name, b, k, pieces);
    }
  }

  predicate NoNewlinePieces(pieces: seq<string>)
  {
    forall p :: p in pieces ==> !HasChar(p, '\n')
  }

  /** For pieces without newlines, the regex reading and the greedy reading agree. */
  lemma {:induction false} MatchIsGreedy(name: string, i: nat, pieces: seq<string>)
    requires i <= |name| && NoNewlinePieces(pieces)
    ensures MatchFrom(name, i, pieces) <==> Greedy(name, i, pieces)
    decreases |pieces|
  {
    if pieces != [] {
      var p := pieces[0];
      assert NoNewlinePieces(pieces[1..]) by {
        forall q | q in pieces[1..] ensures !HasChar(q, '\n') {
          assert q in pieces;
        }
      }
      match IndexFrom(p, name, i)
      case None =>
        if MatchFrom(name, i, pieces) {
          var k := MatchAtWitness(name, i, pieces);
          assert false;
        }
      case Some(k) =>
        if MatchFrom(name, i, pieces) {
          var j := MatchAtWitness(name, i, pieces);
          assert k <= j;
          assert NoNewline(name, i, k);
          assert NoNewline(name, k + |p|, j + |p|) by {
            forall t | k + |p| <= t < j + |p| ensures name[t] != '\n' {
              if t >= j {
                assert name[t] == p[t - j] by {
                  assert name[j..j + |p|][t - j] == name[t];
                }
                assert p in pieces;
              }
            }
          }
          MatchFromEarlier(name, k + |p|, j + |p|, pieces[1..]);
          MatchIsGreedy(name, k + |p|, pieces[1..]);
        }
        if Greedy(name, i, pieces) {
          MatchIsGreedy(name, k + |p|, pieces[1..]);
          WalkMatchAt(name, i, k, pieces);
        }
    }
  }

  /** An empty substring matches every name. */
  lemma EmptySubstringMatches(name: string)
    ensures NameMatches("", name)
  {
    assert Pieces("") == [""];
    assert OccursAt("", name, 0);
  }

  /** A dash stands for any run of characters: 'z-1' picks out 'dev-onezone-node-1-0'. */
  lemma DashIsWildcard()
    ensures NameMatches("z-1", "dev-onezone-node-1-0")
  {
    var name := "dev-onezone-node-1-0";
    assert Pieces("z-1") == ["z", "1"] by {
      assert "z-1" == "z" + ['-'] + "1";
      SplitFirst("z", '-', "1");
      SplitNoSep("1", '-');
    }
    assert OccursAt("z", name, 7) && OccursAt("1", name, 17);
    assert MatchFrom(name, 18, []);
    WalkMatchAt(name, 8, 17, ["1"]);
    assert ["z", "1"][1..] == ["1"];
    WalkMatchAt(name, 0, 7, ["z", "1"]);
  }

  /** `match_component(substring, list_components)`: the matching components, in listing order. */
  function MatchComponent(substring: string, components: seq<Component>): (r: seq<Component>)
    ensures |r| <= |components|
    ensures forall c :: c in r <==> c in components && NameMatches(substring, c.name)
  {
    if components == [] then []
    else
      var rest := MatchComponent(substring, components[1..]);
      assert forall c :: c in components <==> c == components[0] || c in components[1..];
      if NameMatches(substring, components[0].name) then [components[0]] + rest else rest
  }

  /** The matches keep their relative order: they form a subsequence of the listing. */
  ghost predicate IsSubsequence<T>(r: seq<T>, s: seq<T>)
    decreases |s|
  {
    if r == [] then true
    else if s == [] then false
    else if r[0] == s[0] then IsSubsequence(r[1..], s[1..])
    else IsSubsequence(r, s[1..])
  }

  lemma {:induction false} MatchComponentOrdered(substring: string, components: seq<Component>)
    ensures IsSubsequence(MatchComponent(substring, components), components)
  {
    if components != [] {
      MatchComponentOrdered(substring, components[1..]);
      var rest := MatchComponent(substring, components[1..]);
      if !NameMatches(substring, components[0].name) && rest != [] {
        assert IsSubsequence(rest, components) by {
          SubsequenceSkip(rest, components);
        }
      }
    }
  }

  lemma {:induction false} SubsequenceSkip<T>(r: seq<T>, s: seq<T>)
    requires s != [] && IsSubsequence(r, s[1..])
    ensures IsSubsequence(r, s)
    decreases |r| + |s|, 1
  {
    if r != [] && r[0] == s[0] {
      SubsequenceTail(r, s[1..]);
    }
  }

  lemma {:induction false} SubsequenceTail<T>(r: seq<T>, s: seq<T>)
    requires r != [] && IsSubsequence(r, s)
    ensures IsSubsequence(r[1..], s)
    decreases |r| + |s|, 0
  {
    if s != [] {
      if r[0] == s[0] {
        SubsequenceSkip(r[1..], s);
      } else {
        SubsequenceTail(r, s[1..]);
        SubsequenceSkip(r[1..], s);
      }
    }
  }
}
