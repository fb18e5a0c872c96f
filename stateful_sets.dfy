/**
 * The pods of a stateful set (scripts/utils/k8s/stateful_sets.py): those
 * whose names `re.match` the pattern '<set name>-[\d]+'.
 */
module StatefulSets {
  import opened Util
  import opened KubernetesUtils

  /**
   * The pattern matches at the start of the name and has no end anchor: the
   * set name and '-' are followed by at least one digit, and whatever comes
   * after that does not matter.
   */
  predicate IsSetPodName(setName: string, podName: string)
  {
    var n := |setName| + 1;
    |podName| > n && podName[..n] == setName + "-" && IsDigit(podName[n])
  }

  /** `get_stateful_set_pods(stateful_set)` over the pod listing `pods`. */
  function GetStatefulSetPods(setName: string, pods: seq<Component>): (r: seq<Component>)
    ensures forall p :: p in r <==> p in pods && IsSetPodName(setName, p.name)
  {
    if pods == [] then []
    else
      var rest := GetStatefulSetPods(setName, pods[1..]);
      assert forall p :: p in pods <==> p == pods[0] || p in pods[1..];
      if IsSetPodName(setName, pods[0].name) then [pods[0]] + rest else rest
  }

  /** The kept pods keep the listing's order. */
  lemma {:induction false} StatefulSetPodsOrdered(setName: string, pods: seq<Component>)
    ensures IsSubsequence(GetStatefulSetPods(setName, pods), pods)
  {
    if pods != [] {
      StatefulSetPodsOrdered(setName, pods[1..]);
      var rest := GetStatefulSetPods(setName, pods[1..]);
      if !IsSetPodName(setName, pods[0].name) {
        SubsequenceSkip(rest, pods);
      }
    }
  }

  /** The ordinal of a set's pod, and anything after it, keeps the pod: there is no end anchor. */
  lemma SetPodNameWithSuffix(setName: string, d: char, tail: string)
    requires IsDigit(d)
    ensures IsSetPodName(setName, setName + "-" + [d] + tail)
  {
    var name := setName + "-" + [d] + tail;
    assert name[..|setName| + 1] == setName + "-";
  }

  /** A name that only contains the set name later on is not the set's pod. */
  lemma LaterOccurrenceExcluded(setName: string, prefix: string, rest: string)
    requires prefix != [] && setName != [] && prefix[0] != setName[0]
    ensures !IsSetPodName(setName, prefix + setName + "-" + rest)
  {
    var name := prefix + setName + "-" + rest;
    if |name| > |setName| + 1 {
      assert name[..|setName| + 1][0] == prefix[0];
    }
  }
}
