/** Object names the operator derives, and which pods it takes for its own. */
module Names {
  import opened Common

  datatype Kind = Runner | MultiRunner

  /** The permissions a binding can carry: the base set, or the optional disruption-budget one. */
  datatype Grant = Base | Pdb

  function ChildName(kind: Kind, name: string): string {
    match kind
    case Runner => "gitlab-runner-" + name
    case MultiRunner => "gitlab-mrunner-" + name
  }

  function BindingName(kind: Kind, name: string, grant: Grant): string {
    match grant
    case Base => ChildName(kind, name)
    case Pdb => "pdb-" + ChildName(kind, name)
  }

  lemma ChildNamesInjective(k1: Kind, n1: string, k2: Kind, n2: string)
    requires ChildName(k1, n1) == ChildName(k2, n2)
    ensures k1 == k2 && n1 == n2
  {
    var c1, c2 := ChildName(k1, n1), ChildName(k2, n2);
    assert c1[7] == if k1.Runner? then 'r' else 'm';
    assert c2[7] == if k2.Runner? then 'r' else 'm';
    var prefix := |ChildName(k1, "")|;
    assert n1 == c1[prefix..] && n2 == c2[prefix..];
  }

  /** One binding name never serves two objects or two grants. */
  lemma BindingNamesInjective(k1: Kind, n1: string, g1: Grant, k2: Kind, n2: string, g2: Grant)
    requires BindingName(k1, n1, g1) == BindingName(k2, n2, g2)
    ensures k1 == k2 && n1 == n2 && g1 == g2
  {
    var b1, b2 := BindingName(k1, n1, g1), BindingName(k2, n2, g2);
    assert b1[0] == if g1.Base? then 'g' else 'p';
    assert b2[0] == if g2.Base? then 'g' else 'p';
    if g1.Pdb? {
      assert b1[4..] == ChildName(k1, n1) && b2[4..] == ChildName(k2, n2);
    }
    ChildNamesInjective(k1, n1, k2, n2);
  }

  /** The prune compares bindings by the text namespace/name. */
  function PruneKey(namespace: string, name: string): string {
    namespace + "/" + name
  }

  /** A stored binding has no slash in its namespace or name, so the text identifies it. */
  lemma PruneKeysInjective(ns1: string, n1: string, ns2: string, n2: string)
    requires '/' !in ns1 && '/' !in n1
    requires PruneKey(ns1, n1) == PruneKey(ns2, n2)
    ensures ns1 == ns2 && n1 == n2
  {
    var s := PruneKey(ns1, n1);
    assert s[|ns2|] == '/';
    assert forall i | 0 <= i < |ns1| :: s[i] == ns1[i] != '/';
    assert forall i | |ns1| < i < |s| :: s[i] == n1[i - |ns1| - 1] != '/';
    assert ns1 == s[..|ns1|] && ns2 == s[..|ns2|];
    assert n1 == s[|ns1| + 1..] && n2 == s[|ns2| + 1..];
  }

  // ----- manager pods -----

  datatype OwnerRef = OwnerRef(kind: string, name: string)

  datatype Pod = Pod(labels: map<string, string>, owners: seq<OwnerRef>, deletion: Option<nat>)

  /** The pod belongs to a ReplicaSet of the named Deployment. */
  predicate IsManagerPod(pod: Pod, deployment: string) {
    exists i | 0 <= i < |pod.owners| ::
      pod.owners[i].kind == "ReplicaSet" && deployment + "-" <= pod.owners[i].name
  }

  /** The pod carries the selector label of the manager Deployment of object `name`. */
  predicate HasManagerLabel(pod: Pod, name: string) {
    "deployment" in pod.labels && pod.labels["deployment"] == name
  }

  /** The pods a drain of the object waits for and deletes. */
  predicate OwnsPod(kind: Kind, name: string, pod: Pod) {
    HasManagerLabel(pod, name) && IsManagerPod(pod, ChildName(kind, name))
  }

  /** A pod of any ReplicaSet of the manager Deployment is one of them: the ReplicaSet is named
      after the Deployment and a hash, and the pod carries the selector label. */
  lemma ManagerPodIsRecognised(kind: Kind, name: string, hash: string, pod: Pod)
    requires pod.labels == map["deployment" := name] && pod.owners == [OwnerRef("ReplicaSet", ChildName(kind, name) + "-" + hash)]
    ensures OwnsPod(kind, name, pod)
  {
    assert ChildName(kind, name) + "-" <= pod.owners[0].name;
  }

  predicate SingleReplicaSet(pod: Pod) {
    forall i, j | 0 <= i < |pod.owners| && 0 <= j < |pod.owners| ::
      pod.owners[i].kind == "ReplicaSet" && pod.owners[j].kind == "ReplicaSet" ==> pod.owners[i] == pod.owners[j]
  }

  /** No pod is drained by two objects, not even by a Runner and a MultiRunner of one name. */
  lemma ManagerPodHasOneObject(pod: Pod, k1: Kind, n1: string, k2: Kind, n2: string)
    requires SingleReplicaSet(pod)
    requires OwnsPod(k1, n1, pod) && OwnsPod(k2, n2, pod)
    ensures k1 == k2 && n1 == n2
  {
    var c1, c2 := ChildName(k1, n1), ChildName(k2, n2);
    var i :| 0 <= i < |pod.owners| && pod.owners[i].kind == "ReplicaSet" && c1 + "-" <= pod.owners[i].name;
    var j :| 0 <= j < |pod.owners| && pod.owners[j].kind == "ReplicaSet" && c2 + "-" <= pod.owners[j].name;
    var owner := pod.owners[i].name;
    assert (c1 + "-")[7] == owner[7] && (c2 + "-")[7] == owner[7];
    assert c1[7] == if k1.Runner? then 'r' else 'm';
    assert c2[7] == if k2.Runner? then 'r' else 'm';
  }

  /** Labels alone or ReplicaSet names alone would not do: the Deployment prefix of "a" is
      also one of "a-b", and only the label tells the two apart. */
  lemma OwnerPrefixAloneIsAmbiguous()
    ensures exists pod: Pod :: SingleReplicaSet(pod)
                               && IsManagerPod(pod, ChildName(Runner, "a"))
                               && IsManagerPod(pod, ChildName(Runner, "a-b"))
  {
    var owner := OwnerRef("ReplicaSet", "gitlab-runner-a-b-x");
    var pod := Pod(map[], [owner], None);
    assert ChildName(Runner, "a") + "-" == "gitlab-runner-a-" <= pod.owners[0].name;
    assert ChildName(Runner, "a-b") + "-" == "gitlab-runner-a-b-" <= pod.owners[0].name;
    assert SingleReplicaSet(pod) && IsManagerPod(pod, ChildName(Runner, "a")) && IsManagerPod(pod, ChildName(Runner, "a-b"));
  }
}
