/** Stopping the manager before its object goes away. Times are in seconds. */
module Drain {
  import opened Common
  import opened Names
  import opened ManagerDeployment

  /** How long past its kill deadline a manager pod may linger. */
  const DRAIN_MARGIN := 60

  type Pods = map<string, Pod>

  /** Every manager pod is already terminating and its deadline plus the margin has passed;
      with no manager pod left this holds at any time. */
  predicate Drained(pods: Pods, kind: Kind, name: string, now: nat) {
    forall p | p in pods && OwnsPod(kind, name, pods[p]) ::
      pods[p].deletion.Some? && now > pods[p].deletion.value + DRAIN_MARGIN
  }

  predicate AllTerminating(pods: Pods, kind: Kind, name: string) {
    forall p | p in pods && OwnsPod(kind, name, pods[p]) :: pods[p].deletion.Some?
  }

  /** No manager pod has appeared, and those left keep their deadlines. */
  predicate NoNewPods(before: Pods, after: Pods, kind: Kind, name: string) {
    forall p | p in after && OwnsPod(kind, name, after[p]) :: p in before && after[p] == before[p]
  }

  /** Once every manager pod is terminating and no new one appears, any later time past the
      largest deadline plus the margin finds the manager drained, and it stays so. */
  lemma DrainIsBounded(pods: Pods, later: Pods, kind: Kind, name: string, deadline: nat, now: nat)
    requires AllTerminating(pods, kind, name) && NoNewPods(pods, later, kind, name)
    requires forall p | p in pods && OwnsPod(kind, name, pods[p]) :: pods[p].deletion.value <= deadline
    requires now > deadline + 60
    ensures Drained(later, kind, name, now)
  {
  }

  /** Until then a pod of the manager's ReplicaSet is waited for: as long as it is not terminating,
      and when it is, for a minute past its deadline. */
  lemma ManagerPodIsWaitedFor(pods: Pods, p: string, kind: Kind, name: string, hash: string, now: nat)
    requires p in pods && pods[p].labels == map["deployment" := name]
    requires pods[p].owners == [OwnerRef("ReplicaSet", ChildName(kind, name) + "-" + hash)]
    requires pods[p].deletion.None? || now <= pods[p].deletion.value + 60
    ensures !Drained(pods, kind, name, now)
  {
    ManagerPodIsRecognised(kind, name, hash, pods[p]);
  }

  /** Deleting a pod takes it away or marks it terminating, if the call took effect, and leaves
      every other pod alone. */
  ghost predicate DeletedFrom(before: Pods, pods: Pods, p: string, ok: bool) {
    && (forall q | q != p :: (q in pods <==> q in before) && (q in pods ==> pods[q] == before[q]))
    && (p in pods ==> p in before && pods[p] == before[p].(deletion := pods[p].deletion))
    && (ok && p in pods ==> pods[p].deletion.Some?)
  }

  class PodStore {
    const api: Api
    var pods: Pods

    constructor (api: Api, pods: Pods)
      ensures this.api == api && this.pods == pods
    {
      this.api := api;
      this.pods := pods;
    }

    /** The cluster removes the pod at once or starts its kill deadline; an error may hide
        either. A pod that is gone already counts as deleted. */
    method Delete(p: string) returns (ok: bool)
      modifies this, api
      ensures api.faults >= old(api.faults) && (ok <==> api.faults == old(api.faults))
      ensures DeletedFrom(old(pods), pods, p, ok)
    {
      var r := api.Call();
      ok := r.Done?;
      if p in pods && r.Applied() {
        var gone: bool := *;
        var deadline: nat := *;
        if gone {
          pods := pods - {p};
        } else if pods[p].deletion.None? {
          pods := pods[p := pods[p].(deletion := Some(deadline))];
        }
      }
    }
  }

  /** The manager pods of an object. */
  function ManagerPods(pods: Pods, kind: Kind, name: string): set<string> {
    set p | p in pods && OwnsPod(kind, name, pods[p])
  }

  /** Only pods of `owned` that were not terminating may have changed. */
  ghost predicate OthersUntouched(before: Pods, after: Pods, owned: set<string>) {
    && after.Keys <= before.Keys
    && forall p | p in before ::
         if p in owned && before[p].deletion.None? then
           p in after ==> after[p] == before[p].(deletion := after[p].deletion)
         else p in after && after[p] == before[p]
  }

  /** The counters after the manager pods in `seen`: how many, how many were not terminating,
      and the largest deadline of the others. */
  ghost predicate Counted(pods: Pods, seen: set<string>, remaining: nat, pending: nat, deadline: nat) {
    && seen <= pods.Keys && pending <= remaining
    && (remaining == 0 <==> seen == {})
    && (pending == 0 <==> forall p | p in seen :: pods[p].deletion.Some?)
    && (forall p | p in seen && pods[p].deletion.Some? :: pods[p].deletion.value <= deadline)
    && (deadline == 0 || exists p :: p in seen && pods[p].deletion == Some(deadline))
  }

  lemma CountOneMore(pods: Pods, seen: set<string>, p: string, remaining: nat, pending: nat, deadline: nat)
    requires Counted(pods, seen, remaining, pending, deadline) && p in pods
    ensures
      var running := pods[p].deletion.None?;
      Counted(pods, seen + {p}, remaining + 1, if running then pending + 1 else pending,
              if !running && pods[p].deletion.value > deadline then pods[p].deletion.value else deadline)
  {
  }

  lemma CountedAll(pods: Pods, kind: Kind, name: string, remaining: nat, pending: nat, deadline: nat, now: nat)
    requires Counted(pods, ManagerPods(pods, kind, name), remaining, pending, deadline)
    ensures Drained(pods, kind, name, now) <==> remaining == 0 || (pending == 0 && now > deadline + DRAIN_MARGIN)
  {
    var owned := ManagerPods(pods, kind, name);
    assert forall p | p in pods && OwnsPod(kind, name, pods[p]) :: p in owned;
    if Drained(pods, kind, name, now) && remaining != 0 {
      var p :| p in owned;
      assert p in pods && OwnsPod(kind, name, pods[p]);
    }
  }

  /** Mid-scan: pods still to visit are as listed, visited manager pods are gone or terminating. */
  ghost predicate MidDrain(before: Pods, pods: Pods, owned: set<string>, seen: set<string>) {
    && OthersUntouched(before, pods, owned)
    && (forall p | p in owned && p in before && p !in seen :: p in pods && pods[p] == before[p])
    && (forall p | p in seen && p in pods :: pods[p].deletion.Some?)
  }

  lemma NoneSeen(pods: Pods, kind: Kind, name: string)
    ensures Counted(pods, {}, 0, 0, 0) && MidDrain(pods, pods, ManagerPods(pods, kind, name), {})
    ensures ManagerPods(pods, kind, name) <= pods.Keys
  {
  }

  lemma AllSeen(before: Pods, pods: Pods, owned: set<string>)
    requires MidDrain(before, pods, owned, owned)
    ensures OthersUntouched(before, pods, owned)
    ensures forall p | p in owned && p in pods :: pods[p].deletion.Some?
  {
  }

  lemma DeletedOne(before: Pods, pods0: Pods, pods: Pods, owned: set<string>, seen: set<string>, p: string, ok: bool)
    requires MidDrain(before, pods0, owned, seen) && p in owned && p !in seen && p in before && before[p].deletion.None?
    requires DeletedFrom(pods0, pods, p, ok)
    ensures OthersUntouched(before, pods, owned)
    ensures ok ==> MidDrain(before, pods, owned, seen + {p})
  {
  }

  lemma SkippedOne(before: Pods, pods: Pods, owned: set<string>, seen: set<string>, p: string)
    requires MidDrain(before, pods, owned, seen) && p in before && before[p].deletion.Some?
    ensures MidDrain(before, pods, owned, seen + {p})
  {
  }

  lemma SomeUnseen(owned: set<string>, seen: set<string>)
    requires seen <= owned && seen != owned
    ensures exists p :: p in owned && p !in seen
  {
  }

  /** The pod loop of drainManager, over the manager pods of the list. */
  method StopPods(podStore: PodStore, kind: Kind, name: string)
    returns (remaining: nat, pending: nat, deadline: nat, failed: bool)
    modifies podStore, podStore.api
    ensures podStore.api.faults >= old(podStore.api.faults) && (failed <==> podStore.api.faults != old(podStore.api.faults))
    ensures OthersUntouched(old(podStore.pods), podStore.pods, ManagerPods(old(podStore.pods), kind, name))
    ensures !failed ==> Counted(old(podStore.pods), ManagerPods(old(podStore.pods), kind, name), remaining, pending, deadline)
    ensures !failed ==> forall p | p in ManagerPods(old(podStore.pods), kind, name) && p in podStore.pods :: podStore.pods[p].deletion.Some?
    ensures !failed && pending == 0 ==> podStore.pods == old(podStore.pods)
  {
    hide Counted, MidDrain, DeletedFrom, OthersUntouched, ManagerPods;
    remaining, pending, deadline := 0, 0, 0;
    var items := podStore.pods;
    var owned := ManagerPods(items, kind, name);
    var seen: set<string> := {};
    NoneSeen(items, kind, name);
    while seen != owned
      invariant seen <= owned && owned <= items.Keys && items == old(podStore.pods) && owned == ManagerPods(items, kind, name)
      invariant Counted(items, seen, remaining, pending, deadline)
      invariant MidDrain(items, podStore.pods, owned, seen)
      invariant pending == 0 ==> podStore.pods == items
      invariant podStore.api.faults == old(podStore.api.faults)
      decreases owned - seen
    {
      SomeUnseen(owned, seen);
      var p :| p in owned && p !in seen;
      CountOneMore(items, seen, p, remaining, pending, deadline);
      remaining := remaining + 1;
      if items[p].deletion.None? {
        pending := pending + 1;
        ghost var pods0 := podStore.pods;
        var ok := podStore.Delete(p);
        DeletedOne(items, pods0, podStore.pods, owned, seen, p, ok);
        if !ok {
          return remaining, pending, deadline, true;
        }
      } else {
        SkippedOne(items, podStore.pods, owned, seen, p);
        if items[p].deletion.value > deadline {
          deadline := items[p].deletion.value;
        }
      }
      seen := seen + {p};
    }
    AllSeen(items, podStore.pods, owned);
    failed := false;
  }

  /** Deletes the Deployment, deletes the manager pods that are not terminating yet, and
      reports whether none is left to wait for. */
  method DrainManager(deployments: DeploymentStore, podStore: PodStore, kind: Kind, name: string, now: nat)
    returns (drained: bool, failed: bool)
    modifies deployments, deployments.api, podStore, podStore.api
    ensures deployments.stored == old(deployments.stored) || deployments.stored.None?
    ensures !failed ==> deployments.stored.None?
    ensures !failed ==> (drained <==> Drained(old(podStore.pods), kind, name, now))
    ensures !failed ==> AllTerminating(podStore.pods, kind, name)
    ensures failed ==> !drained
    ensures OthersUntouched(old(podStore.pods), podStore.pods, ManagerPods(old(podStore.pods), kind, name))
    ensures drained ==> podStore.pods == old(podStore.pods)
    ensures deployments.api.faults >= old(deployments.api.faults) && podStore.api.faults >= old(podStore.api.faults)
    ensures deployments.api.faults == old(deployments.api.faults) && podStore.api.faults == old(podStore.api.faults) ==> !failed
  {
    ghost var before, owned := podStore.pods, ManagerPods(podStore.pods, kind, name);
    var r := deployments.api.Call();
    if r.Applied() {
      deployments.stored := None;
    }
    if !r.Done? {
      return false, true;
    }
    var listed := podStore.api.Call();
    if !listed.Done? {
      return false, true;
    }
    var remaining, pending, deadline: nat;
    remaining, pending, deadline, failed := StopPods(podStore, kind, name);
    if failed {
      return false, true;
    }
    StoppedTerminate(before, podStore.pods, kind, name);
    CountedAll(before, kind, name, remaining, pending, deadline, now);
    if remaining == 0 {
      return true, false;
    }
    if pending > 0 {
      return false, false;
    }
    drained := now > deadline + DRAIN_MARGIN;
  }

  lemma StoppedTerminate(before: Pods, pods: Pods, kind: Kind, name: string)
    requires OthersUntouched(before, pods, ManagerPods(before, kind, name))
    requires forall p | p in ManagerPods(before, kind, name) && p in pods :: pods[p].deletion.Some?
    ensures AllTerminating(pods, kind, name)
  {
  }
}
