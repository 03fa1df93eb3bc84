/** Enforcement of the operator's list of allowed build namespaces. */
module AllowList {
  import opened Executor
  import opened Rbac
  import opened RbacStore

  predicate Permitted(o: Owner, ns: string, allowed: seq<string>) {
    BuildNamespaceAllowed(ns, o.namespace, allowed)
  }

  /** Some entry targets a namespace that is not allowed. */
  ghost predicate Refused(o: Owner, allowed: seq<string>) {
    exists ns :: Targets(o, ns) && !Permitted(o, ns, allowed)
  }

  /** The key of a binding the spec still asks for in an allowed namespace. */
  ghost predicate StillWanted(o: Owner, k: Key, allowed: seq<string>) {
    exists b: BindingKey ::
      Wanted(o, b.namespace, b.grant) && Permitted(o, b.namespace, allowed) && k == KeyOf(o, b.namespace, b.grant)
  }

  /** In terms of the spec: an entry names a namespace that is neither the object's own nor on the
      list, and the list does not allow every one. */
  lemma RefusedIff(o: Owner, allowed: seq<string>)
    ensures Refused(o, allowed) <==>
            "*" !in allowed &&
            exists cfg :: cfg in o.executors && cfg.namespace != "" && cfg.namespace != o.namespace && cfg.namespace !in allowed
  {
    if cfg :| cfg in o.executors && cfg.namespace != "" && cfg.namespace != o.namespace && cfg.namespace !in allowed && "*" !in allowed {
      assert Targets(o, cfg.namespace) && !Permitted(o, cfg.namespace, allowed);
    }
  }

  /** What is left of the bindings: all of other objects, and of the object's own those still
      wanted in allowed namespaces. */
  ghost predicate Revoked(before: State, st: State, o: Owner, allowed: seq<string>) {
    && Shrunk(st, before)
    && forall k :: k in st.bindings <==> k in before.bindings && (OwnedBy(before.bindings[k], o) ==> StillWanted(o, k, allowed))
  }

  /** Checks every target namespace, in any order. A violation revokes at once what the
      object holds beyond the wanted bindings in allowed namespaces, and stops the pass. */
  method EnforceAllowedBuildNamespaces(store: Store, o: Owner, allowed: seq<string>) returns (ok: bool, failed: bool)
    requires store.Valid()
    modifies store, store.api
    ensures store.Valid() && old(store.trace) <= store.trace && store.api.faults >= old(store.api.faults)
    ensures ok <==> !Refused(o, allowed)
    ensures ok ==> !failed && store.st == old(store.st) && store.trace == old(store.trace) && store.api.faults == old(store.api.faults)
    ensures failed ==> store.api.faults != old(store.api.faults)
    ensures !ok && !failed ==> Revoked(old(store.st), store.st, o, allowed)
    ensures Shrunk(store.st, old(store.st))
    ensures forall k | k in old(store.st).bindings && k !in store.st.bindings :: OwnedBy(old(store.st).bindings[k], o)
  {
    var bad := "";
    var keep: seq<string> := [];
    var namespaces := BuildNamespaces(o);
    for i := 0 to |namespaces|
      invariant bad == "" <==> forall j | 0 <= j < i :: Permitted(o, namespaces[j], allowed)
      invariant forall ns :: ns in keep <==> ns in namespaces[..i] && Permitted(o, ns, allowed)
    {
      assert namespaces[..i + 1] == namespaces[..i] + [namespaces[i]];
      if Permitted(o, namespaces[i], allowed) {
        keep := keep + [namespaces[i]];
      } else {
        bad := namespaces[i];
      }
    }
    assert namespaces[..|namespaces|] == namespaces;
    if bad == "" {
      assert forall ns | Targets(o, ns) :: ns in namespaces;
      return true, false;
    }
    var j :| 0 <= j < |namespaces| && !Permitted(o, namespaces[j], allowed);
    assert namespaces[j] in namespaces;
    var desired := DesiredBindings(o, keep);
    KeepIsStillWanted(o, allowed, desired);
    ghost var before := store.st;
    var pruned := store.DeleteRBACExcept(o, desired);
    assert forall k | k in Prunable(before, o, desired) :: OwnedBy(before.bindings[k], o);
    ok, failed := false, !pruned;
  }

  lemma KeepIsStillWanted(o: Owner, allowed: seq<string>, desired: seq<BindingKey>)
    requires forall b :: b in desired <==>
                         Targets(o, b.namespace) && Permitted(o, b.namespace, allowed) && (b.grant.Base? || TargetsWithPdb(o, b.namespace))
    ensures forall k :: StillWanted(o, k, allowed) <==> KeyOfSome(o, k, desired)
  {
  }

  /** Every binding of the object lies in its own namespace or in an allowed one. */
  ghost predicate Confined(st: State, o: Owner, allowed: seq<string>) {
    forall k | k in st.bindings && OwnedBy(st.bindings[k], o) :: Permitted(o, k.namespace, allowed)
  }

  /** A pass that was not refused and finished RBAC leaves the object confined. */
  lemma FinishedPassIsConfined(st: State, o: Owner, allowed: seq<string>)
    requires !Refused(o, allowed) && OnlyWanted(st, o)
    ensures Confined(st, o, allowed)
  {
  }

  /** So does a pass that was refused without error. */
  lemma RefusedPassIsConfined(before: State, st: State, o: Owner, allowed: seq<string>)
    requires Revoked(before, st, o, allowed)
    ensures Confined(st, o, allowed)
  {
  }
}
