/** The RBAC objects on the API server and the operator's reconciliation of them. */
module RbacStore {
  import opened Common
  import opened Names
  import opened Executor
  import opened Rbac

  /** Names the API server accepts for a namespaced object. */
  predicate ValidKey(k: Key) {
    '/' !in k.namespace && '/' !in k.name
  }

  // ----- what the spec asks for, as the source computes it -----

  /** The distinct namespaces the entries target, in no particular order. */
  method BuildNamespaces(o: Owner) returns (out: seq<string>)
    ensures forall ns :: ns in out <==> Targets(o, ns)
  {
    var found: set<string> := {};
    for i := 0 to |o.executors|
      invariant forall ns :: ns in found <==> exists j :: 0 <= j < i && EffectiveNamespace(o.executors[j], o.namespace) == ns
    {
      found := found + {EffectiveNamespace(o.executors[i], o.namespace)};
    }
    assert o.executors != [] ==> EffectiveNamespace(o.executors[0], o.namespace) in found;
    if found == {} {
      found := {o.namespace};
    }
    out := SetToSeq(found);
  }

  method PdbNamespaces(o: Owner) returns (out: set<string>)
    ensures forall ns :: ns in out <==> TargetsWithPdb(o, ns)
  {
    out := {};
    for i := 0 to |o.executors|
      invariant forall ns :: ns in out <==>
                  exists j :: 0 <= j < i && EffectiveNamespace(o.executors[j], o.namespace) == ns && WantsPdb(o.executors[j])
    {
      if WantsPdb(o.executors[i]) {
        out := out + {EffectiveNamespace(o.executors[i], o.namespace)};
      }
    }
  }

  /** The base binding in each of `namespaces`, and the optional one where an entry wants it. */
  method DesiredBindings(o: Owner, namespaces: seq<string>) returns (out: seq<BindingKey>)
    ensures forall b :: b in out <==> b.namespace in namespaces && (b.grant.Base? || TargetsWithPdb(o, b.namespace))
  {
    var wanted := PdbNamespaces(o);
    out := [];
    for i := 0 to |namespaces|
      invariant forall b :: b in out <==> b.namespace in namespaces[..i] && (b.grant.Base? || TargetsWithPdb(o, b.namespace))
    {
      assert namespaces[..i + 1] == namespaces[..i] + [namespaces[i]];
      BindingsOfOneNamespace(namespaces[i]);
      out := out + [BindingKey(namespaces[i], Base)];
      if namespaces[i] in wanted {
        out := out + [BindingKey(namespaces[i], Pdb)];
      }
    }
    assert namespaces[..|namespaces|] == namespaces;
  }

  lemma BindingsOfOneNamespace(namespace: string)
    ensures forall b: BindingKey | b.namespace == namespace :: b == BindingKey(namespace, Base) || b == BindingKey(namespace, Pdb)
  {
    forall b: BindingKey | b.namespace == namespace
      ensures b == BindingKey(namespace, Base) || b == BindingKey(namespace, Pdb)
    {
      assert b.grant == Base || b.grant == Pdb;
    }
  }

  /** The base and the optional key of one namespace, whatever the spec asks for. */
  method AllBindingsIn(namespace: string) returns (out: seq<BindingKey>)
    ensures forall b :: b in out <==> b.namespace == namespace
  {
    BindingsOfOneNamespace(namespace);
    out := [BindingKey(namespace, Base)] + [BindingKey(namespace, Pdb)];
  }

  /** `small` is `big` with bindings taken away. */
  predicate Shrunk(small: State, big: State) {
    && small.roles == big.roles && small.accounts == big.accounts
    && small.bindings.Keys <= big.bindings.Keys
    && forall k | k in small.bindings :: small.bindings[k] == big.bindings[k]
  }

  /** From `from` on, the states lie between `small` and `big`. */
  ghost predicate Shrinking(trace: seq<State>, from: nat, small: State, big: State) {
    forall i | from <= i < |trace| :: Shrunk(small, trace[i]) && Shrunk(trace[i], big)
  }

  lemma ShrinkStep(trace: seq<State>, from: nat, small: State, big: State, next: State)
    requires Shrinking(trace, from, small, big) && Shrunk(small, big) && Shrunk(next, small)
    ensures Shrinking(trace, from, next, big) && Shrinking(trace + [next], from, next, big)
  {
  }

  /** Mid-prune: only bindings of `doomed` have gone, and those left to go are in `items`. */
  predicate PruneInv(st: State, before: State, doomed: set<Key>, items: set<Key>) {
    && Shrunk(st, before) && items <= st.bindings.Keys
    && before.bindings.Keys - st.bindings.Keys <= doomed
    && forall k | k in doomed && k in st.bindings :: k in items
  }

  /** At first every binding of the object is an item. */
  lemma PruneBegins(st: State, o: Owner, keep: seq<BindingKey>, keepSet: set<string>, items: set<Key>)
    requires keepSet == set b | b in keep :: PruneKey(b.namespace, BindingName(o.kind, o.name, b.grant))
    requires items == set k | k in st.bindings && OwnedBy(st.bindings[k], o)
    requires forall k | k in st.bindings :: ValidKey(k)
    ensures PruneInv(st, st, Prunable(st, o, keep), items)
    ensures forall k | k in items :: PruneKey(k.namespace, k.name) !in keepSet <==> k in Prunable(st, o, keep)
  {
    KeepSetIsExact(st, o, keep, keepSet);
  }

  lemma PruneDeletes(st: State, before: State, doomed: set<Key>, items: set<Key>, item: Key)
    requires PruneInv(st, before, doomed, items) && item in items && item in doomed
    ensures PruneInv(st.(bindings := st.bindings - {item}), before, doomed, items - {item})
    ensures Shrunk(st.(bindings := st.bindings - {item}), st)
  {
  }

  lemma PruneKeeps(st: State, before: State, doomed: set<Key>, items: set<Key>, item: Key)
    requires PruneInv(st, before, doomed, items) && item !in doomed
    ensures PruneInv(st, before, doomed, items - {item})
  {
  }

  lemma PruneEnds(st: State, before: State, doomed: set<Key>)
    requires PruneInv(st, before, doomed, {})
    ensures st == before.(bindings := before.bindings - doomed)
  {
  }

  /** The object's own bindings, by label, that `keep` does not list. */
  ghost function Prunable(st: State, o: Owner, keep: seq<BindingKey>): set<Key> {
    set k | k in st.bindings && OwnedBy(st.bindings[k], o) && forall b | b in keep :: k != KeyOf(o, b.namespace, b.grant)
  }

  /** Comparing by text is comparing by key, for bindings the server accepted. */
  lemma KeepSetIsExact(st: State, o: Owner, keep: seq<BindingKey>, keepSet: set<string>)
    requires keepSet == set b | b in keep :: PruneKey(b.namespace, BindingName(o.kind, o.name, b.grant))
    requires forall k | k in st.bindings :: ValidKey(k)
    ensures forall k | k in st.bindings && OwnedBy(st.bindings[k], o) ::
              PruneKey(k.namespace, k.name) !in keepSet <==> k in Prunable(st, o, keep)
  {
    forall k | ValidKey(k) && PruneKey(k.namespace, k.name) in keepSet
      ensures exists b :: b in keep && k == KeyOf(o, b.namespace, b.grant)
    {
      var b :| b in keep && PruneKey(b.namespace, BindingName(o.kind, o.name, b.grant)) == PruneKey(k.namespace, k.name);
      PruneKeysInjective(k.namespace, k.name, b.namespace, BindingName(o.kind, o.name, b.grant));
    }
  }

  // ----- the reconciliation, state by state -----

  /** A binding with the right role stands at the key `b` wants. */
  predicate InPlace(s: State, o: Owner, b: BindingKey) {
    var k := KeyOf(o, b.namespace, b.grant);
    k in s.bindings && s.bindings[k].roleRef == RoleOf(b.grant)
  }

  /** A binding with another role stands there. */
  predicate Misplaced(s: State, o: Owner, b: BindingKey) {
    var k := KeyOf(o, b.namespace, b.grant);
    k in s.bindings && s.bindings[k].roleRef != RoleOf(b.grant)
  }

  function Without(s: State, o: Owner, b: BindingKey): State {
    s.(bindings := s.bindings - {KeyOf(o, b.namespace, b.grant)})
  }

  function Bind(s: State, o: Owner, b: BindingKey): State {
    if InPlace(s, o, b) then s
    else s.(bindings := s.bindings[KeyOf(o, b.namespace, b.grant) := DesiredBinding(o, b.namespace, b.grant)])
  }

  /** What one successful call leaves: what stands in place is left alone, else the key gets a
      binding with the right role. It is the desired one unless the create was `raced` to it. */
  predicate BoundTo(s: State, after: State, o: Owner, b: BindingKey, raced: bool) {
    var k := KeyOf(o, b.namespace, b.grant);
    if InPlace(s, o, b) then after == s
    else
      && InPlace(after, o, b) && after == s.(bindings := s.bindings[k := after.bindings[k]])
      && (!raced ==> after == Bind(s, o, b))
  }

  ghost predicate KeyOfSome(o: Owner, k: Key, wants: seq<BindingKey>) {
    exists b :: b in wants && k == KeyOf(o, b.namespace, b.grant)
  }

  /** Only bindings missing or misplaced at the keys of `wants` are touched. */
  ghost predicate Framed(st: State, before: State, o: Owner, wants: seq<BindingKey>) {
    && st == before.(bindings := st.bindings)
    && (forall k | k in st.bindings :: k in before.bindings || KeyOfSome(o, k, wants))
    && (forall k | k in before.bindings && (forall b | b in wants :: k == KeyOf(o, b.namespace, b.grant) ==> InPlace(before, o, b)) ::
          k in st.bindings && st.bindings[k] == before.bindings[k])
  }

  lemma FramedStep(before: State, now: State, after: State, o: Owner, wants: seq<BindingKey>, i: nat)
    requires i < |wants| && Framed(now, before, o, wants[..i])
    requires after == now || BoundTo(now, after, o, wants[i], true) || (Misplaced(now, o, wants[i]) && after == Without(now, o, wants[i]))
    ensures Framed(after, before, o, wants)
  {
    assert wants[i] in wants;
    assert forall b | b in wants[..i] :: b in wants;
  }

  /** `b` stands in `after`: as it was in `s` if it was in place there, else as desired, unless
      another reconcile's create came first. */
  predicate Placed(s: State, after: State, o: Owner, b: BindingKey, raced: bool) {
    var k := KeyOf(o, b.namespace, b.grant);
    && InPlace(after, o, b)
    && (if InPlace(s, o, b) then after.bindings[k] == s.bindings[k]
        else raced || after.bindings[k] == DesiredBinding(o, b.namespace, b.grant))
  }

  lemma BindKeepsPlaced(s: State, now: State, after: State, o: Owner, last: BindingKey, b: BindingKey, raced: bool)
    requires Placed(s, now, o, b, raced) && BoundTo(now, after, o, last, raced)
    ensures Placed(s, after, o, b, raced)
  {
    if KeyOf(o, b.namespace, b.grant) == KeyOf(o, last.namespace, last.grant) {
      BindingNamesInjective(o.kind, o.name, b.grant, o.kind, o.name, last.grant);
    }
  }

  lemma BindPlaces(s: State, now: State, after: State, o: Owner, wants: seq<BindingKey>, b: BindingKey, raced: bool)
    requires Framed(now, s, o, wants)
    requires forall b' | b' in wants :: Placed(s, now, o, b', raced)
    requires BoundTo(now, after, o, b, raced)
    ensures Placed(s, after, o, b, raced)
  {
    var k := KeyOf(o, b.namespace, b.grant);
    forall b' | b' in wants && k == KeyOf(o, b'.namespace, b'.grant)
      ensures b' == b
    {
      BindingNamesInjective(o.kind, o.name, b.grant, o.kind, o.name, b'.grant);
    }
  }

  /** A turn of the loop that stops anywhere adds at most a fit binding, unless a create was raced. */
  lemma BindAddsFit(s: State, after: State, o: Owner, b: BindingKey)
    requires after == s || BoundTo(s, after, o, b, false) || (Misplaced(s, o, b) && after == Without(s, o, b))
    ensures AddsFit(s, after, o)
  {
  }

  lemma SameAddsFit(before: State, st: State, o: Owner)
    requires st.bindings == before.bindings
    ensures AddsFit(before, st, o)
  {
  }

  lemma ShrunkAddsFit(before: State, st: State, o: Owner)
    requires Shrunk(st, before.(roles := st.roles))
    ensures AddsFit(before, st, o)
  {
  }

  /** All of the list stand, and nothing else was touched. */
  ghost predicate AllBound(before: State, st: State, o: Owner, wants: seq<BindingKey>, raced: bool) {
    Framed(st, before, o, wants) && forall b | b in wants :: Placed(before, st, o, b, raced)
  }

  lemma AllBoundAddsFit(before: State, st: State, o: Owner, wants: seq<BindingKey>)
    requires AllBound(before, st, o, wants, false)
    ensures AddsFit(before, st, o)
  {
    forall k | k in st.bindings && !(k in before.bindings && st.bindings[k] == before.bindings[k])
      ensures OwnedBy(st.bindings[k], o) && st.bindings[k].subject == AccountOf(o) && Fit(st.bindings[k], k, o)
    {
      var b :| b in wants && k == KeyOf(o, b.namespace, b.grant) && !InPlace(before, o, b);
      assert Placed(before, st, o, b, false);
    }
  }

  /** One more turn of the binding loop. */
  lemma BindOneMore(before: State, now: State, after: State, o: Owner, wants: seq<BindingKey>, i: nat, earlier: bool, raced: bool)
    requires i < |wants| && AllBound(before, now, o, wants[..i], earlier) && (earlier ==> raced)
    requires BoundTo(now, after, o, wants[i], raced)
    ensures AllBound(before, after, o, wants[..i + 1], raced)
  {
    var done, b := wants[..i], wants[i];
    assert wants[..i + 1] == done + [b];
    assert wants[..i + 1][..i] == done;
    FramedStep(before, now, after, o, wants[..i + 1], i);
    BindPlaces(before, now, after, o, done, b, raced);
    forall b' | b' in done
      ensures Placed(before, after, o, b', raced)
    {
      BindKeepsPlaced(before, now, after, o, b, b', raced);
    }
  }

  /** Every binding of `s` that `init` did not have names a role that exists. */
  predicate Grounded(s: State, init: State) {
    && (forall name | name in init.roles :: name in s.roles)
    && (forall k | k in s.bindings ::
          (k in init.bindings && s.bindings[k] == init.bindings[k]) || s.bindings[k].roleRef in s.roles)
  }

  /** Of what stood in `init`, at most bindings with the wrong role where one is wanted are gone. */
  ghost predicate Untaken(init: State, s: State, o: Owner) {
    forall k | k in init.bindings && !MisplacedKey(init, o, k) :: k in s.bindings && s.bindings[k] == init.bindings[k]
  }

  /** A state the granting phase may pass through: grounded, untaken and, when no wanted binding
      had another role (`agreed`), with nothing taken away. */
  ghost predicate Grown(s: State, init: State, o: Owner, agreed: bool) {
    Grounded(s, init) && Untaken(init, s, o) && (agreed ==> Extends(init, s))
  }

  ghost predicate Growing(trace: seq<State>, from: nat, init: State, o: Owner, agreed: bool) {
    forall i | from <= i < |trace| :: Grown(trace[i], init, o, agreed)
  }

  lemma BindGrows(s: State, after: State, init: State, o: Owner, b: BindingKey, agreed: bool)
    requires Grown(s, init, o, agreed) && Wanted(o, b.namespace, b.grant)
    requires agreed ==> !Misplaced(s, o, b)
    requires (RoleOf(b.grant) in s.roles && BoundTo(s, after, o, b, true)) || (Misplaced(s, o, b) && after == Without(s, o, b))
    ensures Grown(after, init, o, agreed)
  {
    var k := KeyOf(o, b.namespace, b.grant);
    if k in init.bindings && !MisplacedKey(init, o, k) {
      assert !Misplaced(init, o, b);
      assert InPlace(s, o, b);
    }
  }

  lemma BindKeepsPlaces(s: State, after: State, o: Owner, b: BindingKey, other: BindingKey)
    requires !Misplaced(s, o, other) && BoundTo(s, after, o, b, true)
    ensures !Misplaced(after, o, other)
  {
    if KeyOf(o, b.namespace, b.grant) == KeyOf(o, other.namespace, other.grant) {
      BindingNamesInjective(o.kind, o.name, b.grant, o.kind, o.name, other.grant);
    }
  }

  /** The optional role, if it exists, holds no rule outside its desired set. */
  predicate PdbRoleWithin(st: State) {
    EXECUTOR_PDB_ROLE in st.roles ==> forall r | r in st.roles[EXECUTOR_PDB_ROLE] :: r in DesiredPdbRules()
  }

  predicate RolesConverged(st: State) {
    && EXECUTOR_ROLE in st.roles && st.roles[EXECUTOR_ROLE] == DesiredRoleRules()
    && EXECUTOR_PDB_ROLE in st.roles && st.roles[EXECUTOR_PDB_ROLE] == DesiredPdbRules()
  }

  /** Nothing is left to do for the object, whoever its bindings belong to. */
  ghost predicate RbacSettled(st: State, o: Owner) {
    Granted(st, o) && OnlyWanted(st, o) && RolesConverged(st) && AccountOf(o) in st.accounts
  }

  /** Every wanted binding has a name the server accepts. */
  ghost predicate ValidNames(o: Owner) {
    forall ns, grant | Wanted(o, ns, grant) :: ValidKey(KeyOf(o, ns, grant))
  }

  /** A binding with another role stands where the object wants one. */
  ghost predicate MisplacedKey(st: State, o: Owner, k: Key) {
    exists b: BindingKey :: Wanted(o, b.namespace, b.grant) && k == KeyOf(o, b.namespace, b.grant) && Misplaced(st, o, b)
  }

  ghost predicate WantsExactly(o: Owner, wants: seq<BindingKey>) {
    forall b :: b in wants <==> Wanted(o, b.namespace, b.grant)
  }

  /** Every wanted binding stands. */
  ghost predicate AllPlaced(init: State, s: State, o: Owner, raced: bool) {
    forall b: BindingKey | Wanted(o, b.namespace, b.grant) :: Placed(init, s, o, b, raced)
  }

  /** States of the revoking phase: grounded, every wanted binding in place, and nothing `fin`
      permits missing. */
  ghost predicate Receding(trace: seq<State>, from: nat, init: State, fin: State, o: Owner, raced: bool) {
    forall i | from <= i < |trace| :: Grounded(trace[i], init) && AllPlaced(init, trace[i], o, raced) && Extends(fin, trace[i])
  }

  /** The promise about every state passed through, the last one included, whether the pass
      succeeds or stops: each binding's role exists; nothing is taken, other than bindings with
      the wrong role, before every wanted binding stands; and, if there were none of those, the
      account keeps all its initial permissions, or all its final ones and all wanted bindings. */
  ghost predicate GrantsBeforeRevoking(trace: seq<State>, from: nat, init: State, fin: State, o: Owner, agreed: bool, raced: bool) {
    forall i | from <= i < |trace| ::
      && Grounded(trace[i], init)
      && (Untaken(init, trace[i], o) || AllPlaced(init, trace[i], o, raced))
      && (agreed ==>
            Keeps(init, trace[i], AccountOf(o)) || (Keeps(fin, trace[i], AccountOf(o)) && AllPlaced(init, trace[i], o, raced)))
  }

  lemma TwoPhases(trace: seq<State>, from: nat, mid: nat, init: State, fin: State, o: Owner, agreed: bool, raced: bool)
    requires from <= mid <= |trace|
    requires Growing(trace[..mid], from, init, o, agreed) && Receding(trace, mid, init, fin, o, raced)
    ensures GrantsBeforeRevoking(trace, from, init, fin, o, agreed, raced)
  {
    forall i | from <= i < mid
      ensures Grown(trace[i], init, o, agreed)
    {
      assert trace[..mid][i] == trace[i];
    }
  }

  lemma JoinGrowing(first: seq<State>, all: seq<State>, from: nat, init: State, o: Owner, agreed: bool)
    requires first <= all && from <= |first|
    requires Growing(first, from, init, o, agreed) && Growing(all, |first|, init, o, agreed)
    ensures Growing(all, from, init, o, agreed)
  {
  }

  lemma WeakenGrowing(trace: seq<State>, from: nat, s: State, init: State, o: Owner, more: bool, less: bool)
    requires Growing(trace, from, init, o, more) && Grown(s, init, o, more) && (less ==> more)
    ensures Growing(trace, from, init, o, less) && Grown(s, init, o, less)
  {
  }

  lemma WantsMatch(init: State, rooted: State, o: Owner, namespaces: seq<string>, wants: seq<BindingKey>)
    requires forall ns :: ns in namespaces <==> Targets(o, ns)
    requires forall b :: b in wants <==> b.namespace in namespaces && (b.grant.Base? || TargetsWithPdb(o, b.namespace))
    requires rooted.bindings == init.bindings
    ensures WantsExactly(o, wants)
    ensures RolesAgree(init, o) ==> forall b | b in wants :: !Misplaced(rooted, o, b)
  {
  }

  lemma OneWriteGrows(trace: seq<State>, from: nat, init: State, o: Owner, agreed: bool, s: State)
    requires Growing(trace, from, init, o, agreed) && Grown(s, init, o, agreed)
    ensures Growing(trace + [s], from, init, o, agreed)
  {
  }

  /** Writing a role that was missing, or that held only wanted rules, takes nothing away. */
  lemma RoleWriteGrows(s: State, init: State, o: Owner, agreed: bool, name: string, rules: seq<PolicyRule>)
    requires Grown(s, init, o, agreed)
    requires agreed && name in s.roles ==> forall r | r in s.roles[name] :: r in rules
    ensures Grown(s.(roles := s.roles[name := rules]), init, o, agreed)
  {
  }

  lemma AccountWriteGrows(trace: seq<State>, from: nat, init: State, o: Owner, agreed: bool, s: State, account: Account)
    requires Growing(trace, from, init, o, agreed) && Grown(s, init, o, agreed)
    ensures Grown(s.(accounts := s.accounts + {account}), init, o, agreed)
    ensures Growing(trace + [s.(accounts := s.accounts + {account})], from, init, o, agreed)
  {
  }

  /** Narrowing the shared role takes no binding's role away. */
  lemma ConvergeStaysGrounded(s: State, init: State, name: string, rules: seq<PolicyRule>)
    requires Grounded(s, init)
    ensures Grounded(s.(roles := s.roles[name := rules]), init)
  {
  }

  lemma AllBoundIsPlaced(init: State, rooted: State, bound: State, o: Owner, wants: seq<BindingKey>, raced: bool)
    requires WantsExactly(o, wants) && AllBound(rooted, bound, o, wants, raced) && rooted.bindings == init.bindings
    ensures AllPlaced(init, bound, o, raced)
  {
    forall b: BindingKey | Wanted(o, b.namespace, b.grant)
      ensures Placed(init, bound, o, b, raced)
    {
      assert b in wants && Placed(rooted, bound, o, b, raced);
    }
  }

  /** What stands at the end of a prune stood all along. */
  lemma ShrunkKeepsPlaced(init: State, small: State, big: State, o: Owner, raced: bool)
    requires Shrunk(small, big) && AllPlaced(init, small, o, raced)
    ensures AllPlaced(init, big, o, raced)
  {
  }

  /** The prune takes no wanted binding. */
  lemma PruneKeepsPlaced(init: State, bound: State, fin: State, o: Owner, wants: seq<BindingKey>, raced: bool)
    requires WantsExactly(o, wants) && AllPlaced(init, bound, o, raced)
    requires fin.bindings.Keys <= bound.bindings.Keys && forall k | k in fin.bindings :: fin.bindings[k] == bound.bindings[k]
    requires bound.bindings.Keys - fin.bindings.Keys <= Prunable(bound, o, wants)
    ensures AllPlaced(init, fin, o, raced)
  {
    forall b: BindingKey | Wanted(o, b.namespace, b.grant)
      ensures Placed(init, fin, o, b, raced)
    {
      assert b in wants;
      assert Placed(init, bound, o, b, raced);
      assert KeyOf(o, b.namespace, b.grant) !in Prunable(bound, o, wants);
    }
  }

  /** The prune only shrinks, so its states, and the one it starts from, lose nothing final and
      no wanted binding. */
  lemma PruneRecedes(trace: seq<State>, start: nat, mid: nat, init: State, converged: State, fin: State, o: Owner, raced: bool)
    requires start <= mid <= |trace|
    requires Grounded(converged, init) && Shrunk(fin, converged) && AllPlaced(init, fin, o, raced)
    requires forall i | start <= i < mid :: trace[i] == converged
    requires Shrinking(trace, mid, fin, converged)
    ensures Receding(trace, start, init, fin, o, raced)
  {
    forall i | start <= i < |trace|
      ensures Shrunk(fin, trace[i]) && Shrunk(trace[i], converged)
    {
    }
    forall i | start <= i < |trace|
      ensures AllPlaced(init, trace[i], o, raced)
    {
      ShrunkKeepsPlaced(init, fin, trace[i], o, raced);
    }
  }

  /** Every wanted binding that already stands with the right role is the object's own. Those
      with another role do not matter: they are replaced. */
  ghost predicate KeptAreOwn(st: State, o: Owner) {
    forall b: BindingKey | Wanted(o, b.namespace, b.grant) && InPlace(st, o, b) ::
      var kept := st.bindings[KeyOf(o, b.namespace, b.grant)];
      OwnedBy(kept, o) && kept.subject == AccountOf(o)
  }

  /** What the bindings are once the wanted ones are bound and the others pruned: exactly the
      wanted ones, if and only if those kept were the object's own, unless a create was raced. */
  lemma PrunedIsExact(init: State, rooted: State, bound: State, fin: State, o: Owner, wants: seq<BindingKey>, raced: bool)
    requires WantsExactly(o, wants)
    requires AllBound(rooted, bound, o, wants, raced) && rooted.bindings == init.bindings
    requires fin.bindings == bound.bindings - Prunable(bound, o, wants)
    ensures Granted(fin, o) && OnlyWanted(fin, o)
    ensures !raced ==> (Exact(fin, o) <==> KeptAreOwn(init, o))
  {
    forall ns, grant | Wanted(o, ns, grant)
      ensures var b, k := BindingKey(ns, grant), KeyOf(o, ns, grant);
              && k in fin.bindings && InPlace(fin, o, b) && fin.bindings[k] == bound.bindings[k]
              && (!raced ==> fin.bindings[k] == if InPlace(init, o, b) then init.bindings[k] else DesiredBinding(o, ns, grant))
    {
      var b := BindingKey(ns, grant);
      assert b in wants && Placed(rooted, bound, o, b, raced);
    }
    forall k | k in fin.bindings && OwnedBy(fin.bindings[k], o)
      ensures exists grant :: Wanted(o, k.namespace, grant) && k == KeyOf(o, k.namespace, grant)
    {
      var b :| b in wants && k == KeyOf(o, b.namespace, b.grant);
    }
    if !raced {
      forall b: BindingKey | Exact(fin, o) && Wanted(o, b.namespace, b.grant) && InPlace(init, o, b)
        ensures OwnedBy(init.bindings[KeyOf(o, b.namespace, b.grant)], o)
                && init.bindings[KeyOf(o, b.namespace, b.grant)].subject == AccountOf(o)
      {
        assert BindingKey(b.namespace, b.grant) == b;
      }
      forall ns, grant | KeptAreOwn(init, o) && Wanted(o, ns, grant)
        ensures OwnedBy(fin.bindings[KeyOf(o, ns, grant)], o) && fin.bindings[KeyOf(o, ns, grant)].subject == AccountOf(o)
      {
        assert InPlace(init, o, BindingKey(ns, grant)) ==> OwnedBy(init.bindings[KeyOf(o, ns, grant)], o);
      }
    }
  }

  /** Foreign bindings survive: only misplaced keys are rewritten and only owned ones pruned. */
  lemma ForeignSurvive(init: State, rooted: State, bound: State, fin: State, o: Owner, wants: seq<BindingKey>)
    requires WantsExactly(o, wants)
    requires Framed(bound, rooted, o, wants) && rooted.bindings == init.bindings
    requires fin.bindings.Keys <= bound.bindings.Keys && forall k | k in fin.bindings :: fin.bindings[k] == bound.bindings[k]
    requires bound.bindings.Keys - fin.bindings.Keys <= Prunable(bound, o, wants)
    ensures ForeignKept(init, fin, o)
  {
    forall k | k in init.bindings && !OwnedBy(init.bindings[k], o) && !MisplacedKey(init, o, k)
      ensures k in fin.bindings && fin.bindings[k] == init.bindings[k]
    {
      forall b | b in wants && k == KeyOf(o, b.namespace, b.grant)
        ensures InPlace(init, o, b)
      {
        assert Wanted(o, b.namespace, b.grant);
      }
      assert bound.bindings[k] == init.bindings[k];
      assert k !in Prunable(bound, o, wants);
    }
  }

  /** Bindings that are neither the object's own nor in the way of a wanted one are the same. */
  ghost predicate ForeignKept(init: State, fin: State, o: Owner) {
    forall k | k in init.bindings && !OwnedBy(init.bindings[k], o) && !MisplacedKey(init, o, k) ::
      k in fin.bindings && fin.bindings[k] == init.bindings[k]
  }

  lemma SettledNeedsNothing(st: State, o: Owner, wants: seq<BindingKey>)
    requires RbacSettled(st, o) && WantsExactly(o, wants)
    ensures forall b | b in wants :: InPlace(st, o, b)
    ensures Prunable(st, o, wants) == {}
  {
    forall k | k in st.bindings && OwnedBy(st.bindings[k], o)
      ensures k !in Prunable(st, o, wants)
    {
      var grant :| Wanted(o, k.namespace, grant) && k == KeyOf(o, k.namespace, grant);
      assert BindingKey(k.namespace, grant) in wants;
    }
  }

  /** The states one call of ReconcileRoleBinding goes through are granting ones. */
  lemma CallGrows(now: State, before: seq<State>, trace: seq<State>, init: State, o: Owner, b: BindingKey, from: nat, agreed: bool,
                  after: State)
    requires before <= trace && from <= |before| && Growing(before, from, init, o, agreed) && Grown(now, init, o, agreed)
    requires Wanted(o, b.namespace, b.grant) && RoleOf(b.grant) in now.roles && (agreed ==> !Misplaced(now, o, b))
    requires forall i | |before| <= i < |trace| ::
               BoundTo(now, trace[i], o, b, true) || (trace[i] == Without(now, o, b) && Misplaced(now, o, b))
    requires after == now || BoundTo(now, after, o, b, true) || (Misplaced(now, o, b) && after == Without(now, o, b))
    ensures Growing(trace, from, init, o, agreed) && Grown(after, init, o, agreed)
  {
    forall i | |before| <= i < |trace|
      ensures Grown(trace[i], init, o, agreed)
    {
      BindGrows(now, trace[i], init, o, b, agreed);
    }
    if after != now {
      BindGrows(now, after, init, o, b, agreed);
    }
  }

  class Store {
    const api: Api
    var st: State
    /** Every state the server has been in, one per write. */
    ghost var trace: seq<State>
    /** How often a create of a binding found its name taken by another reconcile. */
    ghost var races: nat

    constructor (api: Api, initial: State)
      requires forall k | k in initial.bindings :: ValidKey(k)
      ensures Valid() && st == initial && this.api == api && trace == [initial] && races == 0
    {
      this.api := api;
      st := initial;
      trace := [initial];
      races := 0;
    }

    ghost predicate Valid()
      reads this
    {
      && |trace| > 0 && trace[|trace| - 1] == st
      && forall k | k in st.bindings :: ValidKey(k)
    }

    method Write(next: State)
      requires Valid() && forall k | k in next.bindings :: ValidKey(k)
      modifies `st, `trace
      ensures Valid() && st == next && trace == old(trace) + [next]
    {
      st := next;
      trace := trace + [next];
    }

    /** Creates the role if it is missing; an existing one is rewritten only under `converge`.
        A write lost to a concurrent one counts as done by the other: a create that finds the
        name taken found the same rules there, since every reconcile writes these. */
    method ReconcileClusterRole(name: string, desired: seq<PolicyRule>, converge: bool) returns (ok: bool)
      requires Valid()
      modifies `st, `trace, api
      ensures Valid()
      ensures api.faults >= old(api.faults)
      ensures (st == old(st) && trace == old(trace))
              || (st == old(st).(roles := old(st).roles[name := desired]) && trace == old(trace) + [st]
                  && (name !in old(st).roles || (converge && old(st).roles[name] != desired)))
      ensures ok ==> name in st.roles
      ensures api.faults == old(api.faults) ==> ok && (converge || name !in old(st).roles ==> st.roles[name] == desired)
    {
      var got := api.Call();
      if !got.Done? {
        return false;
      }
      if name !in st.roles {
        var r := api.Call();
        if r.Applied() || r.Conflict? {
          Write(st.(roles := st.roles[name := desired]));
        }
        return r.Done? || r.Conflict?;
      }
      if converge && st.roles[name] != desired {
        var r := api.Call();
        if r.Applied() {
          Write(st.(roles := st.roles[name := desired]));
        }
        return r.Done? || r.Conflict?;
      }
      ok := true;
    }

    method CreateSaIfMissing(o: Owner) returns (ok: bool)
      requires Valid()
      modifies `st, `trace, api
      ensures Valid()
      ensures api.faults >= old(api.faults)
      ensures (st == old(st) && trace == old(trace))
              || (st == old(st).(accounts := old(st).accounts + {AccountOf(o)}) && trace == old(trace) + [st]
                  && AccountOf(o) !in old(st).accounts)
      ensures ok ==> AccountOf(o) in st.accounts
      ensures api.faults == old(api.faults) ==> ok
    {
      var got := api.Call();
      if !got.Done? {
        return false;
      }
      if AccountOf(o) in st.accounts {
        return true;
      }
      var r := api.Call();
      if r.Applied() {
        Write(st.(accounts := st.accounts + {AccountOf(o)}));
      }
      ok := r.Done?;
    }

    /** The server rejects a binding whose role is absent or whose name is malformed. A create
        that finds the name taken since the read counts as success, whoever made what is there:
        all that is known of it is the role, which its name fixes. */
    method CreateBinding(k: Key, b: Binding) returns (ok: bool)
      requires Valid() && k !in st.bindings
      modifies this, api
      ensures Valid()
      ensures api.faults >= old(api.faults) && races >= old(races) && (races != old(races) ==> api.faults != old(api.faults))
      ensures (st == old(st) && trace == old(trace) && !ok)
              || (k in st.bindings && st == old(st).(bindings := old(st).bindings[k := st.bindings[k]]) && trace == old(trace) + [st]
                  && st.bindings[k].roleRef == b.roleRef && b.roleRef in st.roles && (races == old(races) ==> st.bindings[k] == b))
      ensures api.faults == old(api.faults) && b.roleRef in st.roles && ValidKey(k) ==> ok
    {
      var r := api.Call();
      ok := false;
      if b.roleRef in st.roles && '/' !in k.namespace && '/' !in k.name {
        if r.Applied() {
          Write(st.(bindings := st.bindings[k := b]));
          ok := r.Done?;
        } else if r.Conflict? {
          var labels: map<string, string>, subject: Account, ownerReferenced: bool := *, *, *;
          Write(st.(bindings := st.bindings[k := Binding(labels, subject, b.roleRef, ownerReferenced)]));
          races := races + 1;
          ok := true;
        }
      }
    }

    method DeleteBinding(k: Key) returns (ok: bool)
      requires Valid() && k in st.bindings
      modifies `st, `trace, api
      ensures Valid()
      ensures api.faults >= old(api.faults)
      ensures (st == old(st) && trace == old(trace) && !ok)
              || (st == old(st).(bindings := old(st).bindings - {k}) && trace == old(trace) + [st])
      ensures api.faults == old(api.faults) <==> ok
    {
      var r := api.Call();
      if r.Applied() {
        Write(st.(bindings := st.bindings - {k}));
      }
      ok := r.Done?;
    }

    /** Creates the binding if it is missing and replaces it if it refers to another role;
        neither subject nor labels of an existing binding are looked at. */
    method ReconcileRoleBinding(o: Owner, want: BindingKey) returns (ok: bool)
      requires Valid()
      modifies this, api
      ensures Valid() && old(trace) <= trace
      ensures api.faults >= old(api.faults) && races >= old(races) && (races != old(races) ==> api.faults != old(api.faults))
      ensures ok ==> BoundTo(old(st), st, o, want, races != old(races))
      ensures st == old(st) || BoundTo(old(st), st, o, want, races != old(races))
              || (Misplaced(old(st), o, want) && st == Without(old(st), o, want))
      ensures InPlace(old(st), o, want) ==> st == old(st) && trace == old(trace)
      ensures forall i | |old(trace)| <= i < |trace| ::
                || (BoundTo(old(st), trace[i], o, want, true) && RoleOf(want.grant) in old(st).roles)
                || (trace[i] == Without(old(st), o, want) && Misplaced(old(st), o, want))
      ensures api.faults == old(api.faults) && RoleOf(want.grant) in old(st).roles && ValidKey(KeyOf(o, want.namespace, want.grant)) ==> ok
    {
      var k, b := KeyOf(o, want.namespace, want.grant), DesiredBinding(o, want.namespace, want.grant);
      var got := api.Call();
      if !got.Done? {
        return false;
      }
      if k !in st.bindings {
        ok := CreateBinding(k, b);
      } else if st.bindings[k].roleRef != b.roleRef {
        ok := DeleteBinding(k);
        if ok {
          ghost var without := st;
          ok := CreateBinding(k, b);
          assert k in st.bindings ==> without.bindings[k := st.bindings[k]] == old(st).bindings[k := st.bindings[k]];
        }
      } else {
        ok := true;
      }
    }

    /** Deletes the object's bindings outside `keep`, in whatever order they are listed. */
    method DeleteRBACExcept(o: Owner, keep: seq<BindingKey>) returns (ok: bool)
      requires Valid()
      modifies `st, `trace, api
      ensures Valid() && old(trace) <= trace
      ensures api.faults >= old(api.faults)
      ensures Shrunk(st, old(st)) && old(st).bindings.Keys - st.bindings.Keys <= Prunable(old(st), o, keep)
      ensures ok ==> st == old(st).(bindings := old(st).bindings - Prunable(old(st), o, keep))
      ensures Shrinking(trace, |old(trace)|, st, old(st))
      ensures Prunable(old(st), o, keep) == {} ==> st == old(st) && trace == old(trace)
      ensures api.faults == old(api.faults) <==> ok
    {
      hide PruneKey, BindingName, KeyOf, Prunable;
      var keepSet := set b | b in keep :: PruneKey(b.namespace, BindingName(o.kind, o.name, b.grant));
      var listed := api.Call();
      if !listed.Done? {
        return false;
      }
      ghost var before, trace0, prunable := st, trace, Prunable(st, o, keep);
      var items := set k | k in st.bindings && OwnedBy(st.bindings[k], o);
      PruneBegins(st, o, keep, keepSet, items);
      while items != {}
        invariant Valid() && trace0 <= trace && api.faults == old(api.faults)
        invariant forall k | k in items :: PruneKey(k.namespace, k.name) !in keepSet <==> k in prunable
        invariant PruneInv(st, before, prunable, items)
        invariant Shrinking(trace, |trace0|, st, before)
        invariant prunable == {} ==> trace == trace0
      {
        var item :| item in items;
        if PruneKey(item.namespace, item.name) !in keepSet {
          PruneDeletes(st, before, prunable, items, item);
          ShrinkStep(trace, |trace0|, st, before, st.(bindings := st.bindings - {item}));
          ok := DeleteBinding(item);
          if !ok {
            return;
          }
        } else {
          PruneKeeps(st, before, prunable, items, item);
        }
        items := items - {item};
      }
      ok := true;
      PruneEnds(st, before, prunable);
    }

    /** The binding loop of CreateRBACIfMissing. */
    method ReconcileRoleBindings(o: Owner, wants: seq<BindingKey>, ghost init: State, ghost agreed: bool) returns (ok: bool)
      requires Valid() && WantsExactly(o, wants)
      requires EXECUTOR_ROLE in st.roles && EXECUTOR_PDB_ROLE in st.roles
      requires Grown(st, init, o, agreed)
      requires agreed ==> forall b | b in wants :: !Misplaced(st, o, b)
      modifies this, api
      ensures Valid() && old(trace) <= trace
      ensures api.faults >= old(api.faults) && races >= old(races) && (races != old(races) ==> api.faults != old(api.faults))
      ensures Framed(st, old(st), o, wants)
      ensures ok ==> AllBound(old(st), st, o, wants, races != old(races))
      ensures races == old(races) ==> AddsFit(old(st), st, o)
      ensures Growing(trace, |old(trace)|, init, o, agreed) && Grown(st, init, o, agreed)
      ensures (forall b | b in wants :: InPlace(old(st), o, b)) ==> st == old(st) && trace == old(trace)
      ensures api.faults == old(api.faults) && (forall b | b in wants :: ValidKey(KeyOf(o, b.namespace, b.grant))) ==> ok
    {
      hide AddsFit, Grounded, Untaken, MisplacedKey, Extends;
      ok := true;
      ghost var before, trace0, races0 := st, trace, races;
      for i := 0 to |wants|
        invariant Valid() && trace0 <= trace && api.faults >= old(api.faults) && ok
        invariant races >= races0 && (races != races0 ==> api.faults != old(api.faults))
        invariant AllBound(before, st, o, wants[..i], races != races0)
        invariant st.roles == before.roles
        invariant agreed ==> forall b | b in wants :: !Misplaced(st, o, b)
        invariant Growing(trace, |trace0|, init, o, agreed) && Grown(st, init, o, agreed)
        invariant (forall b | b in wants :: InPlace(before, o, b)) ==> st == before && trace == trace0
      {
        ghost var now, earlier, trace1 := st, races != races0, trace;
        ok := ReconcileRoleBinding(o, wants[i]);
        CallGrows(now, trace1, trace, init, o, wants[i], |trace0|, agreed, st);
        if !ok {
          if races == races0 {
            AllBoundAddsFit(before, now, o, wants[..i]);
            BindAddsFit(now, st, o, wants[i]);
            AddsFitTwice(before, now, st, o);
          }
          FramedStep(before, now, st, o, wants, i);
          return;
        }
        BindOneMore(before, now, st, o, wants, i, earlier, races != races0);
        forall b | agreed && b in wants
          ensures !Misplaced(st, o, b)
        {
          BindKeepsPlaces(now, st, o, wants[i], b);
        }
      }
      assert wants[..|wants|] == wants;
      if races == races0 {
        AllBoundAddsFit(before, st, o, wants);
      }
    }

    /** One role step of the granting phase. */
    method EnsureRole(name: string, desired: seq<PolicyRule>, converge: bool, ghost init: State, ghost o: Owner,
                      ghost from: nat, ghost agreed: bool)
      returns (ok: bool)
      requires Valid() && from <= |trace|
      requires Growing(trace, from, init, o, agreed) && Grown(st, init, o, agreed)
      requires agreed && converge && name in st.roles ==> forall r | r in st.roles[name] :: r in desired
      modifies `st, `trace, api
      ensures Valid() && old(trace) <= trace
      ensures api.faults >= old(api.faults)
      ensures st == old(st) || st == old(st).(roles := old(st).roles[name := desired])
      ensures Growing(trace, from, init, o, agreed) && Grown(st, init, o, agreed)
      ensures name in old(st).roles && (!converge || old(st).roles[name] == desired) ==> st == old(st) && trace == old(trace)
      ensures ok ==> name in st.roles
      ensures api.faults == old(api.faults) ==> ok && (converge ==> st.roles[name] == desired)
    {
      if name !in st.roles || converge {
        RoleWriteGrows(st, init, o, agreed, name, desired);
        OneWriteGrows(trace, from, init, o, agreed, st.(roles := st.roles[name := desired]));
      }
      ok := ReconcileClusterRole(name, desired, converge);
    }

    /** The first three steps: the optional role converges, the shared one and the account
        must exist before anything is bound. */
    method EnsureRolesAndAccount(o: Owner) returns (ok: bool)
      requires Valid()
      modifies `st, `trace, api
      ensures Valid() && old(trace) <= trace
      ensures api.faults >= old(api.faults)
      ensures st.bindings == old(st).bindings
      ensures ok ==> EXECUTOR_ROLE in st.roles && EXECUTOR_PDB_ROLE in st.roles && AccountOf(o) in st.accounts
      ensures Growing(trace, |old(trace)|, old(st), o, PdbRoleWithin(old(st))) && Grown(st, old(st), o, PdbRoleWithin(old(st)))
      ensures RolesConverged(old(st)) && AccountOf(o) in old(st).accounts ==> st == old(st) && trace == old(trace)
      ensures api.faults == old(api.faults) ==> ok && st.roles[EXECUTOR_PDB_ROLE] == DesiredPdbRules()
    {
      ghost var init, within, from := st, PdbRoleWithin(st), |trace|;
      ok := EnsureRole(EXECUTOR_PDB_ROLE, DesiredPdbRules(), true, init, o, from, within);
      if ok {
        ok := EnsureRole(EXECUTOR_ROLE, DesiredRoleRules(), false, init, o, from, within);
      }
      if ok {
        AccountWriteGrows(trace, from, init, o, within, st, AccountOf(o));
        ok := CreateSaIfMissing(o);
      }
    }

    /** The last two steps: the shared role's rules are narrowed, then bindings are pruned. */
    method ConvergeAndPrune(o: Owner, wants: seq<BindingKey>, ghost init: State, ghost raced: bool) returns (ok: bool)
      requires Valid() && Grounded(st, init) && WantsExactly(o, wants) && AllPlaced(init, st, o, raced)
      modifies `st, `trace, api
      ensures Valid() && old(trace) <= trace
      ensures api.faults >= old(api.faults)
      ensures st.accounts == old(st).accounts && Shrunk(st, old(st).(roles := st.roles))
      ensures old(st).bindings.Keys - st.bindings.Keys <= Prunable(old(st), o, wants)
      ensures st.roles == old(st).roles || st.roles == old(st).roles[EXECUTOR_ROLE := DesiredRoleRules()]
      ensures ok ==> st.bindings == old(st).bindings - Prunable(old(st), o, wants)
      ensures Receding(trace, |old(trace)|, init, st, o, raced)
      ensures RolesConverged(old(st)) && Prunable(old(st), o, wants) == {} ==> st == old(st) && trace == old(trace)
      ensures api.faults == old(api.faults) ==> ok && EXECUTOR_ROLE in st.roles && st.roles[EXECUTOR_ROLE] == DesiredRoleRules()
    {
      ghost var before, start := st, |trace|;
      ConvergeStaysGrounded(st, init, EXECUTOR_ROLE, DesiredRoleRules());
      ok := ReconcileClusterRole(EXECUTOR_ROLE, DesiredRoleRules(), true);
      ghost var converged, mid := st, |trace|;
      assert Prunable(converged, o, wants) == Prunable(before, o, wants);
      if ok {
        ok := DeleteRBACExcept(o, wants);
      }
      PruneKeepsPlaced(init, before, st, o, wants, raced);
      PruneRecedes(trace, start, mid, init, converged, st, o, raced);
    }

    /** The binding loop and the two revoking steps, from a state where roles and account
        exist. `mid` is where the trace turns from granting to revoking. */
    method BindAndRevoke(o: Owner, wants: seq<BindingKey>, ghost init: State, ghost agreed: bool)
      returns (ok: bool, ghost mid: nat)
      requires Valid() && WantsExactly(o, wants)
      requires st.bindings == init.bindings && EXECUTOR_ROLE in st.roles && EXECUTOR_PDB_ROLE in st.roles
      requires Grown(st, init, o, agreed) && (agreed ==> forall b | b in wants :: !Misplaced(st, o, b))
      modifies this, api
      ensures Valid() && old(trace) <= trace
      ensures api.faults >= old(api.faults) && races >= old(races) && (races != old(races) ==> api.faults != old(api.faults))
      ensures st.accounts == old(st).accounts
      ensures ok ==> Granted(st, o) && OnlyWanted(st, o)
      ensures ok && races == old(races) ==> (Exact(st, o) <==> KeptAreOwn(init, o))
      ensures ForeignKept(init, st, o) && (races == old(races) ==> AddsFit(old(st), st, o))
      ensures |old(trace)| <= mid <= |trace|
      ensures Growing(trace[..mid], |old(trace)|, init, o, agreed) && Receding(trace, mid, init, st, o, races != old(races))
      ensures RbacSettled(old(st), o) ==> st == old(st) && trace == old(trace)
      ensures api.faults == old(api.faults) && (forall b | b in wants :: ValidKey(KeyOf(o, b.namespace, b.grant))) ==> ok
      ensures ok && api.faults == old(api.faults) ==>
                && EXECUTOR_ROLE in st.roles && st.roles[EXECUTOR_ROLE] == DesiredRoleRules()
                && EXECUTOR_PDB_ROLE in st.roles && st.roles[EXECUTOR_PDB_ROLE] == old(st).roles[EXECUTOR_PDB_ROLE]
    {
      hide Growing, AllPlaced, Exact, KeptAreOwn, Granted, OnlyWanted, ForeignKept, Untaken, AddsFit, Placed, Extends;
      ghost var rooted, races0 := st, races;
      if RbacSettled(rooted, o) {
        SettledNeedsNothing(rooted, o, wants);
      }
      ok := ReconcileRoleBindings(o, wants, init, agreed);
      ghost var bound, raced := st, races != races0;
      mid := |trace|;
      assert trace[..mid] == trace;
      if !ok {
        ForeignSurvive(init, rooted, bound, bound, o, wants);
        return;
      }
      ghost var granting := trace;
      AllBoundIsPlaced(init, rooted, bound, o, wants, raced);
      ok := ConvergeAndPrune(o, wants, init, raced);
      ShrunkAddsFit(bound, st, o);
      if !raced {
        AddsFitTwice(rooted, bound, st, o);
      }
      assert trace[..mid] == granting;
      ForeignSurvive(init, rooted, bound, st, o, wants);
      if ok {
        PrunedIsExact(init, rooted, bound, st, o, wants, raced);
      }
    }

    /** Reconciles the object's RBAC. Bindings and missing roles are written first, rules are
        narrowed and bindings pruned last. */
    method CreateRBACIfMissing(o: Owner) returns (ok: bool)
      requires Valid()
      modifies this, api
      ensures Valid() && old(trace) <= trace
      ensures api.faults >= old(api.faults) && races >= old(races) && (races != old(races) ==> api.faults != old(api.faults))
      // on success every namespace the entries target is bound, and the object's bindings are exactly the
      // wanted ones if and only if those it found in place were its own, unless another reconcile's create came first
      ensures ok ==> Granted(st, o) && OnlyWanted(st, o) && AccountOf(o) in st.accounts
      ensures ok && races == old(races) ==> (Exact(st, o) <==> KeptAreOwn(old(st), o))
      ensures api.faults == old(api.faults) && ValidNames(o) ==> ok
      ensures ok && api.faults == old(api.faults) ==> RolesConverged(st)
      // every state passed through, also if the pass stops there
      ensures GrantsBeforeRevoking(trace, |old(trace)|, old(st), st, o, RolesAgree(old(st), o) && PdbRoleWithin(old(st)),
                                   races != old(races))
      ensures ForeignKept(old(st), st, o)
      // owner references only in the own namespace
      ensures races == old(races) ==> AddsFit(old(st), st, o)
      // a second pass writes nothing
      ensures RbacSettled(old(st), o) ==> st == old(st) && trace == old(trace)
    {
      hide Growing, Grown, Exact, KeptAreOwn, Granted, OnlyWanted, GrantsBeforeRevoking, AddsFit;
      ghost var init, from := st, |trace|;
      ghost var agreed := RolesAgree(st, o) && PdbRoleWithin(st);
      ok := EnsureRolesAndAccount(o);
      WeakenGrowing(trace, from, st, init, o, PdbRoleWithin(init), agreed);
      SameAddsFit(init, st, o);
      ghost var rooted := st;
      if !ok {
        assert trace[..|trace|] == trace;
        TwoPhases(trace, from, |trace|, init, st, o, agreed, false);
        return;
      }
      ghost var trace1 := trace;
      var namespaces := BuildNamespaces(o);
      var desired := DesiredBindings(o, namespaces);
      WantsMatch(init, st, o, namespaces, desired);
      ghost var mid: nat;
      ok, mid := BindAndRevoke(o, desired, init, agreed);
      if races == old(races) {
        AddsFitTwice(init, rooted, st, o);
      }
      assert trace1 <= trace[..mid];
      JoinGrowing(trace1, trace[..mid], from, init, o, agreed);
      TwoPhases(trace, from, mid, init, st, o, agreed, races != old(races));
    }
  }
}
