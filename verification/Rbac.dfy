/** Roles, bindings and the reconciliation that grants before it revokes. */
module Rbac {
  import opened Common
  import opened Names
  import opened Executor

  datatype PolicyRule = PolicyRule(apiGroup: string, resources: seq<string>, verbs: seq<string>)

  const EXECUTOR_ROLE := "gitlab-runner-operator-executor"
  const EXECUTOR_PDB_ROLE := "gitlab-runner-operator-executor-pdb"

  const MANAGED_BY_LABEL := "app.kubernetes.io/managed-by"
  const OWNER_NAMESPACE_LABEL := "gitlab.k8s.alekc.dev/owner-namespace"
  const OWNER_UID_LABEL := "gitlab.k8s.alekc.dev/owner-uid"

  function DesiredRoleRules(): seq<PolicyRule> {
    [ PolicyRule("", ["pods"], ["get", "list", "watch", "create", "delete"]),
      PolicyRule("", ["pods/exec", "pods/attach"], ["get", "create", "patch", "delete"]),
      PolicyRule("", ["pods/log"], ["get", "list"]),
      PolicyRule("", ["secrets"], ["get", "create", "update", "delete"]),
      PolicyRule("", ["configmaps"], ["get", "create", "delete"]),
      PolicyRule("", ["services"], ["get", "create"]),
      PolicyRule("", ["serviceaccounts"], ["get"]),
      PolicyRule("", ["events"], ["list", "watch"]) ]
  }

  function DesiredPdbRules(): seq<PolicyRule> {
    [PolicyRule("policy", ["poddisruptionbudgets"], ["get", "create"])]
  }

  function RoleOf(grant: Grant): string {
    match grant
    case Base => EXECUTOR_ROLE
    case Pdb => EXECUTOR_PDB_ROLE
  }

  /** The part of a Runner or MultiRunner that RBAC depends on. */
  datatype Owner = Owner(kind: Kind, namespace: string, name: string, uid: string, executors: seq<KubernetesConfig>)

  datatype Key = Key(namespace: string, name: string)
  datatype Account = Account(namespace: string, name: string)
  datatype Binding = Binding(labels: map<string, string>, subject: Account, roleRef: string, ownerReferenced: bool)

  datatype State = State(roles: map<string, seq<PolicyRule>>, accounts: set<Account>, bindings: map<Key, Binding>)

  // ----- what an object should have -----

  function RbacLabels(o: Owner): map<string, string> {
    map[MANAGED_BY_LABEL := "gitlab-runner-operator", OWNER_NAMESPACE_LABEL := o.namespace, OWNER_UID_LABEL := o.uid]
  }

  /** A label selector matches when every one of its labels is there. */
  predicate Matches(selector: map<string, string>, labels: map<string, string>) {
    forall l | l in selector :: l in labels && labels[l] == selector[l]
  }

  predicate OwnedBy(b: Binding, o: Owner) {
    Matches(RbacLabels(o), b.labels)
  }

  function AccountOf(o: Owner): Account {
    Account(o.namespace, ChildName(o.kind, o.name))
  }

  function KeyOf(o: Owner, namespace: string, grant: Grant): Key {
    Key(namespace, BindingName(o.kind, o.name, grant))
  }

  function DesiredBinding(o: Owner, namespace: string, grant: Grant): Binding {
    Binding(RbacLabels(o), AccountOf(o), RoleOf(grant), namespace == o.namespace)
  }

  /** Some executor entry runs jobs in `ns`; without entries the own namespace counts. */
  predicate Targets(o: Owner, ns: string) {
    || (o.executors == [] && ns == o.namespace)
    || exists i :: 0 <= i < |o.executors| && EffectiveNamespace(o.executors[i], o.namespace) == ns
  }

  /** Some entry that runs jobs in `ns` enables the disruption budget. */
  predicate TargetsWithPdb(o: Owner, ns: string) {
    exists i :: 0 <= i < |o.executors| && EffectiveNamespace(o.executors[i], o.namespace) == ns && WantsPdb(o.executors[i])
  }

  predicate Wanted(o: Owner, ns: string, grant: Grant) {
    match grant
    case Base => Targets(o, ns)
    case Pdb => TargetsWithPdb(o, ns)
  }

  /** One binding the operator manages: where it lives and what it grants. */
  datatype BindingKey = BindingKey(namespace: string, grant: Grant)

  /** Every binding the spec asks for is there with the right role. */
  ghost predicate Granted(st: State, o: Owner) {
    forall ns, grant | Wanted(o, ns, grant) ::
      KeyOf(o, ns, grant) in st.bindings && st.bindings[KeyOf(o, ns, grant)].roleRef == RoleOf(grant)
  }

  /** The object has no binding the spec does not ask for. */
  ghost predicate OnlyWanted(st: State, o: Owner) {
    forall k | k in st.bindings && OwnedBy(st.bindings[k], o) ::
      exists grant :: Wanted(o, k.namespace, grant) && k == KeyOf(o, k.namespace, grant)
  }

  /** The object's bindings are exactly those the spec asks for. */
  ghost predicate Exact(st: State, o: Owner) {
    && OnlyWanted(st, o)
    && (forall ns, grant | Wanted(o, ns, grant) ::
          && KeyOf(o, ns, grant) in st.bindings
          && OwnedBy(st.bindings[KeyOf(o, ns, grant)], o)
          && st.bindings[KeyOf(o, ns, grant)].subject == AccountOf(o)
          && st.bindings[KeyOf(o, ns, grant)].roleRef == RoleOf(grant))
  }

  /** No binding where the object wants one refers to another role. */
  ghost predicate RolesAgree(st: State, o: Owner) {
    forall ns, grant | Wanted(o, ns, grant) && KeyOf(o, ns, grant) in st.bindings ::
      st.bindings[KeyOf(o, ns, grant)].roleRef == RoleOf(grant)
  }

  /** In terms of the spec: an entry runs jobs in the namespace it names, or in the object's own
      if it names none. */
  lemma TargetsAreNamed(o: Owner, ns: string)
    requires o.executors != []
    ensures Targets(o, ns) <==>
            exists cfg :: cfg in o.executors && ((cfg.namespace != "" && cfg.namespace == ns) || (cfg.namespace == "" && o.namespace == ns))
    ensures TargetsWithPdb(o, ns) <==>
            exists cfg :: cfg in o.executors && cfg.podDisruptionBudget == Some(true)
                          && ((cfg.namespace != "" && cfg.namespace == ns) || (cfg.namespace == "" && o.namespace == ns))
  {
  }

  /** Labels tell objects apart: no binding belongs to two. */
  lemma LabelsNameOneOwner(b: Binding, o1: Owner, o2: Owner)
    requires OwnedBy(b, o1) && OwnedBy(b, o2)
    ensures o1.uid == o2.uid && o1.namespace == o2.namespace
  {
    assert OWNER_UID_LABEL in RbacLabels(o1) && OWNER_NAMESPACE_LABEL in RbacLabels(o1);
    assert OWNER_UID_LABEL in RbacLabels(o2) && OWNER_NAMESPACE_LABEL in RbacLabels(o2);
  }

  // ----- owner references -----

  /** Kubernetes collects a binding with its object if it carries an owner reference, and must not
      be given one across namespaces. */
  predicate Fit(b: Binding, k: Key, o: Owner) {
    b.ownerReferenced <==> k.namespace == o.namespace
  }

  ghost predicate OwnAreFit(st: State, o: Owner) {
    forall k | k in st.bindings && OwnedBy(st.bindings[k], o) :: Fit(st.bindings[k], k, o)
  }

  /** What is not as it was in `before` is a fit binding of the object's own account. */
  ghost predicate AddsFit(before: State, st: State, o: Owner) {
    forall k | k in st.bindings ::
      || (k in before.bindings && st.bindings[k] == before.bindings[k])
      || (OwnedBy(st.bindings[k], o) && st.bindings[k].subject == AccountOf(o) && Fit(st.bindings[k], k, o))
  }

  lemma AddsFitStaysFit(before: State, st: State, o: Owner)
    requires AddsFit(before, st, o) && OwnAreFit(before, o)
    ensures OwnAreFit(st, o)
  {
  }

  lemma AddsFitTwice(a: State, b: State, c: State, o: Owner)
    requires AddsFit(a, b, o) && AddsFit(b, c, o)
    ensures AddsFit(a, c, o)
  {
  }

  // ----- permissions -----

  /** `account` may use `rule` in `ns`. A binding to a missing role grants nothing. */
  ghost predicate Permits(st: State, account: Account, ns: string, rule: PolicyRule) {
    exists k :: k in st.bindings && k.namespace == ns && st.bindings[k].subject == account
                && st.bindings[k].roleRef in st.roles && rule in st.roles[st.bindings[k].roleRef]
  }

  /** Everything permitted in `before` is permitted in `after`. */
  ghost predicate Keeps(before: State, after: State, account: Account) {
    forall ns, rule :: Permits(before, account, ns, rule) ==> Permits(after, account, ns, rule)
  }

  /** Bindings and rules of `small` are all there in `big`. */
  predicate Extends(small: State, big: State) {
    && (forall k | k in small.bindings ::
          k in big.bindings && big.bindings[k].subject == small.bindings[k].subject && big.bindings[k].roleRef == small.bindings[k].roleRef)
    && (forall name | name in small.roles :: name in big.roles && forall r | r in small.roles[name] :: r in big.roles[name])
  }

  /** Opting in hands out nothing else, and nothing hands it out but opting in. */
  lemma OptInIsSeparate(rule: PolicyRule)
    ensures !(rule in DesiredRoleRules() && rule in DesiredPdbRules())
    ensures rule in DesiredPdbRules() <==> rule == PolicyRule("policy", ["poddisruptionbudgets"], ["get", "create"])
  {
  }

  /** In an exact state with converged roles, the base rights hold through the object's own
      bindings in a namespace iff some entry targets it, and the disruption-budget right iff
      such an entry also enables the flag. */
  lemma ExactRights(st: State, o: Owner, ns: string, rule: PolicyRule)
    requires Exact(st, o)
    requires EXECUTOR_ROLE in st.roles && st.roles[EXECUTOR_ROLE] == DesiredRoleRules()
    requires EXECUTOR_PDB_ROLE in st.roles && st.roles[EXECUTOR_PDB_ROLE] == DesiredPdbRules()
    ensures
      var own := st.(bindings := map k | k in st.bindings && OwnedBy(st.bindings[k], o) :: st.bindings[k]);
      Permits(own, AccountOf(o), ns, rule) <==>
      (rule in DesiredRoleRules() && Targets(o, ns)) || (rule in DesiredPdbRules() && TargetsWithPdb(o, ns))
  {
    var own := st.(bindings := map k | k in st.bindings && OwnedBy(st.bindings[k], o) :: st.bindings[k]);
    if Permits(own, AccountOf(o), ns, rule) {
      var k :| k in own.bindings && k.namespace == ns && own.bindings[k].subject == AccountOf(o)
               && own.bindings[k].roleRef in own.roles && rule in own.roles[own.bindings[k].roleRef];
      var grant :| Wanted(o, k.namespace, grant) && k == KeyOf(o, k.namespace, grant);
      assert own.bindings[k].roleRef == RoleOf(grant);
    }
    if rule in DesiredRoleRules() && Targets(o, ns) {
      assert Wanted(o, ns, Base) && KeyOf(o, ns, Base) in own.bindings;
    }
    if rule in DesiredPdbRules() && TargetsWithPdb(o, ns) {
      assert Wanted(o, ns, Pdb) && KeyOf(o, ns, Pdb) in own.bindings;
    }
  }
}
