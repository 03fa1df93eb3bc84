# The runner operator, verified

A Dafny model of the GitLab runner operator: the controller that registers runners on GitLab for
`Runner` and `MultiRunner` objects, keeps their tokens in a config Secret, runs a manager Deployment
and gives it RBAC in the namespaces it builds in. Three stores change independently (GitLab, the
object's status, the cluster), any call may fail or take effect and still report an error, and a
pass may end anywhere. The model follows the code through that, and the lemmas state what the code
and its comments promise over whole runs.

`dafny verify dfyconfig.toml` checks everything.

## How the model is laid out

- `Common`: an API call's reply is done, failed, lost (it took effect, the caller sees an error) or
  a conflict. A crash is a failed or lost call followed by a failed status write. Every server
  counts its faults, so "without faults" is "the counter did not move".
- `ManagedRunner`, `OrphanAccounting`, `UnitAccounting`: the life of one managed unit as a pure step,
  the accounting of runners it can leave on GitLab over every run, and the proof that each unit of
  an object, in its spec or not, lives such a run, whatever becomes of the object.
- `RunnerObject`, `EnsureRunners`, `TokenRefresh`, `TokenRounds`, `Resync`: the object in memory and in
  the API server, the loop over its units, when the controller looks at tokens again, and how long
  these have to live then, for any rounds on time and for the answers of whole passes.
- `Names`, `Executor`, `Rbac`, `RbacStore`, `AllowList`, `RbacInterleaving`: roles, bindings and
  permissions, their reconciliation call by call, the namespace allow-list, and any number of
  objects reconciling at once.
- `ConfigSecret`, `GenerateConfig`, `ManagerDeployment`, `Convergence`: the Secret, the rendered
  config and its version, the Deployment against a cluster that may rewrite it, and how many
  fault-free passes it all takes to settle.
- `Decimal`, `Drain`, `Finalize`, `Shutdown`: the persisted attempt counter, stopping the manager,
  letting the object go, and whole runs from the deletion mark on.
- `Reconcile`, `Settling`: one whole pass, composed from the methods of the other modules, and runs
  of such passes. A pass is tied to `Convergence` (without faults it is the function iterated there)
  and to `OrphanAccounting` (faulty or not, it is a run of what is counted there).
- `Worklist`: the struct closure of the release watcher, independent of the rest.

Code that changes state is methods on classes; what those methods do is tied to functions, and the
lemmas are about these functions.

## What the proofs turned up

- A unit can orphan runners. A pass that stores a new id and stops before the Secret is written
  leaves a stale token; the next replacement deletes by that token, GitLab answers that there is
  nothing to delete, and the newer runner stays. `OrphanAccounting.OrphansNeverOutnumberFaults`
  bounds the orphans by the number of such faults, and `OrphanAccounting.BoundIsMet` shows that no
  lower bound holds. "No duplicate" holds of a unit exactly when its stores start out clean: GitLab
  holds no runner of it, or the status one alone and the Secret its token
  (`OrphanAccounting.NoDuplicatesIff`). A failed delete-by-id without a token, which the code ignores on purpose, needs
  no fault of its own: the missing token was one already.
- The resync lead of twelve hours and the floor of one minute never show for a token that passed
  the 24-hour test (`TokenRefresh.AnHourIff`): with 13 hours or more left the interval is one hour.
  The comment on the refresh threshold speaks of a refresh in place; the code recreates the runner,
  and the model follows the code.
- "The object never wedges" holds from every counter value but the largest 64-bit one, from which
  the increment wraps around and the attempts start at the smallest
  (`Finalize.FinalizationNeverWedges`, `Finalize.BoundIsSmall`).
- A binding is compared by its roleRef alone. Objects stay out of each other's bindings, however
  their calls interleave, exactly when no binding is contested at the start: when none stands, with
  another role, where one object may want a binding, and is labelled with another object's UID or
  stands where another object may want one too (`RbacInterleaving.IsolationIff`).
  `RbacInterleaving.OtherRolesBreakIsolation` is such a state.
- After a successful RBAC pass the object's bindings are exactly the desired ones if and only if
  those it found in place with the right role were its own (`RbacStore.PrunedIsExact`). That is said
  of passes in which no create found its name taken: that reply counts as success, the name fixes the
  role, but whose label and account the other binding carries is open.
- Permissions are granted before others are revoked in every state a pass goes through, also when it
  stops there (`RbacStore.Store.CreateRBACIfMissing`), with two exceptions. A role reference cannot be
  changed in place, so a wanted binding that refers to another role is deleted and created again; and
  rules the optional role has beyond the desired ones go first.
- A cluster that drops one of the two annotations keeps a Deployment that is not up to date from
  settling for ever exactly when it stores the pod shape as sent (`ManagerDeployment.NeverSettlesIff`).

- A CA source that resolves to nothing is still named in the config: every entry points to a CA file,
  and the Secret mounted there holds one exactly when the bundle is not empty
  (`GenerateConfig.ConfigIsServed`).
- A binding carries an owner reference exactly in the object's own namespace. So when the finalizer is
  gone, every binding that is left goes with the object (`Shutdown.NothingOutlivesTheObject`).

## Model

| member | source | states |
|---|---|---|
| `OrphanAccounting.OrphansNeverOutnumberFaults` | internal/controller/shared.go:242-364 | over every run of passes, Secret edits, revocations and outside deletions, the live runners the status does not name never outnumber the faults |
| `OrphanAccounting.NoFaultsNoDuplicates` | internal/controller/shared.go:242-364 | from nothing and without faults at most one runner is live, it is the one in status, and the Secret holds its token |
| `OrphanAccounting.NoDuplicatesIff` | internal/controller/shared.go:242-364 | every fault-free run ends without a runner the status does not name if and only if the stores start out clean: no runner, or the status one alone with its token in the Secret |
| `OrphanAccounting.RunIsPaidFor` | internal/controller/runner_controller.go:104-129 | from any state, a run exposes at most as many further runners as it has faults, passes that stop anywhere included |
| `OrphanAccounting.PassIsPaidFor` | internal/controller/shared.go:313-364 | one pass exposes one more runner only if its new id reached no status write or its token not the Secret |
| `OrphanAccounting.ConfirmedUnlessUnregistered` | internal/controller/shared.go:313-342 | a replacement of a runner whose token is at hand is created only after GitLab confirmed the old one's deletion |
| `OrphanAccounting.NothingLeftAfterDeregistration` | internal/controller/shared.go:406-446 | after a confirmed deregistration at most as many runners are left as there were faults, none in a fault-free life |
| `OrphanAccounting.BoundIsMet` | internal/controller/shared.go:347-364 | for every n there is a run with n faults and n orphans, each fault a pass that stops between status and Secret |
| `UnitAccounting.PassIsAccountedFor` | internal/controller/shared.go:187-221 | however a pass over any number of units ends, each unit, managed in the spec or not, saw a run of the accounting: removals by other units' turns around at most one pass of its own, or the loss of its token |
| `UnitAccounting.NotManaged` | api/v1beta2/multirunner_types.go:304-322 | a unit left out of the spec or switched to a provided token keeps its registration and gets no runner |
| `UnitAccounting.TurnsAround` | internal/controller/shared.go:187-221 | the turns of other units only remove runners of a unit, never add or change one |
| `UnitAccounting.StoredAround` | internal/controller/shared.go:347-364 | whichever immediate status writes land, a unit's stored registration is the one its own turn made or the old one, and the former if its own write landed |
| `UnitAccounting.EventIsPaidFor` | internal/controller/shared.go:187-364 | a pass over whatever entries the spec has, a Secret edit, a revocation, a removal or a registration by anyone else exposes at most as many of a unit's runners as it has faults for the unit |
| `UnitAccounting.LifeIsPaidFor` | internal/controller/shared.go:187-364 | over the whole life of an object on a GitLab that others register runners on too, spec edits included, the live runners ever created for a unit that its status does not name never outnumber the unit's faults |
| `UnitAccounting.NewUnitIsPaidFor` | internal/controller/shared.go:187-364 | for a unit that starts with no runner, no faults mean no orphans over the whole life of the object |
| `ManagedRunner.IssuedTokenIsCurrent` | internal/controller/shared.go:242-305 | a returned token belongs to the runner in status, with the wanted options: either just created and live, or recovered, accepted and at least a day from expiry |
| `ManagedRunner.CreateOnlyAfterDelete` | internal/controller/shared.go:313-342 | at most one runner is created, last, and only once the old one's deletion was confirmed or there was none, or no token, to delete by |
| `ManagedRunner.SteadyUnitIsLeftAlone` | internal/controller/shared.go:242-305 | a unit only has its token verified iff it is registered with the wanted options, a token at hand and a day to expiry |
| `ManagedRunner.RunnersChangeForAReason` | internal/controller/shared.go:242-305 | a step deletes or creates only if the unit has no runner, other options are wanted, less than a day is left, the token is not at hand, or GitLab rejected it; a token is checked iff none of the first four holds and a client can be built; without a client nothing is called |
| `ManagedRunner.FailedCheckChangesNothing` | internal/controller/shared.go:286-293 | a token check without an answer fails the step and leaves registration, stored status and GitLab as they were |
| `ManagedRunner.ReplacementCalls` | internal/controller/shared.go:313-342 | a replaced runner is deleted by token iff that is at hand, then by id iff it is not or that failed, and the new one is created last, unless both deletes failed |
| `ManagedRunner.IssuedIff` | internal/controller/shared.go:242-364 | a step succeeds iff its new runner was created and the status write confirmed, or its token was checked and accepted; the status is stored iff that write took effect |
| `ManagedRunner.RemovalFallsBack` | internal/controller/shared.go:406-446 | a removal calls delete by token iff a token and a client are at hand, then delete by id iff the token path was missing or failed and that client is usable, and succeeds iff one of the two was confirmed |
| `EnsureRunners.PersistRunner` | internal/controller/shared.go:347-364 | records the new runner in memory, writes the status at once, and returns the token only if that write was confirmed |
| `EnsureRunners.RecreateManagedRunner` | internal/controller/shared.go:313-342 | makes exactly the calls of the pure step: delete by token, fall back to delete by id, then create |
| `EnsureRunners.EnsureManagedRunner` | internal/controller/shared.go:242-305 | does to GitLab, memory and stored status what the pure step says, for every branch and failure |
| `EnsureRunners.EnsureRunners` | internal/controller/shared.go:187-221 | takes the turns in order, stops at the first failure with later entries untouched, and on success returns a token for exactly the entry names and the resync of the least expiry |
| `EnsureRunners.TurnsAreIndependent` | internal/controller/shared.go:187-221 | n entries end as n single units would, each started from its own registration |
| `EnsureRunners.OthersKeepTheirRegistration` | api/v1beta2/multirunner_types.go:324-341 | the turns of other entries leave an entry's registration alone |
| `RunnerObject.StoreThenLookup` | api/v1beta2/multirunner_types.go:324-341 | what is stored for an entry is read back, a missing expiry included, and other entries are unchanged |
| `RunnerObject.RunnerObject.RegistrationConfig` | api/v1beta2/multirunner_types.go:304-322 | one record per current entry, with the registration status holds under its name |
| `RunnerObject.RunnerObject.StoreRunnerRegistration` | api/v1beta2/runner_types.go:199-203 | the named unit reads back what was stored, every other entry what it read before, and the rest of the status stays |
| `RunnerObject.NewEntryIsUnregistered` | api/v1beta2/multirunner_types.go:304-322 | an entry nothing was ever stored for asks GitLab for a runner and does nothing else |
| `TokenRefresh.IntervalIsBounded` | internal/controller/shared.go:226-238 | the interval is zero iff no managed expiry exists, else between a minute and an hour |
| `TokenRefresh.AnHourIff` | internal/controller/shared.go:226-238 | the interval is the full hour iff 13 hours are left, so always for a token that passed the 24-hour test |
| `TokenRefresh.LookIsClosest` | internal/controller/shared.go:226-238 | between a minute and an hour, the interval comes as close as possible to twelve hours before expiry |
| `TokenRounds.RoundLeavesLongTokens` | internal/controller/shared.go:194-238 | between two passes on time a managed token loses at most an hour and the duration of the first pass |
| `TokenRounds.TokensNeverRunLow` | internal/controller/shared.go:194-238 | with tokens issued for a day or more and every pass on time, a unit looked at in the pass before has 23 hours less the duration of a pass to live when the next one starts, less two durations at its own turn, while units come and go |
| `TokenRounds.ChurnNeverStops` | internal/controller/shared.go:274-277 | if a unit's tokens never last to a day after the next pass, every pass from its first new runner on creates another, as long as it is in the spec |
| `Resync.ReadyAnswers` | internal/controller/runner_controller.go:220-225 | a ready object waits for ever iff no managed registration expires; otherwise it comes back after the interval of the first one to expire, a minute to an hour |
| `Resync.UnreadyAnswers` | internal/controller/runner_controller.go:142-225 | an object that is not ready waits for ever iff it is refused, and comes back at once iff RBAC was completed and a write of Secret or Deployment succeeded |
| `Resync.AnswersAreOnTime` | internal/controller/runner_controller.go:222-225 | a pass started within the answer of one that served all units is on time for every token |
| `Resync.AnswersKeepTokensAlive` | internal/controller/shared.go:194-238 | so with tokens issued for a day or more, a token served in one pass has 23 hours less the duration of a pass to live when the next one starts, less two durations at its own turn |
| `Names.ChildNamesInjective` | api/v1beta2/multirunner_types.go:343-345 | no two objects, of either kind, share a child name |
| `Names.BindingNamesInjective` | internal/crud/crud.go:175-217 | kind, object name and grant are determined by the binding name, over all strings |
| `Names.PruneKeysInjective` | internal/crud/crud.go:498-512 | the text namespace/name identifies a stored binding |
| `Names.ManagerPodHasOneObject` | internal/controller/shared.go:502-509 | no pod with one ReplicaSet owner is the manager pod of two objects, a Runner and a MultiRunner of one name included |
| `Names.OwnerPrefixAloneIsAmbiguous` | internal/controller/shared.go:502-509 | the owner-name prefix alone does not tell "a" from "a-b", so the label selector is needed |
| `Names.ManagerPodIsRecognised` | internal/controller/shared.go:502-509 | a pod with the selector label and a ReplicaSet of the manager Deployment as owner is a manager pod |
| `Rbac.ExactRights` | internal/crud/crud.go:338-374 | under exact bindings the base rights hold in a namespace iff an entry targets it, and the disruption-budget right iff such an entry enables it |
| `Rbac.TargetsAreNamed` | api/v1beta2/executor.go:8-13 | an entry runs jobs in the namespace it names or else in the own one, and gets the optional grant iff its flag is set to true |
| `Rbac.OptInIsSeparate` | internal/crud/crud.go:338-361 | the optional grant is the disruption-budget rule alone, and the base grant does not hold it |
| `Rbac.LabelsNameOneOwner` | internal/crud/crud.go:376-385 | no binding carries the labels of two objects |
| `Rbac.AddsFitStaysFit` | internal/crud/crud.go:406-440 | if owner references are as they should be, a pass without a raced create keeps them so |
| `RbacStore.PrunedIsExact` | internal/crud/crud.go:446-520 | once the wanted bindings are bound and the others pruned, all and only the wanted ones are the object's; unless a create was raced they are exactly the desired ones if and only if those kept were its own |
| `RbacStore.BuildNamespaces` | internal/crud/crud.go:316-332 | exactly the namespaces the entries target, the object's own if there is no entry |
| `RbacStore.PdbNamespaces` | internal/crud/crud.go:366-374 | exactly the namespaces some entry targets with the disruption budget enabled |
| `RbacStore.DesiredBindings` | internal/crud/crud.go:175-200 | the base binding in each given namespace and the optional one exactly where an entry wants it |
| `RbacStore.AllBindingsIn` | internal/crud/crud.go:205-217 | every binding an object can own in the namespace, wanted or not, and no other |
| `RbacStore.KeepSetIsExact` | internal/crud/crud.go:498-512 | comparing by text prunes exactly the object's own bindings that are not to be kept |
| `RbacStore.BindOneMore` | internal/crud/crud.go:446-482 | with each turn of the loop one more wanted binding stands with the right role, as it was if it did before and else as desired unless a create was raced; the ones before stay and nothing else changes |
| `RbacStore.Store.ReconcileClusterRole` | internal/crud/crud.go:270-312 | creates a missing role with the desired rules, converges an existing one only if asked, and treats a lost create or update as done |
| `RbacStore.Store.ReconcileRoleBinding` | internal/crud/crud.go:446-482 | on success the binding has the wanted role and is the desired one if it was not in place, unless a create found the name taken, by whoever; on failure at most one that had another role is gone |
| `RbacStore.Store.DeleteRBACExcept` | internal/crud/crud.go:498-520 | on success removes exactly the object's own bindings outside the given list, on failure some of them, and never another's |
| `RbacStore.Store.BindAndRevoke` | internal/crud/crud.go:128-141 | the bindings come first, rule convergence and prune after them: the states passed through divide into granting ones, which take nothing but misplaced bindings, and revoking ones, in which every wanted binding stands |
| `RbacStore.Store.CreateRBACIfMissing` | internal/crud/crud.go:117-141 | success grants all and only what is wanted, exactly iff the bindings kept were the object's own unless a create was raced. In every state passed through, whether the pass succeeds or stops: each new binding's role exists; no binding is gone but misplaced ones (`MisplacedKey`: another role where one is wanted) before every wanted one stands; and if no wanted binding had another role (`RolesAgree`) and the optional role's rules were within the desired ones (`PdbRoleWithin`), the account keeps all its initial permissions, or all final ones and every wanted binding. Whatever it adds is the object's own, for its own account and owner-referenced iff it lies in the own namespace, unless a create was raced. Others' bindings that are not misplaced are kept; a settled state is not written to; without faults it succeeds if the names are valid (`ValidNames`) |
| `AllowList.EnforceAllowedBuildNamespaces` | internal/controller/shared.go:156-180 | refuses iff some entry targets a namespace not allowed; a refusal without error leaves exactly the earlier own bindings still wanted in allowed namespaces, for any order of namespaces |
| `AllowList.RefusedPassIsConfined` | internal/controller/shared.go:156-180 | after a refused pass every own binding is in the own namespace or on the list |
| `AllowList.FinishedPassIsConfined` | api/v1beta2/executor.go:19-29 | so it is after a pass that completed RBAC |
| `AllowList.RefusedIff` | api/v1beta2/executor.go:19-29 | an object is refused iff an entry names a namespace that is neither its own nor on the list and the list has no star |
| `RbacInterleaving.StepStaysQuiet` | internal/crud/crud.go:446-520 | whichever call of whichever object comes next, an uncontested system stays so, threads replace only what nobody else may hold and prune only their own, and no other object's binding is taken |
| `RbacInterleaving.IsolationIff` | internal/crud/crud.go:379-385 | in every interleaving of any number of objects no call deletes or rewrites a binding labelled with another's UID, if and only if no binding is contested at the start |
| `RbacInterleaving.ContestedIsLost` | internal/crud/crud.go:469-480 | each contested binding is lost in a run of at most five calls |
| `RbacInterleaving.NamesThatFixRolesAreSafe` | internal/crud/crud.go:175-217 | where every binding's name fixes its role nothing is contested |
| `RbacInterleaving.AloneIsSafe` | internal/crud/crud.go:469-480 | an object alone is in nobody's way, whatever roles its bindings refer to |
| `RbacInterleaving.AloneIsBind` | internal/crud/crud.go:446-482 | the calls interleaved here, made by an object alone, come to what `RbacStore` says of one reconciliation of a binding |
| `RbacInterleaving.OtherRolesBreakIsolation` | internal/crud/crud.go:469-480 | a binding of an older version, with a role of its own, is contested by an object of the same name in another namespace |
| `ConfigSecret.KeysApart` | internal/types/const.go:21-37 | config, CA and token keys never overlap, whatever an entry is called |
| `ConfigSecret.RoundTrip` | internal/crud/crud.go:77-109 | reading back a rendered Secret gives exactly the tokens and the CA that went in |
| `ConfigSecret.RenderingIsUnique` | internal/validate/validate.go:192-203 | there is one rendering, so tokens of dropped entries do not survive it |
| `ConfigSecret.SecretStore.ExistingConfigTokens` | internal/crud/crud.go:77-94 | returns exactly the tokens under prefixed keys, none for a missing Secret, an error if it cannot be read |
| `ConfigSecret.SecretStore.Render` | internal/validate/validate.go:192-203 | fills the data to exactly the config, the CA if there is one and one key per token |
| `ConfigSecret.SecretStore.Secret` | internal/validate/validate.go:205-247 | goes on only if the Secret was found as rendered, requeues after a confirmed write, and leaves the old or the rendered content on error |
| `GenerateConfig.SingleRunnerConfig` | internal/generate/config.go:29-82 | renders the entry with its namespace made explicit, and writes that namespace through the alias into the spec |
| `GenerateConfig.MultiRunnerConfig` | internal/generate/config.go:85-146 | renders every entry from a copy, in order, and leaves the spec alone |
| `GenerateConfig.AliasWriteIsInvisible` | internal/generate/config.go:29-82 | the write through the alias changes neither what RBAC wants nor what is rendered next time |
| `GenerateConfig.RenderedNamespacesAreBound` | internal/crud/crud.go:316-332 | every namespace the rendered config names carries the base binding, and the optional one where the config enables it |
| `GenerateConfig.VersionFollowsContent` | internal/generate/config.go:29-82 | with a collision-free digest, a change of the text or of the CA bundle alone changes the version |
| `GenerateConfig.ConfigIsServed` | internal/generate/config.go:85-146 | each rendered entry has its own name, settings and namespace, the token the Secret keeps for it, and a CA file iff a source is configured, which is mounted iff the bundle is not empty |
| `ManagerDeployment.InjectedContainersAreIgnored` | internal/validate/pod_shape.go:33-56 | containers injected around the runner do not change the shape compared |
| `ManagerDeployment.ManagerPodShape` | internal/validate/pod_shape.go:33-56 | the loop finds the first container called runner, or leaves its fields empty; `ShapeIsWhatRuns` says what that means |
| `ManagerDeployment.ShapeIsWhatRuns` | internal/validate/pod_shape.go:33-56 | the shape equals a wanted one iff the pod is placed so and its first container called runner has that image and those settings, or all of that is empty and there is no such container |
| `ManagerDeployment.SettledRuns` | internal/validate/validate.go:143-185 | a call that settles leaves a pod that runs the wanted image and settings, or what the cluster made of it |
| `ManagerDeployment.RunnerIsRolledOut` | internal/validate/validate.go:143-185 | where the cluster keeps the runner container, each call leaves the wanted image, settings and placement, whatever was stored |
| `ManagerDeployment.SettlesByTheSecondCall` | internal/validate/validate.go:123-185 | from any stored Deployment, against any cluster that keeps the annotations, the second call and every later one settles and leaves what the first stored |
| `ManagerDeployment.NeverSettlesIff` | internal/validate/validate.go:143-185 | from any stored Deployment, calls keep requeueing for ever iff there is something to write and the cluster drops an annotation and keeps the pod shape |
| `ManagerDeployment.SettledIsCurrent` | internal/validate/validate.go:143-185 | settled means the stored annotations are the wanted ones, and a kept shape difference is the cluster's own |
| `ManagerDeployment.DeploymentStore.Deployment` | internal/validate/validate.go:115-186 | without faults does exactly one step of that iteration; on error leaves the old Deployment or what the cluster made of the sent one |
| `Convergence.ReadyWithinFourPasses` | internal/controller/runner_controller.go:131-225 | from any Secret, Deployment and registrations, four fault-free passes make the object ready and no later pass changes anything |
| `Convergence.ThreePassesAreNotEnough` | internal/controller/runner_controller.go:131-225 | an object that starts out with nothing is not ready after three passes |
| `Convergence.ConfigSecretServes` | internal/validate/validate.go:192-203 | the Secret's layout and its reading back meet what the convergence proof assumes of them |
| `Convergence.SomeWorldIsCalm` | internal/controller/shared.go:242-305 | there are worlds that meet the hypotheses of convergence, whatever the units and whatever was registered before |
| `Convergence.LaterPassesOnlyVerify` | internal/controller/shared.go:280-305 | from the third pass on GitLab is asked for nothing but to verify tokens |
| `Convergence.FirstPassProvisions` | internal/validate/validate.go:236-248 | one full pass registers every unit and leaves the Secret as rendered, whatever it found |
| `Convergence.ProvisionedPass` | internal/controller/runner_controller.go:142-225 | from then on a pass keeps registrations and Secret and only moves the Deployment |
| `Decimal.ParseDigitsOfDigits` | internal/controller/shared.go:558-574 | the digits of a number read back as the number |
| `Decimal.AtoiOfItoa` | internal/controller/shared.go:558-574 | every 64-bit counter value, negative ones included, survives writing and reading |
| `Decimal.OnlyNumbersAreRead` | internal/controller/shared.go:558-565 | nothing but an optional sign and digits within 64 bits is read as a number |
| `Drain.DrainManager` | internal/controller/shared.go:451-498 | reports drained iff no manager pod is left, or each is terminating and past the latest deadline plus a minute; no other pod is touched; a pass without error leaves every manager pod gone or terminating |
| `Drain.StopPods` | internal/controller/shared.go:462-482 | the counters tell whether a manager pod is left and whether one is not terminating yet, and hold the latest deadline of the others |
| `Drain.DrainIsBounded` | internal/controller/shared.go:451-498 | once all are terminating and none is new, any later call past the latest deadline plus a minute reports drained |
| `Drain.ManagerPodIsWaitedFor` | internal/controller/shared.go:451-498 | until then every pod of the manager ReplicaSet is waited for: while it is not terminating, and for a minute past its deadline |
| `Finalize.FinalizationNeverWedges` | internal/controller/shared.go:528-574 | whatever GitLab answers, the finalizer is gone after the stated number of passes from the persisted counter, and not one earlier if all deregistrations fail |
| `Finalize.BoundIsSmall` | internal/controller/shared.go:558-574 | that number is at most max(1, 5 - c) iff the counter is not the largest 64-bit value |
| `Finalize.CounterStartsAtZero` | internal/controller/shared.go:558-565 | a counter that was never written, or that is no number, is 0 |
| `Finalize.FreshObjectIsTriedFiveTimes` | internal/controller/shared.go:528-574 | an object whose counter was never written is let go on the fifth failed attempt, not before |
| `Finalize.OtherAnnotationsStay` | internal/controller/shared.go:567-574 | counting touches no other annotation |
| `Finalize.DeleteManagedRunner` | internal/controller/shared.go:406-446 | tries the runner's own token first, falls back to the id, and succeeds iff one of the two was confirmed |
| `Finalize.RemoveManagedRunners` | internal/controller/shared.go:374-398 | tries every managed unit with an id, goes on after a failure, and succeeds iff the Secret was read and GitLab confirms, for each of them, one of the two ways to remove it |
| `Finalize.RemovableIff` | internal/controller/shared.go:406-446 | a removal succeeds iff the token is confirmed deleted or the id is, a token at hand without a client stopping it |
| `Finalize.EveryUnitIsTried` | internal/controller/shared.go:374-398 | each managed unit with an id has its token called if that is at hand, and its id if it is not or that failed |
| `Finalize.CallsAreForUnits` | internal/controller/shared.go:374-398 | nothing else is called: units with a provided token are not touched |
| `Finalize.ConfirmedAreGone` | internal/controller/shared.go:374-446 | if every removal was confirmed, no unit whose token is its runner's own has that runner left on GitLab |
| `Finalize.LetGo` | internal/controller/shared.go:528-556 | the finalizer goes only with no binding left outside the own namespace and after success or the fifth attempt; bindings of the own namespace and of others are kept; an object without the finalizer is gone through again |
| `Finalize.FinalizeDeletion` | internal/controller/shared.go:515-556 | one deletion pass only takes away; nothing is deregistered, revoked or let go before the drain reports done; then every unit is tried, and the counter moves as above |
| `Shutdown.NothingFollowsTheMark` | internal/controller/runner_controller.go:99-102 | however long the object's life goes on after the deletion mark, no runner is created, no binding granted, no Secret or Deployment written |
| `Shutdown.NothingBeforeTheDrain` | internal/controller/shared.go:515-527 | over any run of deletion passes no runner is deregistered, no binding revoked and no attempt counted until a pass finds the manager drained |
| `Shutdown.FinalizerGoesInOrder` | internal/controller/shared.go:528-556 | if the finalizer is gone, some pass let the object go in good order: drained, no binding outside the own namespace, every unit's removal confirmed or the attempts used up |
| `Shutdown.ShutdownIsFinalizeRun` | internal/controller/shared.go:528-574 | drained passes whose updates succeed move the persisted counter as the run of `FinalizationNeverWedges` |
| `Shutdown.ShutdownEnds` | internal/controller/shared.go:528-574 | so the finalizer is gone within the stated number of them, whatever GitLab answers |
| `Shutdown.ConfirmedPassIsLast` | internal/controller/shared.go:528-556 | a drained pass is the last one if its API calls are answered and GitLab confirms, for every managed unit, one of the two ways to remove it |
| `Shutdown.ShutdownCompletes` | internal/controller/shared.go:515-574 | from the first deletion pass on: with all API calls answered, no new manager pods, and later passes a minute past the deadlines of the pods the first one left, every later pass is drained and the finalizer is gone one pass after the stated number, whatever GitLab answers |
| `Shutdown.LaterPassesAreDrained` | internal/controller/shared.go:451-498 | under those conditions a later pass finds no manager pod but those the first one left, and finds them drained |
| `Shutdown.NothingOutlivesTheObject` | internal/controller/shared.go:543-556 | when the finalizer is gone, every binding the object has left is in its own namespace and owner-referenced, if its bindings were fit at the start of the shutdown |
| `Shutdown.DeregistrationOnlyRemoves` | internal/controller/shared.go:374-398 | to the accounting, deregistration is a removal of runners |
| `Reconcile.WriteStatus` | internal/controller/runner_controller.go:104-129 | the deferred write: tried again after a conflict, up to five times, and after nothing else; the stored status is the old or the new one, and the new one without faults |
| `Reconcile.Authorize` | internal/controller/runner_controller.go:142-193 | the first half of a pass: allow-list, CA, units, RBAC, each stopping the pass before the next; a refused object gets nothing and keeps of its bindings exactly those still wanted in allowed namespaces; whenever RBAC completed or the object was refused no binding is outside the allow-list; others' bindings are kept |
| `Settling.RbacSettles` | internal/crud/crud.go:117-141 | after one pass that completed RBAC without faults, from whatever bindings, no later pass over the same spec changes RBAC, completed or not, as long as none is refused |
| `Reconcile.ServedTokenIsCurrent` | internal/controller/shared.go:187-305 | each token of a served pass is what its source holds, or that of the runner in status, registered with the wanted options and just created, or accepted and good for a day |
| `Reconcile.Apply` | internal/controller/runner_controller.go:194-225 | the second half: Secret, then Deployment, as `Convergence` has them unless a call fails; ready only if Secret, Deployment and bindings are what ready means |
| `Reconcile.Provision` | internal/controller/runner_controller.go:142-225 | the pass in order, with its answer: never if refused or ready with nothing to expire, after the resync interval if ready, at once after a write, after the timeout otherwise; ready only after every unit was served and RBAC completed; neither Secret nor Deployment is written before that; the status tells the version rendered or an error |
| `Reconcile.AddFinalizer` | internal/controller/runner_controller.go:131-140 | the first pass sets the finalizer and touches nothing else; it answers at once iff the update was confirmed |
| `Reconcile.SettledIsDeployed` | internal/controller/runner_controller.go:206-221 | a settled Deployment carries the config version of the status, for clusters that keep annotations, and runs the wanted image and settings, for clusters that keep the runner container |
| `Reconcile.FaultFreePassConverges` | internal/controller/runner_controller.go:142-225 | a fault-free pass that nothing stops completes RBAC and is the pass `Convergence` iterates |
| `Reconcile.ReportedIsPassed` | internal/controller/runner_controller.go:104-129 | whether or not the last status write lands, the stored status is ready only if the one in memory is, or if it is still the old one, and each unit is accounted for |
| `Settling.CalmPassesMakeReady` | internal/controller/runner_controller.go:142-225 | from any registrations, Secret, Deployment and bindings, three calm passes over an object that holds its finalizer make it ready, down to the tokens and bindings, and no later one changes readiness, registrations, Secret, Deployment or RBAC |
| `Settling.BindingsStayFit` | internal/crud/crud.go:406-440 | over a life of passes without raced creates, spec edits included, an object that began without bindings has each one owner-referenced iff it lies in the own namespace |
| `Reconcile.Reconcile` | internal/controller/multirunner_controller.go:69-205 | a marked object is shut down and nothing else, coming back until that ended; ready is sound, in memory and as stored, down to the tokens and the container that runs; nothing is rendered or deployed before RBAC is completed; a fault-free pass is the one that converges; any pass is accounted for, unit by unit |
| `Worklist.Closure` | hack/runner-release-watch.sh:146-154 | for every finite reference graph the queue loop stops, although the queue may hold duplicates, with exactly the declared structs reachable from a Kubernetes root |
| `Worklist.KubeKeys` | hack/runner-release-watch.sh:156-161 | the output lines are exactly the toml keys of the reachable structs |

## Left out

- Reads are taken as fresh. A stale cached read acts like the fault that made it stale.
- GitLab, the API server and the clock are parameters: each call's reply, the ids and tokens GitLab issues (nonzero, nonempty, not in use) and the time of each unit's check are inputs. 403 or 404 on delete by token and 404 on delete by id count as confirmed deletions, as the client reports them.
- TOML, JSON, the digests and PEM are function parameters; the digest is assumed collision-free only in the lemma that says so. An executor config is its namespace and disruption-budget flag, a pod shape a few opaque values, an annotation that is missing reads as empty.
- Semantic equality of nil and empty lists in pod specs and role rules is plain equality on the reduced values.
- The Ready condition's message and reason, the observed generation and most error texts are not modelled; `status.ready` and the fact of an error are.
- How token and CA sources resolve, the floors on `concurrent`, default accessors, CRD validation, watches, leader election, flags, logging: not part of this model.
- Entries removed from a MultiRunner or switched to a provided token are not deregistered by the code. They count as a fault of the unit in the accounting (its token is dropped), and deregistration is stated for the managed entries still in the spec.
- The rules of the shared base role while they converge, as other runners see them: the code documents that gap, and the permission promise is about the object's own account with no other object converging the role.
- Two objects of one name in different namespaces that share a build namespace want the same binding name there. Exactness then fails for the one that came second, as its condition says.
- RbacInterleaving.IsolationIff: interleaves the calls about bindings; roles and accounts, which are shared and only converge to one value, stay out of it. Any namespace counts as one an object may want, since its spec may change.
- Convergence.ReadyWithinFourPasses: RBAC is not in the state it iterates; `Settling.CalmPassesMakeReady` joins the two.
- TokenRounds.TokensNeverRunLow: speaks of units that were in the spec in the pass before; one that comes back has whatever its old registration left it.
- RbacStore.Store.CreateRBACIfMissing: between its own calls the state is its own, but for creates that find a name taken; what other objects do meanwhile to the bindings is the subject of `RbacInterleaving`.
- Drain.DrainManager: a pod list is a map by name, visited in any order; what the cluster does with a deleted pod (gone at once, or terminating by some deadline) is arbitrary.
- The work queue's back-off: what a pass answers is modelled, how much later than asked the next one starts is a hypothesis of the lemmas that need it.
- Whether the object still exists when a pass starts: a pass that finds none does nothing.
- The awk program's line patterns are not modelled: the declarations, references and keys they find are the worklist's input.
- The scripts that file issues, parse versions and query registries, the Terraform and the manifests: easy members or not logic.
