/** The end of an object's life: drain, deregister, clean up, let go. */
module Finalize {
  import opened Common
  import opened Rbac
  import opened RbacStore
  import opened ManagedRunner
  import opened RunnerObject
  import opened EnsureRunners
  import opened ConfigSecret
  import opened ManagerDeployment
  import opened Drain
  import opened Decimal

  const MAX_DELETE_ATTEMPTS := 5
  const DELETE_ATTEMPTS_ANNOTATION := "gitlab.k8s.alekc.dev/delete-attempts"

  // ----- the persisted attempt counter -----

  /** The counter in the annotations; anything that is not a number counts as 0. */
  function DeleteAttempts(annotations: map<string, string>): int {
    if DELETE_ATTEMPTS_ANNOTATION in annotations then Atoi(annotations[DELETE_ATTEMPTS_ANNOTATION]).GetOr(0) else 0
  }

  function SetDeleteAttempts(annotations: map<string, string>, n: int): map<string, string> {
    annotations[DELETE_ATTEMPTS_ANNOTATION := Itoa(n)]
  }

  lemma AttemptsAreInRange(annotations: map<string, string>)
    ensures MIN_INT <= DeleteAttempts(annotations) <= MAX_INT
  {
  }

  /** What one drained pass does to the stored object when updates and RBAC calls succeed: it
      lets go if deregistration succeeded or the attempts are used up, else it counts. An object
      whose finalizer is gone while another's still holds it is gone through again. */
  datatype Metadata = Metadata(finalizer: bool, annotations: map<string, string>)

  function FinalizePass(m: Metadata, deregistered: bool): Metadata {
    if deregistered then m.(finalizer := false)
    else
      var attempts := Increment(DeleteAttempts(m.annotations));
      Metadata(m.finalizer && attempts < MAX_DELETE_ATTEMPTS, SetDeleteAttempts(m.annotations, attempts))
  }

  function FinalizeRun(m: Metadata, answers: seq<bool>): Metadata
    decreases |answers|
  {
    if answers == [] then m else FinalizeRun(FinalizePass(m, answers[0]), answers[1..])
  }

  /** A counter that was never written, or that is no number, starts at 0. */
  lemma CounterStartsAtZero(annotations: map<string, string>)
    requires DELETE_ATTEMPTS_ANNOTATION in annotations ==> !IsNumberText(annotations[DELETE_ATTEMPTS_ANNOTATION])
    ensures DeleteAttempts(annotations) == 0
  {
    if DELETE_ATTEMPTS_ANNOTATION in annotations && Atoi(annotations[DELETE_ATTEMPTS_ANNOTATION]).Some? {
      OnlyNumbersAreRead(annotations[DELETE_ATTEMPTS_ANNOTATION]);
    }
  }

  /** How many failing passes it takes from counter value c. Only the largest 64-bit value
      makes the counter wrap to the smallest. */
  function PassesNeeded(c: int): int {
    if c == MAX_INT then 1 + MAX_DELETE_ATTEMPTS - MIN_INT
    else if c >= MAX_DELETE_ATTEMPTS - 1 then 1
    else MAX_DELETE_ATTEMPTS - c
  }

  /** No other annotation of the object is touched. */
  lemma {:induction false} OtherAnnotationsStay(m: Metadata, answers: seq<bool>, key: string)
    requires key != DELETE_ATTEMPTS_ANNOTATION
    ensures var after := FinalizeRun(m, answers).annotations;
            (key in after <==> key in m.annotations) && (key in after ==> after[key] == m.annotations[key])
    decreases |answers|
  {
    if answers != [] {
      OtherAnnotationsStay(FinalizePass(m, answers[0]), answers[1..], key);
    }
  }

  lemma {:induction false} GoneStaysGone(m: Metadata, answers: seq<bool>)
    requires !m.finalizer
    ensures !FinalizeRun(m, answers).finalizer
    decreases |answers|
  {
    if answers != [] {
      GoneStaysGone(FinalizePass(m, answers[0]), answers[1..]);
    }
  }

  /** Whatever GitLab answers, the finalizer is gone after `PassesNeeded` passes; and if every
      deregistration fails, not one pass earlier. */
  lemma {:induction false} FinalizationNeverWedges(m: Metadata, answers: seq<bool>)
    requires m.finalizer
    ensures |answers| >= PassesNeeded(DeleteAttempts(m.annotations)) ==> !FinalizeRun(m, answers).finalizer
    ensures (forall i | 0 <= i < |answers| :: !answers[i]) ==>
              (FinalizeRun(m, answers).finalizer <==> |answers| < PassesNeeded(DeleteAttempts(m.annotations)))
    decreases |answers|
  {
    var c := DeleteAttempts(m.annotations);
    AttemptsAreInRange(m.annotations);
    if answers != [] {
      var next, rest := FinalizePass(m, answers[0]), answers[1..];
      if next.finalizer {
        AtoiOfItoa(Increment(c));
        assert DeleteAttempts(next.annotations) == Increment(c);
        FinalizationNeverWedges(next, rest);
        assert PassesNeeded(c) == 1 + PassesNeeded(Increment(c));
      } else {
        GoneStaysGone(next, rest);
      }
    }
  }

  /** So an object whose counter was never written is let go on the fifth failed attempt, not before. */
  lemma FreshObjectIsTriedFiveTimes(m: Metadata, answers: seq<bool>)
    requires m.finalizer && DELETE_ATTEMPTS_ANNOTATION !in m.annotations && forall i | 0 <= i < |answers| :: !answers[i]
    ensures FinalizeRun(m, answers).finalizer <==> |answers| < 5
  {
    CounterStartsAtZero(m.annotations);
    FinalizationNeverWedges(m, answers);
  }

  /** From any counter but the largest, that is at most max(1, 5 - c) passes. */
  lemma BoundIsSmall(m: Metadata)
    ensures DeleteAttempts(m.annotations) != MAX_INT <==>
            PassesNeeded(DeleteAttempts(m.annotations)) <= (if DeleteAttempts(m.annotations) < 4 then 5 - DeleteAttempts(m.annotations) else 1)
  {
  }

  // ----- deregistration -----

  /** GitLab's answers for one unit, and whether an access token for delete-by-id resolves. */
  datatype RemovalInput = RemovalInput(answers: Answers, byIdClient: bool)

  type Removals = string -> RemovalInput

  function RemovalOf(info: RegInfo, tokens: map<string, string>, inputs: Removals): (seq<Call>, bool) {
    var input := inputs(info.name);
    Deregister(info.reg.runnerId, if info.name in tokens then tokens[info.name] else "", input.answers, input.byIdClient)
  }

  /** A managed unit that has a runner to remove. */
  predicate ToRemove(info: RegInfo) {
    info.createOptions.Some? && info.reg.runnerId != 0
  }

  method DeleteManagedRunner(gitlab: GitlabClient, runnerId: int, token: string, a: Answers, byIdClient: bool)
    returns (ok: bool)
    modifies gitlab
    ensures var r := Deregister(runnerId, token, a, byIdClient);
            ok == r.1 && gitlab.calls == old(gitlab.calls) + r.0 && gitlab.live == Effects(old(gitlab.live), r.0, a)
  {
    ghost var live0 := gitlab.live;
    EffectsSnoc(live0, [], DeleteByToken(token), a);
    EffectsSnoc(live0, [DeleteByToken(token)], DeleteById(runnerId), a);
    EffectsSnoc(live0, [], DeleteById(runnerId), a);
    assert [] + [DeleteByToken(token)] == [DeleteByToken(token)] && [] + [DeleteById(runnerId)] == [DeleteById(runnerId)];
    if token != "" {
      if !a.client {
        return false;
      }
      ok := gitlab.DeleteRunner(token, a);
      if ok {
        return;
      }
    }
    if !byIdClient {
      return false;
    }
    ok := gitlab.DeleteRunnerByID(runnerId, a);
  }

  /** GitLab confirms one of the two ways to remove the unit's runner: by the token, if it is at
      hand, or by the id. A token at hand without a client to use it stops the removal. */
  predicate Removable(info: RegInfo, tokens: map<string, string>, inputs: Removals) {
    var token, input := if info.name in tokens then tokens[info.name] else "", inputs(info.name);
    && (token == "" || input.answers.client)
    && ((token != "" && input.answers.deleteByToken.Done?) || (input.byIdClient && input.answers.deleteById.Done?))
  }

  lemma RemovableIff(info: RegInfo, tokens: map<string, string>, inputs: Removals)
    ensures RemovalOf(info, tokens, inputs).1 <==> Removable(info, tokens, inputs)
  {
    var token, input := if info.name in tokens then tokens[info.name] else "", inputs(info.name);
    RemovalFallsBack(info.reg.runnerId, token, input.answers, input.byIdClient);
  }

  /** Every managed unit of `regs` that has a runner can be removed. */
  predicate Confirmed(regs: seq<RegInfo>, tokens: map<string, string>, inputs: Removals) {
    forall info | info in regs && info.createOptions.Some? && info.reg.runnerId != 0 :: Removable(info, tokens, inputs)
  }

  predicate AllDeletes(calls: seq<Call>) {
    forall i | 0 <= i < |calls| :: calls[i].DeleteByToken? || calls[i].DeleteById?
  }

  /** The calls that remove the runners of `regs`, in order. */
  function CallsOf(regs: seq<RegInfo>, tokens: map<string, string>, inputs: Removals): seq<Call> {
    if regs == [] then []
    else
      var n := |regs| - 1;
      CallsOf(regs[..n], tokens, inputs) + (if ToRemove(regs[n]) then RemovalOf(regs[n], tokens, inputs).0 else [])
  }

  /** What those calls leave on GitLab. */
  function LeftLive(regs: seq<RegInfo>, live: Runners, tokens: map<string, string>, inputs: Removals): Runners {
    if regs == [] then live
    else
      var n := |regs| - 1;
      var before := LeftLive(regs[..n], live, tokens, inputs);
      if ToRemove(regs[n]) then Effects(before, RemovalOf(regs[n], tokens, inputs).0, inputs(regs[n].name).answers) else before
  }

  /** Removals only take runners away. */
  lemma {:induction false} RemovalsOnlyRemove(live: Runners, calls: seq<Call>, a: Answers)
    requires AllDeletes(calls)
    ensures forall id | id in Effects(live, calls, a) :: id in live && Effects(live, calls, a)[id] == live[id]
    decreases |calls|
  {
    if calls != [] {
      RemovalsOnlyRemove(live, calls[..|calls| - 1], a);
    }
  }

  /** A confirmed removal takes the runner off GitLab, if the token at hand is its own. */
  lemma OneRemoval(info: RegInfo, live: Runners, tokens: map<string, string>, inputs: Removals)
    requires RemovalOf(info, tokens, inputs).1
    requires info.name in tokens && tokens[info.name] != "" && info.reg.runnerId in live ==> live[info.reg.runnerId] == tokens[info.name]
    ensures info.reg.runnerId !in Effects(live, RemovalOf(info, tokens, inputs).0, inputs(info.name).answers)
  {
  }

  /** If every removal was confirmed, none of the units has its runner left, given that each
      token in the Secret is its runner's own. */
  lemma {:induction false} ConfirmedAreGone(regs: seq<RegInfo>, live: Runners, tokens: map<string, string>,
                                            inputs: Removals, info: RegInfo)
    requires Confirmed(regs, tokens, inputs) && info in regs && info.createOptions.Some? && info.reg.runnerId != 0
    requires info.name in tokens && tokens[info.name] != "" && info.reg.runnerId in live ==> live[info.reg.runnerId] == tokens[info.name]
    ensures info.reg.runnerId !in LeftLive(regs, live, tokens, inputs)
    decreases |regs|
  {
    var n := |regs| - 1;
    var init, last := regs[..n], regs[n];
    var before := LeftLive(init, live, tokens, inputs);
    LeftWasLive(init, live, tokens, inputs);
    if last == info {
      RemovableIff(info, tokens, inputs);
      OneRemoval(info, before, tokens, inputs);
    } else {
      assert regs == init + [last];
      ConfirmedAreGone(init, live, tokens, inputs, info);
      if ToRemove(last) {
        RemovalsOnlyRemove(before, RemovalOf(last, tokens, inputs).0, inputs(last.name).answers);
      }
    }
  }

  lemma {:induction false} LeftWasLive(regs: seq<RegInfo>, live: Runners, tokens: map<string, string>, inputs: Removals)
    ensures var left := LeftLive(regs, live, tokens, inputs); forall id | id in left :: id in live && left[id] == live[id]
    decreases |regs|
  {
    if regs != [] {
      var n := |regs| - 1;
      LeftWasLive(regs[..n], live, tokens, inputs);
      if ToRemove(regs[n]) {
        RemovalsOnlyRemove(LeftLive(regs[..n], live, tokens, inputs), RemovalOf(regs[n], tokens, inputs).0, inputs(regs[n].name).answers);
      }
    }
  }

  /** Only runners of managed units are removed: by a token the Secret keeps for the unit, or by
      the id in its status. */
  lemma {:induction false} CallsAreForUnits(regs: seq<RegInfo>, tokens: map<string, string>, inputs: Removals, call: Call)
    requires call in CallsOf(regs, tokens, inputs)
    ensures exists info :: info in regs && info.createOptions.Some? && info.reg.runnerId != 0
                           && ((info.name in tokens && tokens[info.name] != "" && call == DeleteByToken(tokens[info.name]))
                               || call == DeleteById(info.reg.runnerId))
    decreases |regs|
  {
    var n := |regs| - 1;
    if call in CallsOf(regs[..n], tokens, inputs) {
      CallsAreForUnits(regs[..n], tokens, inputs, call);
    } else {
      assert regs[n] in regs;
      var info, input := regs[n], inputs(regs[n].name);
      RemovalFallsBack(info.reg.runnerId, if info.name in tokens then tokens[info.name] else "", input.answers, input.byIdClient);
    }
  }

  /** And every one of them is tried, by its token if that is at hand, and by the id if it is not
      or if that failed. */
  lemma {:induction false} EveryUnitIsTried(regs: seq<RegInfo>, tokens: map<string, string>, inputs: Removals, info: RegInfo)
    requires info in regs && info.createOptions.Some? && info.reg.runnerId != 0
    ensures
      var token, input, calls := if info.name in tokens then tokens[info.name] else "", inputs(info.name), CallsOf(regs, tokens, inputs);
      && (token != "" && input.answers.client ==> DeleteByToken(token) in calls)
      && (input.byIdClient && (token == "" || (input.answers.client && !input.answers.deleteByToken.Done?)) ==>
            DeleteById(info.reg.runnerId) in calls)
    decreases |regs|
  {
    var n := |regs| - 1;
    if info == regs[n] {
      var token, input := if info.name in tokens then tokens[info.name] else "", inputs(info.name);
      RemovalFallsBack(info.reg.runnerId, token, input.answers, input.byIdClient);
    } else {
      EveryUnitIsTried(regs[..n], tokens, inputs, info);
    }
  }

  /** The units of an object as deregistration sees them. */
  function Units(entries: seq<Entry>, rs: Registrations): (r: seq<RegInfo>)
    ensures |r| == |entries|
    ensures forall i | 0 <= i < |r| :: r[i] == RegInfo(entries[i].name, entries[i].createOptions, Lookup(rs, entries[i].name))
  {
    seq(|entries|, i requires 0 <= i < |entries| => RegInfo(entries[i].name, entries[i].createOptions, Lookup(rs, entries[i].name)))
  }

  /** Every unit's removal was attempted. */
  ghost predicate Attempted(gitlab: GitlabClient, calls0: seq<Call>, live0: Runners, regs: seq<RegInfo>,
                            tokens: map<string, string>,
                            inputs: Removals)
    reads gitlab
  {
    gitlab.calls == calls0 + CallsOf(regs, tokens, inputs) && gitlab.live == LeftLive(regs, live0, tokens, inputs)
  }

  /** Removes the managed runners of every unit, going on after a failure; succeeds exactly
      when the Secret could be read and GitLab confirmed every removal. */
  method RemoveManagedRunners(gitlab: GitlabClient, obj: RunnerObject, secret: SecretStore, inputs: Removals)
    returns (ok: bool, ghost tokens: map<string, string>)
    modifies gitlab, secret.api
    ensures secret.api.faults >= old(secret.api.faults)
    ensures secret.api.faults == old(secret.api.faults) ==> AreTokensOf(tokens, secret.data.GetOr(map[]))
    ensures ok <==> secret.api.faults == old(secret.api.faults) && Confirmed(Units(obj.entries, obj.status.registrations), tokens, inputs)
    ensures secret.api.faults == old(secret.api.faults) ==>
              Attempted(gitlab, old(gitlab.calls), old(gitlab.live), Units(obj.entries, obj.status.registrations), tokens, inputs)
    ensures OnlyDeletes(old(gitlab.calls), gitlab.calls)
  {
    tokens := map[];
    var existing := secret.ExistingConfigTokens();
    if existing.None? {
      return false, tokens;
    }
    tokens := existing.value;
    var gotCA := secret.api.Call();
    if !gotCA.Done? {
      return false, tokens;
    }
    var regs := obj.RegistrationConfig();
    assert regs == Units(obj.entries, obj.status.registrations);
    ok := RemoveAll(gitlab, regs, existing.value, inputs);
  }

  method RemoveUnit(gitlab: GitlabClient, info: RegInfo, tokens: map<string, string>, inputs: Removals) returns (ok: bool)
    modifies gitlab
    ensures ok == RemovalOf(info, tokens, inputs).1 && gitlab.calls == old(gitlab.calls) + RemovalOf(info, tokens, inputs).0
    ensures gitlab.live == Effects(old(gitlab.live), RemovalOf(info, tokens, inputs).0, inputs(info.name).answers)
  {
    var input := inputs(info.name);
    var token := if info.name in tokens then tokens[info.name] else "";
    ok := DeleteManagedRunner(gitlab, info.reg.runnerId, token, input.answers, input.byIdClient);
  }

  /** After the first `n` units: what was called, who is left, and whether all went well. */
  ghost predicate Removed(calls: seq<Call>, live: Runners, ok: bool, regs: seq<RegInfo>, n: nat, calls0: seq<Call>,
                          live0: Runners,
                          tokens: map<string, string>, inputs: Removals)
    requires n <= |regs|
  {
    && calls == calls0 + CallsOf(regs[..n], tokens, inputs) && live == LeftLive(regs[..n], live0, tokens, inputs)
    && (ok <==> Confirmed(regs[..n], tokens, inputs)) && OnlyDeletes(calls0, calls)
  }

  lemma CallsStep(regs: seq<RegInfo>, n: nat, tokens: map<string, string>, inputs: Removals)
    requires n < |regs|
    ensures CallsOf(regs[..n + 1], tokens, inputs) ==
            CallsOf(regs[..n], tokens, inputs) + (if ToRemove(regs[n]) then RemovalOf(regs[n], tokens, inputs).0 else [])
  {
    assert regs[..n + 1][..n] == regs[..n];
  }

  lemma LeftStep(regs: seq<RegInfo>, n: nat, live: Runners, tokens: map<string, string>, inputs: Removals)
    requires n < |regs|
    ensures LeftLive(regs[..n + 1], live, tokens, inputs) ==
            (var before := LeftLive(regs[..n], live, tokens, inputs);
             if ToRemove(regs[n]) then Effects(before, RemovalOf(regs[n], tokens, inputs).0, inputs(regs[n].name).answers) else before)
  {
    assert regs[..n + 1][..n] == regs[..n];
  }

  lemma ConfirmedStep(regs: seq<RegInfo>, n: nat, tokens: map<string, string>, inputs: Removals)
    requires n < |regs|
    ensures Confirmed(regs[..n + 1], tokens, inputs) <==>
            Confirmed(regs[..n], tokens, inputs) && (ToRemove(regs[n]) ==> RemovalOf(regs[n], tokens, inputs).1)
  {
    RemovableIff(regs[n], tokens, inputs);
    assert regs[..n + 1] == regs[..n] + [regs[n]];
  }

  lemma NotRemoved(calls: seq<Call>, live: Runners, ok: bool, regs: seq<RegInfo>, n: nat, calls0: seq<Call>, live0: Runners,
                   tokens: map<string, string>, inputs: Removals)
    requires n < |regs| && Removed(calls, live, ok, regs, n, calls0, live0, tokens, inputs) && !ToRemove(regs[n])
    ensures Removed(calls, live, ok, regs, n + 1, calls0, live0, tokens, inputs)
  {
    CallsStep(regs, n, tokens, inputs);
    LeftStep(regs, n, live0, tokens, inputs);
    ConfirmedStep(regs, n, tokens, inputs);
  }

  /** One removal more, given what its calls, its effect and its success are. */
  lemma OneRemoved(calls: seq<Call>, live: Runners, ok: bool, regs: seq<RegInfo>, n: nat, calls0: seq<Call>, live0: Runners,
                   tokens: map<string, string>, inputs: Removals, more: seq<Call>, left: Runners, removed: bool)
    requires n < |regs| && Removed(calls, live, ok, regs, n, calls0, live0, tokens, inputs) && ToRemove(regs[n])
    requires (more, removed) == RemovalOf(regs[n], tokens, inputs) && AllDeletes(more)
    requires left == Effects(live, more, inputs(regs[n].name).answers)
    ensures Removed(calls + more, left, ok && removed, regs, n + 1, calls0, live0, tokens, inputs)
  {
    CallsStep(regs, n, tokens, inputs);
    LeftStep(regs, n, live0, tokens, inputs);
    ConfirmedStep(regs, n, tokens, inputs);
    JoinCalls(calls0, CallsOf(regs[..n], tokens, inputs), more);
    OnlyDeletesStep(calls0, calls, more);
  }

  lemma JoinCalls(a: seq<Call>, b: seq<Call>, c: seq<Call>)
    ensures a + (b + c) == (a + b) + c
  {
  }

  method RemoveAll(gitlab: GitlabClient, regs: seq<RegInfo>, tokens: map<string, string>, inputs: Removals) returns (ok: bool)
    modifies gitlab
    ensures ok <==> Confirmed(regs, tokens, inputs)
    ensures Attempted(gitlab, old(gitlab.calls), old(gitlab.live), regs, tokens, inputs)
    ensures OnlyDeletes(old(gitlab.calls), gitlab.calls)
  {
    ok := true;
    ghost var calls0, live0 := gitlab.calls, gitlab.live;
    for i := 0 to |regs|
      invariant Removed(gitlab.calls, gitlab.live, ok, regs, i, calls0, live0, tokens, inputs)
    {
      var info := regs[i];
      if info.createOptions.Some? && info.reg.runnerId != 0 {
        ghost var calls, live := gitlab.calls, gitlab.live;
        var removed := RemoveUnit(gitlab, info, tokens, inputs);
        RemovalsAreDeletes(info, tokens, inputs);
        OneRemoved(calls, live, ok, regs, i, calls0, live0, tokens, inputs, RemovalOf(info, tokens, inputs).0, gitlab.live, removed);
        ok := ok && removed;
      } else {
        NotRemoved(gitlab.calls, gitlab.live, ok, regs, i, calls0, live0, tokens, inputs);
      }
    }
    assert regs[..|regs|] == regs;
  }

  lemma RemovalsAreDeletes(info: RegInfo, tokens: map<string, string>, inputs: Removals)
    ensures AllDeletes(RemovalOf(info, tokens, inputs).0)
  {
  }

  lemma OnlyDeletesStep(before: seq<Call>, after: seq<Call>, more: seq<Call>)
    requires OnlyDeletes(before, after)
    requires AllDeletes(more)
    ensures OnlyDeletes(before, after + more)
  {
  }

  ghost predicate OnlyDeletes(before: seq<Call>, after: seq<Call>) {
    before <= after && forall i | |before| <= i < |after| :: after[i].DeleteByToken? || after[i].DeleteById?
  }

  // ----- one pass over an object marked for deletion -----

  /** No binding of the object is left outside its own namespace. */
  ghost predicate OnlyOwnNamespace(st: State, o: Rbac.Owner) {
    forall k | k in st.bindings && OwnedBy(st.bindings[k], o) :: k.namespace == o.namespace
  }

  /** Only bindings of the object are gone, and none of those it may have in its own namespace. */
  ghost predicate PrunesElsewhere(before: State, st: State, o: Rbac.Owner) {
    forall k | k in before.bindings && k !in st.bindings ::
      OwnedBy(before.bindings[k], o) && forall grant :: k != KeyOf(o, o.namespace, grant)
  }

  lemma KeepsOwnNamespace(before: State, st: State, o: Rbac.Owner, keep: seq<BindingKey>)
    requires forall b :: b in keep <==> b.namespace == o.namespace
    requires before.bindings.Keys - st.bindings.Keys <= Prunable(before, o, keep)
    ensures PrunesElsewhere(before, st, o)
  {
    forall k | k in before.bindings && k !in st.bindings
      ensures OwnedBy(before.bindings[k], o) && forall grant :: k != KeyOf(o, o.namespace, grant)
    {
      assert k in before.bindings.Keys - st.bindings.Keys;
      forall grant
        ensures k != KeyOf(o, o.namespace, grant)
      {
        assert BindingKey(o.namespace, grant) in keep;
      }
    }
  }

  /** Writes the metadata of the object in memory to the server. */
  method UpdateObject(obj: RunnerObject, stored: StoredObject, crs: Api) returns (ok: bool)
    modifies stored`finalizer, stored`annotations, crs
    ensures crs.faults >= old(crs.faults) && (ok <==> crs.faults == old(crs.faults))
    ensures ok ==> stored.finalizer == obj.finalizer && stored.annotations == obj.annotations
    ensures (stored.finalizer == old(stored.finalizer) && stored.annotations == old(stored.annotations))
            || (stored.finalizer == obj.finalizer && stored.annotations == obj.annotations)
  {
    var r := crs.Call();
    if r.Applied() {
      stored.finalizer := obj.finalizer;
      stored.annotations := obj.annotations;
    }
    ok := r.Done?;
  }

  ghost function MetadataOf(stored: StoredObject): Metadata
    reads stored`finalizer, stored`annotations
  {
    Metadata(stored.finalizer, stored.annotations)
  }

  /** The servers a pass talks to. `crs` is the channel for the object itself. */
  datatype Stores = Stores(crs: Api, rbac: Store, deployments: DeploymentStore, pods: PodStore, secret: SecretStore,
                           gitlab: GitlabClient)

  /** The last part of the pass, once deregistration was tried: count a failure, prune other
      namespaces, drop the finalizer. */
  method LetGo(crs: Api, rbac: Store, obj: RunnerObject, stored: StoredObject, deregistered: bool) returns (ok: bool)
    requires rbac.Valid() && obj.finalizer == stored.finalizer && obj.annotations == stored.annotations
    modifies crs, rbac, rbac.api, obj`finalizer, obj`annotations, stored`finalizer, stored`annotations
    ensures rbac.Valid() && Shrunk(rbac.st, old(rbac.st))
    ensures crs.faults >= old(crs.faults) && rbac.api.faults >= old(rbac.api.faults)
    ensures ok ==> !stored.finalizer
    ensures stored.finalizer ==> old(stored.finalizer)
    ensures old(stored.finalizer) && !stored.finalizer ==>
              OnlyOwnNamespace(rbac.st, obj.Owner())
              && (deregistered || Increment(DeleteAttempts(old(stored.annotations))) >= MAX_DELETE_ATTEMPTS)
    ensures crs.faults == old(crs.faults) && rbac.api.faults == old(rbac.api.faults) ==>
              && MetadataOf(stored) == FinalizePass(old(MetadataOf(stored)), deregistered)
              && (ok <==> deregistered || Increment(DeleteAttempts(old(stored.annotations))) >= MAX_DELETE_ATTEMPTS)
    ensures PrunesElsewhere(old(rbac.st), rbac.st, obj.Owner())
  {
    if !deregistered {
      var attempts := Increment(DeleteAttempts(obj.annotations));
      obj.annotations := SetDeleteAttempts(obj.annotations, attempts);
      var _ := UpdateObject(obj, stored, crs);
      if attempts < MAX_DELETE_ATTEMPTS {
        return false;
      }
    }
    var keep := AllBindingsIn(obj.namespace);
    ghost var before := rbac.st;
    var pruned := rbac.DeleteRBACExcept(obj.Owner(), keep);
    KeepsOwnNamespace(before, rbac.st, obj.Owner(), keep);
    if !pruned {
      return false;
    }
    PrunedToOwnNamespace(before, rbac.st, obj.Owner(), keep);
    obj.finalizer := false;
    ok := UpdateObject(obj, stored, crs);
  }

  lemma PrunedToOwnNamespace(before: State, st: State, o: Rbac.Owner, keep: seq<BindingKey>)
    requires forall b :: b in keep <==> b.namespace == o.namespace
    requires st.bindings == before.bindings - Prunable(before, o, keep)
    ensures OnlyOwnNamespace(st, o)
  {
  }

  /** What a deletion pass changes, or must not change. */
  datatype Scene = Scene(calls: seq<Call>, live: Runners, rbac: State, deployment: Option<Deployment>, pods: Pods,
                         secret: Option<Data>, metadata: Metadata)

  ghost function SceneOf(s: Stores, stored: StoredObject): Scene
    reads s.gitlab`calls, s.gitlab`live, s.rbac`st, s.deployments`stored, s.pods`pods, s.secret`data, stored`finalizer, stored`annotations
  {
    Scene(s.gitlab.calls, s.gitlab.live, s.rbac.st, s.deployments.stored, s.pods.pods, s.secret.data, MetadataOf(stored))
  }

  /** Which servers answered all calls. */
  datatype Calm = Calm(crs: bool, rbac: bool, deployments: bool, pods: bool, secret: bool)

  /** The object and the world's part in one deletion pass. */
  datatype Ending = Ending(owner: Rbac.Owner, units: seq<RegInfo>, now: nat, inputs: Removals, calm: Calm)

  /** How far the pass came: whether the manager was drained, whether every unit was
      deregistered and with which tokens, and whether it came to the end. */
  datatype Progress = Progress(drained: bool, deregistered: bool, tokens: map<string, string>, ended: bool)

  /** Nothing is created, written or granted; what is there may go. */
  ghost predicate OnlyTakesAway(before: Scene, after: Scene) {
    && OnlyDeletes(before.calls, after.calls) && Shrunk(after.rbac, before.rbac)
    && (after.deployment == before.deployment || after.deployment.None?) && after.secret == before.secret
    && (after.metadata.finalizer ==> before.metadata.finalizer)
  }

  /** Every unit's removal was attempted and all succeeded or not, as reported. */
  ghost predicate Deregistered(before: Scene, after: Scene, e: Ending, p: Progress) {
    && (p.deregistered <==> Confirmed(e.units, p.tokens, e.inputs)) && AreTokensOf(p.tokens, after.secret.GetOr(map[]))
    && after.calls == before.calls + CallsOf(e.units, p.tokens, e.inputs)
    && after.live == LeftLive(e.units, before.live, p.tokens, e.inputs)
  }

  /** The finalizer goes only when no binding is left outside the own namespace and every unit
      was deregistered or the attempts are used up; and it does go, or the counter moves, when
      updates and RBAC calls succeed. */
  ghost predicate Released(before: Scene, after: Scene, e: Ending, p: Progress) {
    && (p.deregistered || e.calm.secret ==> Deregistered(before, after, e, p))
    && (before.metadata.finalizer && !after.metadata.finalizer ==>
          OnlyOwnNamespace(after.rbac, e.owner)
          && (p.deregistered || Increment(DeleteAttempts(before.metadata.annotations)) >= MAX_DELETE_ATTEMPTS))
    && (p.ended ==> !after.metadata.finalizer)
    && (e.calm.crs && e.calm.rbac ==>
          && after.metadata == FinalizePass(before.metadata, p.deregistered)
          && (p.ended <==> p.deregistered || Increment(DeleteAttempts(before.metadata.annotations)) >= MAX_DELETE_ATTEMPTS))
    && PrunesElsewhere(before.rbac, after.rbac, e.owner)
  }

  /** What one pass over an object marked for deletion does. */
  ghost predicate Finalized(before: Scene, after: Scene, e: Ending, p: Progress) {
    && OnlyTakesAway(before, after)
    && OthersUntouched(before.pods, after.pods, ManagerPods(before.pods, e.owner.kind, e.owner.name))
    // nothing is deregistered, revoked or let go before the drain reports done
    && (p.drained ==> Drained(before.pods, e.owner.kind, e.owner.name, e.now) && after.deployment.None?)
    && (!p.drained ==> after.calls == before.calls && after.live == before.live && after.rbac == before.rbac
                       && after.metadata == before.metadata && !p.deregistered && !p.ended)
    && (p.drained ==> Released(before, after, e, p))
    // without faults the manager is stopped, and no drained manager is waited for
    && (e.calm.deployments && e.calm.pods ==>
          after.deployment.None? && AllTerminating(after.pods, e.owner.kind, e.owner.name)
          && (p.drained <==> Drained(before.pods, e.owner.kind, e.owner.name, e.now)))
  }

  /** A pass that came past the drain, from what its two parts promise. */
  lemma DrainedIsFinalized(before: Scene, drained: Scene, after: Scene, e: Ending, released: Ending, p: Progress)
    requires drained == before.(deployment := None) && Drained(before.pods, e.owner.kind, e.owner.name, e.now)
    requires AllTerminating(before.pods, e.owner.kind, e.owner.name)
    requires OnlyTakesAway(drained, after) && Released(drained, after, released, p) && p.drained && after.pods == before.pods
    requires released == e.(calm := released.calm)
    requires (e.calm.crs ==> released.calm.crs) && (e.calm.rbac ==> released.calm.rbac) && (e.calm.secret ==> released.calm.secret)
    ensures Finalized(before, after, e, p)
  {
    assert OthersUntouched(before.pods, after.pods, ManagerPods(before.pods, e.owner.kind, e.owner.name));
  }

  /** Once drained: deregister every unit, then let go. */
  method Release(s: Stores, obj: RunnerObject, stored: StoredObject, now: nat, inputs: Removals)
    returns (ok: bool, ghost p: Progress, ghost e: Ending)
    requires s.rbac.Valid() && obj.finalizer == stored.finalizer && obj.annotations == stored.annotations
    modifies s.crs, s.rbac, s.rbac.api, s.secret.api, s.gitlab, obj`finalizer, obj`annotations, stored`finalizer, stored`annotations
    ensures s.rbac.Valid() && p.drained && ok == p.ended
    ensures s.crs.faults >= old(s.crs.faults) && s.rbac.api.faults >= old(s.rbac.api.faults)
    ensures s.secret.api.faults >= old(s.secret.api.faults)
    ensures e == Ending(obj.Owner(), Units(obj.entries, obj.status.registrations), now, inputs, e.calm)
    ensures e.calm == Calm(s.crs.faults == old(s.crs.faults), s.rbac.api.faults == old(s.rbac.api.faults), true, true,
                           s.secret.api.faults == old(s.secret.api.faults))
    ensures OnlyTakesAway(old(SceneOf(s, stored)), SceneOf(s, stored)) && Released(old(SceneOf(s, stored)), SceneOf(s, stored), e, p)
  {
    var removed: bool;
    ghost var tokens;
    removed, tokens := RemoveManagedRunners(s.gitlab, obj, s.secret, inputs);
    ok := LetGo(s.crs, s.rbac, obj, stored, removed);
    p := Progress(true, removed, tokens, ok);
    e := Ending(obj.Owner(), Units(obj.entries, obj.status.registrations), now, inputs,
                Calm(s.crs.faults == old(s.crs.faults), s.rbac.api.faults == old(s.rbac.api.faults), true, true,
                     s.secret.api.faults == old(s.secret.api.faults)));
  }

  /** Waits for the drain, deregisters, prunes other namespaces, then drops the finalizer; `ok`
      when it came to the end. */
  method FinalizeDeletion(s: Stores, obj: RunnerObject, stored: StoredObject, now: nat, inputs: Removals)
    returns (ok: bool, ghost p: Progress, ghost e: Ending)
    requires s.rbac.Valid() && obj.finalizer == stored.finalizer && obj.annotations == stored.annotations
    modifies s.crs, s.rbac, s.rbac.api, s.deployments, s.deployments.api, s.pods, s.pods.api, s.secret.api, s.gitlab
    modifies obj`finalizer, obj`annotations, stored`finalizer, stored`annotations
    ensures s.rbac.Valid() && ok == p.ended
    ensures e == Ending(obj.Owner(), Units(obj.entries, obj.status.registrations), now, inputs, e.calm)
    ensures e.calm == Calm(s.crs.faults == old(s.crs.faults), s.rbac.api.faults == old(s.rbac.api.faults),
                           s.deployments.api.faults == old(s.deployments.api.faults), s.pods.api.faults == old(s.pods.api.faults),
                           s.secret.api.faults == old(s.secret.api.faults))
    ensures Finalized(old(SceneOf(s, stored)), SceneOf(s, stored), e, p)
  {
    ok, p := false, Progress(false, false, map[], false);
    ghost var before := SceneOf(s, stored);
    var done, failed := DrainManager(s.deployments, s.pods, obj.kind, obj.name, now);
    if failed || !done {
      e := Ending(obj.Owner(), Units(obj.entries, obj.status.registrations), now, inputs,
                  Calm(s.crs.faults == old(s.crs.faults), s.rbac.api.faults == old(s.rbac.api.faults),
                       s.deployments.api.faults == old(s.deployments.api.faults), s.pods.api.faults == old(s.pods.api.faults),
                       s.secret.api.faults == old(s.secret.api.faults)));
      return;
    }
    ghost var drained := SceneOf(s, stored);
    ghost var released;
    ok, p, released := Release(s, obj, stored, now, inputs);
    e := released.(calm := Calm(s.crs.faults == old(s.crs.faults), s.rbac.api.faults == old(s.rbac.api.faults),
                                s.deployments.api.faults == old(s.deployments.api.faults), s.pods.api.faults == old(s.pods.api.faults),
                                s.secret.api.faults == old(s.secret.api.faults)));
    DrainedIsFinalized(before, drained, SceneOf(s, stored), e, released, p);
  }
}
