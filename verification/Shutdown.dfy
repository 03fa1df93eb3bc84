/** From the deletion mark to the end of the object, over whole runs. */
module Shutdown {
  import opened Names
  import opened Rbac
  import opened ManagedRunner
  import opened RunnerObject
  import opened ConfigSecret
  import opened Drain
  import opened Decimal
  import opened Finalize

  /** The object's own bindings. */
  ghost function Own(st: State, o: Owner): map<Key, Binding> {
    map k | k in st.bindings && OwnedBy(st.bindings[k], o) :: st.bindings[k]
  }

  ghost predicate Within(small: map<Key, Binding>, big: map<Key, Binding>) {
    small.Keys <= big.Keys && forall k | k in small :: small[k] == big[k]
  }

  /** No runner is created or verified, no binding of the object granted, the Deployment not
      created again, the Secret not written, the finalizer not set again. */
  ghost predicate NothingProvided(a: Scene, b: Scene, o: Owner) {
    && OnlyDeletes(a.calls, b.calls) && Within(Own(b.rbac, o), Own(a.rbac, o))
    && (b.deployment == a.deployment || b.deployment.None?) && b.secret == a.secret
    && (b.metadata.finalizer ==> a.metadata.finalizer)
  }

  lemma TakingAwayProvidesNothing(a: Scene, b: Scene, o: Owner)
    requires OnlyTakesAway(a, b)
    ensures NothingProvided(a, b, o)
  {
  }

  lemma NothingProvidedTwice(a: Scene, b: Scene, c: Scene, o: Owner)
    requires NothingProvided(a, b, o) && NothingProvided(b, c, o)
    ensures NothingProvided(a, c, o)
  {
  }

  // ----- nothing is provided after the mark -----

  datatype Moment = Moment(deleting: bool, scene: Scene)

  /** Between passes pods come and go, runners disappear and other objects are reconciled; the
      operator's calls, the object's own bindings, Secret, Deployment and metadata stay. */
  ghost predicate Undisturbed(a: Scene, b: Scene, o: Owner) {
    && b.calls == a.calls && Own(b.rbac, o) == Own(a.rbac, o)
    && b.deployment == a.deployment && b.secret == a.secret && b.metadata == a.metadata
  }

  /** What a pass promises: once the mark is there it stays, and the pass only takes away. */
  ghost predicate RespectsMark(a: Moment, b: Moment) {
    a.deleting ==> b.deleting && OnlyTakesAway(a.scene, b.scene)
  }

  ghost predicate IsLife(run: seq<Moment>, o: Owner) {
    forall i | 0 < i < |run| ::
      || RespectsMark(run[i - 1], run[i])
      || (Undisturbed(run[i - 1].scene, run[i].scene, o) && (run[i - 1].deleting ==> run[i].deleting))
  }

  /** However long the life goes on after the mark, the operator provides nothing any more. */
  lemma {:induction false} NothingFollowsTheMark(run: seq<Moment>, o: Owner, i: nat, j: nat)
    requires IsLife(run, o) && i <= j < |run| && run[i].deleting
    ensures run[j].deleting && NothingProvided(run[i].scene, run[j].scene, o)
    decreases j
  {
    if i < j {
      NothingFollowsTheMark(run, o, i, j - 1);
      if RespectsMark(run[j - 1], run[j]) {
        TakingAwayProvidesNothing(run[j - 1].scene, run[j].scene, o);
      }
      NothingProvidedTwice(run[i].scene, run[j - 1].scene, run[j].scene, o);
    }
  }

  // ----- the order of the shutdown -----

  /** One pass over the marked object. */
  datatype Pass = Pass(before: Scene, after: Scene, ending: Ending, progress: Progress)

  ghost predicate IsShutdown(run: seq<Pass>, o: Owner) {
    && (forall i | 0 <= i < |run| ::
          run[i].ending.owner == o && Finalized(run[i].before, run[i].after, run[i].ending, run[i].progress))
    && forall i | 0 < i < |run| :: Undisturbed(run[i - 1].after, run[i].before, o)
  }

  /** Until a pass finds the manager drained, no runner is deregistered, no binding revoked and
      the finalizer and the attempt counter stay as they were. */
  lemma {:induction false} NothingBeforeTheDrain(run: seq<Pass>, o: Owner, n: nat)
    requires IsShutdown(run, o) && n < |run|
    requires forall i | 0 <= i < n :: !run[i].progress.drained
    ensures run[n].before.calls == run[0].before.calls
    ensures Own(run[n].before.rbac, o) == Own(run[0].before.rbac, o)
    ensures run[n].before.metadata == run[0].before.metadata
    decreases n
  {
    if n > 0 {
      NothingBeforeTheDrain(run, o, n - 1);
      assert Finalized(run[n - 1].before, run[n - 1].after, run[n - 1].ending, run[n - 1].progress);
      assert Undisturbed(run[n - 1].after, run[n].before, o);
    }
  }

  /** The pass that let the object go: it found the manager drained, left no binding outside
      the own namespace, and had every unit's removal confirmed or used up the attempts. */
  ghost predicate LetsGo(p: Pass) {
    && p.progress.drained && p.before.metadata.finalizer && !p.after.metadata.finalizer
    && OnlyOwnNamespace(p.after.rbac, p.ending.owner)
    && ((p.progress.deregistered && Confirmed(p.ending.units, p.progress.tokens, p.ending.inputs))
        || Increment(DeleteAttempts(p.before.metadata.annotations)) >= MAX_DELETE_ATTEMPTS)
  }

  /** If the finalizer is gone, some pass let the object go in good order. */
  lemma {:induction false} FinalizerGoesInOrder(run: seq<Pass>, o: Owner, n: nat) returns (i: nat)
    requires IsShutdown(run, o) && n < |run| && run[0].before.metadata.finalizer && !run[n].after.metadata.finalizer
    ensures i <= n && LetsGo(run[i])
    decreases n
  {
    assert Finalized(run[n].before, run[n].after, run[n].ending, run[n].progress);
    if run[n].before.metadata.finalizer {
      i := n;
    } else {
      assert Undisturbed(run[n - 1].after, run[n].before, o);
      i := FinalizerGoesInOrder(run, o, n - 1);
    }
  }

  // ----- and it ends -----

  /** Whether each pass deregistered all units. */
  function AnswersOf(run: seq<Pass>): seq<bool> {
    seq(|run|, i requires 0 <= i < |run| => run[i].progress.deregistered)
  }

  lemma {:induction false} RunSnoc(m: Metadata, answers: seq<bool>, last: bool)
    ensures FinalizeRun(m, answers + [last]) == FinalizePass(FinalizeRun(m, answers), last)
    decreases |answers|
  {
    if answers == [] {
      assert [last][1..] == [];
    } else {
      assert (answers + [last])[1..] == answers[1..] + [last];
      RunSnoc(FinalizePass(m, answers[0]), answers[1..], last);
    }
  }

  lemma DrainedPassCounts(p: Pass)
    requires Finalized(p.before, p.after, p.ending, p.progress)
    requires p.progress.drained && p.ending.calm.crs && p.ending.calm.rbac
    ensures p.after.metadata == FinalizePass(p.before.metadata, p.progress.deregistered)
  {
  }

  lemma OneMoreAnswer(run: seq<Pass>, n: nat)
    requires n < |run|
    ensures AnswersOf(run[..n + 1]) == AnswersOf(run[..n]) + [run[n].progress.deregistered]
  {
  }

  /** Drained passes whose updates and RBAC calls succeed take the counter where `FinalizeRun`
      takes it. */
  lemma {:induction false} ShutdownIsFinalizeRun(run: seq<Pass>, o: Owner, n: nat)
    requires IsShutdown(run, o) && n < |run|
    requires forall i | 0 <= i <= n :: run[i].progress.drained && run[i].ending.calm.crs && run[i].ending.calm.rbac
    ensures run[n].after.metadata == FinalizeRun(run[0].before.metadata, AnswersOf(run[..n + 1]))
    decreases n
  {
    var m := run[0].before.metadata;
    DrainedPassCounts(run[n]);
    OneMoreAnswer(run, n);
    RunSnoc(m, AnswersOf(run[..n]), run[n].progress.deregistered);
    if n > 0 {
      ShutdownIsFinalizeRun(run, o, n - 1);
      assert Undisturbed(run[n - 1].after, run[n].before, o);
    } else {
      assert AnswersOf(run[..0]) == [];
    }
  }

  /** Once drained, the finalizer is gone after `PassesNeeded` such passes, whatever GitLab answers. */
  lemma ShutdownEnds(run: seq<Pass>, o: Owner, n: nat)
    requires IsShutdown(run, o) && n < |run| && run[0].before.metadata.finalizer
    requires forall i | 0 <= i <= n :: run[i].progress.drained && run[i].ending.calm.crs && run[i].ending.calm.rbac
    requires n + 1 >= PassesNeeded(DeleteAttempts(run[0].before.metadata.annotations))
    ensures !run[n].after.metadata.finalizer
  {
    ShutdownIsFinalizeRun(run, o, n);
    FinalizationNeverWedges(run[0].before.metadata, AnswersOf(run[..n + 1]));
  }

  // ----- from the mark to the end -----

  /** Every call but GitLab's is answered, no manager pod appears between passes, and all but the
      first pass start more than the margin after the deadlines of the pods the first one left. */
  ghost predicate InTime(run: seq<Pass>, o: Owner, deadline: nat) {
    && (forall i | 0 <= i < |run| ::
          var calm := run[i].ending.calm;
          calm.crs && calm.rbac && calm.deployments && calm.pods && (i > 0 ==> run[i].ending.now > deadline + DRAIN_MARGIN))
    && (forall i | 0 < i < |run| :: NoNewPods(run[i - 1].after.pods, run[i].before.pods, o.kind, o.name))
    && (run != [] ==>
          var left := run[0].after.pods;
          forall p | p in left && OwnsPod(o.kind, o.name, left[p]) && left[p].deletion.Some? :: left[p].deletion.value <= deadline)
  }

  /** A pass over pods that are all terminating adds none. */
  lemma PassAddsNoPods(p: Pass, first: Pods, o: Owner)
    requires Finalized(p.before, p.after, p.ending, p.progress) && p.ending.owner == o
    requires AllTerminating(first, o.kind, o.name) && NoNewPods(first, p.before.pods, o.kind, o.name)
    ensures NoNewPods(first, p.after.pods, o.kind, o.name)
  {
    forall q | q in p.after.pods && OwnsPod(o.kind, o.name, p.after.pods[q])
      ensures q in first && p.after.pods[q] == first[q]
    {
      assert q in p.before.pods;
      if q in ManagerPods(p.before.pods, o.kind, o.name) {
        assert p.before.pods[q] == first[q];
      }
    }
  }

  /** Only pods the first pass left are there when a later one starts, and it finds them drained. */
  lemma {:induction false} LaterPassesAreDrained(run: seq<Pass>, o: Owner, deadline: nat, n: nat)
    requires IsShutdown(run, o) && InTime(run, o, deadline) && 0 < n < |run|
    ensures NoNewPods(run[0].after.pods, run[n].before.pods, o.kind, o.name) && run[n].progress.drained
    decreases n
  {
    var first := run[0].after.pods;
    assert Finalized(run[0].before, run[0].after, run[0].ending, run[0].progress);
    assert Finalized(run[n].before, run[n].after, run[n].ending, run[n].progress);
    assert NoNewPods(run[n - 1].after.pods, run[n].before.pods, o.kind, o.name);
    if n > 1 {
      LaterPassesAreDrained(run, o, deadline, n - 1);
      PassAddsNoPods(run[n - 1], first, o);
    }
    DrainIsBounded(first, run[n].before.pods, o.kind, o.name, deadline, run[n].ending.now);
  }

  lemma RestIsShutdown(run: seq<Pass>, o: Owner)
    requires IsShutdown(run, o) && run != []
    ensures IsShutdown(run[1..], o)
  {
    var rest := run[1..];
    forall i | 0 < i < |rest|
      ensures Undisturbed(rest[i - 1].after, rest[i].before, o)
    {
      assert rest[i] == run[i + 1] && rest[i - 1] == run[i];
    }
  }

  /** From the first deletion pass on: the finalizer is gone one pass after `PassesNeeded` at the
      latest, whatever GitLab answers. */
  lemma ShutdownCompletes(run: seq<Pass>, o: Owner, deadline: nat)
    requires IsShutdown(run, o) && InTime(run, o, deadline) && run != [] && run[0].before.metadata.finalizer
    requires |run| >= 1 + PassesNeeded(DeleteAttempts(run[0].before.metadata.annotations))
    ensures !run[|run| - 1].after.metadata.finalizer
  {
    hide IsShutdown, NoNewPods, Own;
    AttemptsAreInRange(run[0].before.metadata.annotations);
    forall i | 0 < i < |run|
      ensures run[i].progress.drained
    {
      LaterPassesAreDrained(run, o, deadline, i);
    }
    if run[0].progress.drained {
      ShutdownEnds(run, o, |run| - 1);
    } else {
      NothingBeforeTheDrain(run, o, 1);
      RestIsShutdown(run, o);
      var rest := run[1..];
      ShutdownEnds(rest, o, |rest| - 1);
    }
  }

  /** A drained pass whose calls are answered is the last one if GitLab confirms, for every managed
      unit that has a runner, one of the two ways to remove it. */
  lemma ConfirmedPassIsLast(p: Pass)
    requires Finalized(p.before, p.after, p.ending, p.progress) && p.progress.drained
    requires p.ending.calm.crs && p.ending.calm.rbac && p.ending.calm.secret
    requires Confirmed(p.ending.units, TokensIn(p.after.secret), p.ending.inputs)
    ensures p.progress.ended && !p.after.metadata.finalizer
  {
    TokensInAre(p.after.secret, p.progress.tokens);
  }

  // ----- what is left behind -----

  /** Own bindings never change until they go. */
  lemma {:induction false} OwnBindingsOnlyGo(run: seq<Pass>, o: Owner, i: nat, n: nat)
    requires IsShutdown(run, o) && i <= n < |run|
    ensures Within(Own(run[n].after.rbac, o), Own(run[i].after.rbac, o))
    decreases n
  {
    if i < n {
      OwnBindingsOnlyGo(run, o, i, n - 1);
      PassOnlyTakesOwn(run[n], o);
      assert Undisturbed(run[n - 1].after, run[n].before, o);
    }
  }

  lemma PassOnlyTakesOwn(p: Pass, o: Owner)
    requires Finalized(p.before, p.after, p.ending, p.progress)
    ensures Within(Own(p.after.rbac, o), Own(p.before.rbac, o))
  {
    TakingAwayProvidesNothing(p.before, p.after, o);
  }

  lemma FitIsKept(before: State, st: State, o: Owner)
    requires OwnAreFit(before, o) && Within(Own(st, o), Own(before, o))
    ensures OwnAreFit(st, o)
  {
    forall k | k in st.bindings && OwnedBy(st.bindings[k], o)
      ensures Fit(st.bindings[k], k, o)
    {
      assert k in Own(st, o) && Own(st, o)[k] == Own(before, o)[k];
    }
  }

  /** When the finalizer is gone, every binding the object has left is in its own namespace and
      owner-referenced, if its bindings were fit when the shutdown began: Kubernetes collects all
      of them with the object, and none outlives it. */
  lemma NothingOutlivesTheObject(run: seq<Pass>, o: Owner, n: nat)
    requires IsShutdown(run, o) && n < |run| && OwnAreFit(run[0].before.rbac, o)
    requires run[0].before.metadata.finalizer && !run[n].after.metadata.finalizer
    ensures forall k | k in run[n].after.rbac.bindings && OwnedBy(run[n].after.rbac.bindings[k], o) ::
              k.namespace == o.namespace && run[n].after.rbac.bindings[k].ownerReferenced
  {
    var i := FinalizerGoesInOrder(run, o, n);
    var first, last := run[0].after.rbac, run[n].after.rbac;
    OwnBindingsOnlyGo(run, o, i, n);
    OwnBindingsOnlyGo(run, o, 0, n);
    PassOnlyTakesOwn(run[0], o);
    FitIsKept(run[0].before.rbac, first, o);
    FitIsKept(first, last, o);
    forall k | k in last.bindings && OwnedBy(last.bindings[k], o)
      ensures k.namespace == o.namespace && last.bindings[k].ownerReferenced
    {
      assert k in Own(last, o) && k in Own(run[i].after.rbac, o);
    }
  }

  /** To the units, deregistration is a removal of runners like any other, so their accounting
      goes on to the end of the object. */
  lemma DeregistrationOnlyRemoves(units: seq<RegInfo>, live: Runners, tokens: map<string, string>, inputs: Removals)
    returns (ids: set<int>)
    ensures LeftLive(units, live, tokens, inputs) == live - ids
  {
    LeftWasLive(units, live, tokens, inputs);
    var left := LeftLive(units, live, tokens, inputs);
    ids := live.Keys - left.Keys;
    assert forall id :: id in left <==> id in live - ids;
    assert forall id | id in left :: left[id] == (live - ids)[id];
    assert left == live - ids;
  }
}
