/** Whole runs of reconcile passes: what comes to rest, and when. */
module Settling {
  import opened Rbac
  import opened RbacStore
  import opened AllowList
  import opened RunnerObject
  import opened EnsureRunners
  import opened ConfigSecret
  import opened ManagerDeployment
  import opened Convergence
  import opened Reconcile
  import opened Resync
  import Shutdown

  /** A pass as it was seen. */
  datatype Seen = Seen(a: View, b: View, w: World, t: Summary, q: Requeue)

  /** Passes over one object, each from the RBAC the one before it left; none is refused. */
  ghost predicate Successive(run: seq<Seen>, o: Rbac.Owner, entries: seq<Entry>, i: nat) {
    i < |run| && Passed(run[i].a, run[i].b, o, entries, run[i].w, run[i].t, run[i].q)
    && !Refused(o, run[i].w.allowed) && (i > 0 ==> run[i].a.rbac == run[i - 1].b.rbac)
  }

  lemma CleanPassSettles(a: View, b: View, o: Rbac.Owner, entries: seq<Entry>, w: World, t: Summary, q: Requeue)
    requires Passed(a, b, o, entries, w, t, q)
    ensures t.bound && t.clean ==> RbacSettled(b.rbac, o)
    ensures !Refused(o, w.allowed) && RbacSettled(a.rbac, o) ==> b.rbac == a.rbac
  {
  }

  /** Once a pass completed RBAC without faults, from whatever bindings, no later pass changes
      it, however that one goes. */
  lemma {:induction false} RbacSettles(run: seq<Seen>, o: Rbac.Owner, entries: seq<Entry>, n: nat)
    requires n < |run| && forall i: nat | i <= n :: Successive(run, o, entries, i)
    requires run[0].t.bound && run[0].t.clean
    ensures run[n].b.rbac == run[0].b.rbac && RbacSettled(run[n].b.rbac, o)
  {
    assert Successive(run, o, entries, n);
    var p := run[n];
    CleanPassSettles(p.a, p.b, o, entries, p.w, p.t, p.q);
    if n > 0 {
      RbacSettles(run, o, entries, n - 1);
    }
  }

  /** The i-th pass over an object that holds its finalizer, in a calm world: nothing stops it
      and no call fails. */
  ghost predicate InCalm(p: Seen, o: Rbac.Owner, spec: Spec, c: Calm, i: nat) {
    && Passed(p.a, p.b, o, spec.entries, p.w, p.t, p.q) && p.t.clean && p.t.read && p.t.applied && p.t.reported
    && Unstopped(o, p.w) && Describes(spec, spec.entries, o.namespace, p.w)
    && p.w.inputs == InputsAt(c, (spec.recover)(p.a.secret), i) && p.a.stored == p.a.status
  }

  /** Between two such passes only GitLab's runners may change. */
  ghost predicate CalmSeen(run: seq<Seen>, o: Rbac.Owner, spec: Spec, c: Calm, i: nat) {
    i < |run| && InCalm(run[i], o, spec, c, i) && (i > 0 ==> run[i].a == run[i - 1].b.(live := run[i].a.live))
  }

  /** The turns of the i-th pass succeed: the first by the assumptions on the world, later ones
      because the object is provisioned. */
  lemma CalmTurnsSucceed(sn: Snapshot, spec: Spec, c: Calm, i: nat, horizon: nat)
    requires UsesConfigSecret(spec) && WellFormedFor(spec, sn.registrations) && i < horizon
    requires IsCalm(c, spec.entries, sn.registrations, horizon)
             || (Convergence.Provisioned(sn, spec, c, horizon) && HasProvidedTokens(c, spec.entries))
    ensures TurnsSucceed(spec.entries, sn.registrations, TokensIn(sn.secret), InputsAt(c, (spec.recover)(sn.secret), i))
  {
    var tokens := (spec.recover)(sn.secret);
    TokensInAre(sn.secret, tokens);
    if IsCalm(c, spec.entries, sn.registrations, horizon) {
      TurnsRegister(spec.entries, sn.registrations, tokens, c, i, horizon);
    } else {
      forall e | e in spec.entries
        ensures TurnOf(e, sn.registrations, tokens, InputsAt(c, tokens, i)).Some?
      {
        var k :| 0 <= k < |spec.entries| && spec.entries[k] == e;
        SteadyTurn(e, sn.registrations, tokens, c, i, horizon);
      }
    }
  }

  lemma CalmPassIs(p: Seen, o: Rbac.Owner, spec: Spec, c: Calm, i: nat, horizon: nat)
    requires InCalm(p, o, spec, c, i) && WellFormedFor(spec, p.a.stored.registrations) && i < horizon
    requires IsCalm(c, spec.entries, p.a.stored.registrations, horizon)
             || (Convergence.Provisioned(SnapshotOf(p.a, true), spec, c, horizon) && HasProvidedTokens(c, spec.entries))
    ensures p.t.bound && SnapshotOf(p.b, true) == CalmPass(SnapshotOf(p.a, true), spec, c, i)
  {
    hide Passed, Unstopped, IsCalm, Convergence.Provisioned;
    CalmTurnsSucceed(SnapshotOf(p.a, true), spec, c, i, horizon);
    FaultFreePassConverges(p.a, p.b, o, p.w, p.t, p.q, spec);
  }

  lemma {:induction false} CalmPasses(run: seq<Seen>, o: Rbac.Owner, spec: Spec, c: Calm, horizon: nat, i: nat)
    requires i < |run| && i < horizon && forall j: nat | j <= i :: CalmSeen(run, o, spec, c, j)
    requires UsesConfigSecret(spec) && WellFormedFor(spec, run[0].a.stored.registrations)
    requires IsCalm(c, spec.entries, run[0].a.stored.registrations, horizon)
    ensures run[i].t.bound && Convergence.Provisioned(SnapshotOf(run[i].b, true), spec, c, horizon)
    ensures SnapshotOf(run[i].b, true) == MovedTimes(SnapshotOf(run[0].b, true), spec, i)
    ensures WellFormedFor(spec, run[i].b.stored.registrations)
  {
    hide InCalm, UsesConfigSecret, IsCalm, Convergence.Provisioned, FaultFreePass, Moved;
    assert CalmSeen(run, o, spec, c, i);
    var a, b := SnapshotOf(run[i].a, true), SnapshotOf(run[i].b, true);
    ConfigSecretRoundTrips(spec);
    CalmProvides(c, spec.entries, run[0].a.stored.registrations, horizon);
    if i == 0 {
      CalmPassIs(run[0], o, spec, c, 0, horizon);
      FirstPassProvisions(a, spec, c, 0, horizon);
    } else {
      CalmPasses(run, o, spec, c, horizon, i - 1);
      CalmPassIs(run[i], o, spec, c, i, horizon);
      ProvisionedPass(a, spec, c, i, horizon);
      MoveKeepsForm(a, spec);
      OneMoreMove(SnapshotOf(run[0].b, true), spec, i, a, b);
    }
  }

  lemma MoveKeepsForm(sn: Snapshot, spec: Spec)
    ensures Moved(sn, spec).registrations == sn.registrations
  {
  }

  /** From any registrations, Secret, Deployment and bindings, three calm passes over an object
      that holds its finalizer make it ready, and no later one changes readiness, registrations, the
      Secret, the Deployment or RBAC. */
  lemma CalmPassesMakeReady(run: seq<Seen>, o: Rbac.Owner, spec: Spec, c: Calm, n: nat)
    requires 2 <= n < |run| && forall i: nat | i < |run| :: CalmSeen(run, o, spec, c, i)
    requires WellFormedFor(spec, run[0].a.stored.registrations) && IsCalm(c, spec.entries, run[0].a.stored.registrations, |run|)
    requires forall d: Deployment :: AnnotationsKept(d, (spec.admit)(d))
    ensures run[n].b.status.ready && ReadyMeans(run[n].b, o, spec.entries, run[n].w, run[n].t.tokens)
    ensures SnapshotOf(run[n].b, true) == SnapshotOf(run[2].b, true)
    ensures run[n].b.rbac == run[0].b.rbac && Granted(run[n].b.rbac, o) && OnlyWanted(run[n].b.rbac, o)
  {
    forall i: nat | i <= n
      ensures Successive(run, o, spec.entries, i)
    {
      assert CalmSeen(run, o, spec, c, i);
    }
    assert CalmSeen(run, o, spec, c, n) && CalmSeen(run, o, spec, c, 0);
    CalmPasses(run, o, spec, c, |run|, 0);
    CalmPasses(run, o, spec, c, |run|, 2);
    CalmPasses(run, o, spec, c, |run|, n);
    MovedTwice(SnapshotOf(run[0].b, true), spec, n);
    RbacSettles(run, o, spec.entries, n);
  }

  // ----- owner references over a life -----

  /** The i-th of some passes over one object, whatever its spec is by then. No create of a binding
      is raced, and between passes the object's own bindings stay. */
  ghost predicate Unraced(run: seq<Look>, o: Rbac.Owner, i: nat) {
    && i < |run| && Passed(run[i].a, run[i].b, run[i].o, run[i].entries, run[i].w, run[i].t, run[i].q) && !run[i].t.raced
    && run[i].o == o.(executors := run[i].o.executors)
    && (i > 0 ==> Shutdown.Own(run[i].a.rbac, o) == Shutdown.Own(run[i - 1].b.rbac, o))
  }

  lemma PassKeepsFit(p: Look, o: Rbac.Owner)
    requires Passed(p.a, p.b, p.o, p.entries, p.w, p.t, p.q) && !p.t.raced && p.o == o.(executors := p.o.executors)
    requires OwnAreFit(p.a.rbac, o)
    ensures OwnAreFit(p.b.rbac, o)
  {
    assert AddsFit(p.a.rbac, p.b.rbac, p.o);
    assert OwnAreFit(p.a.rbac, p.o) && RbacLabels(p.o) == RbacLabels(o);
    AddsFitStaysFit(p.a.rbac, p.b.rbac, p.o);
  }

  /** So an object that began without bindings, or with fit ones, has only fit ones ever after. */
  lemma {:induction false} BindingsStayFit(run: seq<Look>, o: Rbac.Owner, n: nat)
    requires n < |run| && forall i: nat | i <= n :: Unraced(run, o, i)
    requires OwnAreFit(run[0].a.rbac, o)
    ensures OwnAreFit(run[n].b.rbac, o)
  {
    hide Passed;
    assert Unraced(run, o, n);
    if n > 0 {
      BindingsStayFit(run, o, n - 1);
      Shutdown.FitIsKept(run[n - 1].b.rbac, run[n].a.rbac, o);
    }
    PassKeepsFit(run[n], o);
  }
}
