/** Any number of objects reconciling their bindings at the same time, one API call at a time. */
module RbacInterleaving {
  import opened Names
  import opened Rbac
  import RbacStore

  type Bindings = map<Key, Binding>

  /** What the reconcile of one object remembers between two of its API calls: what its last
      read saw, or which listed bindings it has yet to prune. */
  datatype Thread =
    | Idle
    | SawNothing(want: BindingKey)
    | SawOtherRole(want: BindingKey)
    | Removed(want: BindingKey)
    | Pruning(todo: set<Key>)

  /** One API call. A call that fails, or a crash, is `Stop`, before or after its effect. */
  datatype Action = Look(want: BindingKey) | Write | List(keep: set<Key>) | Prune(key: Key) | Stop

  datatype System = System(bindings: Bindings, threads: map<string, Thread>)

  function ThreadOf(s: System, uid: string): Thread {
    if uid in s.threads then s.threads[uid] else Idle
  }

  /** The call as the server executes it, on what the thread read earlier. */
  function Act(o: Owner, bindings: Bindings, t: Thread, a: Action): (r: (Bindings, Thread)) {
    match a
    case Look(want) =>
      var k := KeyOf(o, want.namespace, want.grant);
      (bindings, if k !in bindings then SawNothing(want)
                 else if bindings[k].roleRef != RoleOf(want.grant) then SawOtherRole(want) else Idle)
    case Write =>
      (match t
       case SawOtherRole(want) => (bindings - {KeyOf(o, want.namespace, want.grant)}, Removed(want))
       case SawNothing(want) => (CreateIfAbsent(o, bindings, want), Idle)
       case Removed(want) => (CreateIfAbsent(o, bindings, want), Idle)
       case _ => (bindings, t))
    case List(keep) => (bindings, Pruning(set k | k in bindings && OwnedBy(bindings[k], o) && k !in keep))
    case Prune(k) =>
      if t.Pruning? && k in t.todo then (bindings - {k}, Pruning(t.todo - {k})) else (bindings, t)
    case Stop => (bindings, Idle)
  }

  /** A create that finds the name taken changes nothing. */
  function CreateIfAbsent(o: Owner, bindings: Bindings, want: BindingKey): Bindings {
    var k := KeyOf(o, want.namespace, want.grant);
    if k in bindings then bindings else bindings[k := DesiredBinding(o, want.namespace, want.grant)]
  }

  /** `objects` gives the identity behind each uid. */
  predicate Identified(objects: map<string, Owner>) {
    forall uid | uid in objects :: objects[uid].uid == uid
  }

  datatype Event = Event(uid: string, action: Action)

  function Next(objects: map<string, Owner>, s: System, e: Event): System
    requires e.uid in objects
  {
    var r := Act(objects[e.uid], s.bindings, ThreadOf(s, e.uid), e.action);
    System(r.0, s.threads[e.uid := r.1])
  }

  function Run(objects: map<string, Owner>, s: System, events: seq<Event>): System
    requires forall i | 0 <= i < |events| :: events[i].uid in objects
    decreases |events|
  {
    if events == [] then s else Run(objects, Next(objects, s, events[0]), events[1..])
  }

  /** An object left alone does with its calls what `RbacStore` says of a reconciliation. */
  lemma AloneIsBind(objects: map<string, Owner>, s: System, uid: string, want: BindingKey, st: State)
    requires uid in objects && ThreadOf(s, uid) == Idle && st.bindings == s.bindings
    ensures
      var after := Run(objects, s, [Event(uid, Look(want)), Event(uid, Write), Event(uid, Write)]);
      after.bindings == RbacStore.Bind(st, objects[uid], want).bindings && ThreadOf(after, uid) == Idle
  {
    var look, write := Event(uid, Look(want)), Event(uid, Write);
    var s1 := Next(objects, s, look);
    var s2 := Next(objects, s1, write);
    var s3 := Next(objects, s2, write);
    assert [look, write, write][1..] == [write, write] && [write, write][1..] == [write] && [write][1..] == [];
    assert Run(objects, s3, []) == s3;
    assert Run(objects, s2, [write]) == s3;
    assert Run(objects, s1, [write, write]) == s3;
    assert s3.bindings == RbacStore.Bind(st, objects[uid], want).bindings;
  }

  // ----- isolation -----

  predicate KnownUids(objects: map<string, Owner>, events: seq<Event>) {
    forall i | 0 <= i < |events| :: events[i].uid in objects
  }

  /** The call deletes or rewrites, at `k`, a binding labelled with the uid of another object. */
  predicate Takes(objects: map<string, Owner>, s: System, e: Event, k: Key, uid: string)
    requires e.uid in objects
  {
    && uid in objects && uid != e.uid && k in s.bindings && OwnedBy(s.bindings[k], objects[uid])
    && !(k in Next(objects, s, e).bindings && Next(objects, s, e).bindings[k] == s.bindings[k])
  }

  /** The i-th call of the run takes no other object's binding. */
  ghost predicate TakesNothingAt(objects: map<string, Owner>, s: System, events: seq<Event>, i: nat)
    requires i < |events| && KnownUids(objects, events)
  {
    forall k, uid :: !Takes(objects, Run(objects, s, events[..i]), events[i], k, uid)
  }

  /** The same of all its calls, call by call. */
  ghost predicate Isolated(objects: map<string, Owner>, s: System, events: seq<Event>)
    requires KnownUids(objects, events)
    decreases |events|
  {
    events == [] || (
      && (forall k, uid :: !Takes(objects, s, events[0], k, uid))
      && Isolated(objects, Next(objects, s, events[0]), events[1..]))
  }

  lemma FirstCall(objects: map<string, Owner>, s: System, events: seq<Event>)
    requires events != [] && KnownUids(objects, events)
    ensures TakesNothingAt(objects, s, events, 0) <==> forall k, uid :: !Takes(objects, s, events[0], k, uid)
  {
    assert events[..0] == [];
    assert Run(objects, s, events[..0]) == s;
  }

  lemma LaterCall(objects: map<string, Owner>, s: System, events: seq<Event>, i: nat)
    requires 0 < i < |events| && KnownUids(objects, events)
    ensures TakesNothingAt(objects, s, events, i) <==> TakesNothingAt(objects, Next(objects, s, events[0]), events[1..], i - 1)
  {
    assert events[..i][0] == events[0] && events[..i][1..] == events[1..][..i - 1];
    assert Run(objects, s, events[..i]) == Run(objects, Next(objects, s, events[0]), events[1..][..i - 1]);
  }

  lemma {:induction false} IsolatedIsAlongRun(objects: map<string, Owner>, s: System, events: seq<Event>)
    requires KnownUids(objects, events)
    ensures Isolated(objects, s, events) <==> forall i | 0 <= i < |events| :: TakesNothingAt(objects, s, events, i)
    decreases |events|
  {
    if events != [] {
      var next, rest := Next(objects, s, events[0]), events[1..];
      IsolatedIsAlongRun(objects, next, rest);
      FirstCall(objects, s, events);
      forall i | 0 < i < |events|
        ensures TakesNothingAt(objects, s, events, i) <==> TakesNothingAt(objects, next, rest, i - 1)
      {
        LaterCall(objects, s, events, i);
      }
      if forall i | 0 <= i < |events| :: TakesNothingAt(objects, s, events, i) {
        forall i | 0 <= i < |rest|
          ensures TakesNothingAt(objects, next, rest, i)
        {
          assert TakesNothingAt(objects, s, events, i + 1);
        }
      }
    }
  }

  /** A binding with another role stands where the object may want one. */
  ghost predicate WouldReplace(o: Owner, bindings: Bindings, k: Key) {
    k in bindings && exists grant :: k == KeyOf(o, k.namespace, grant) && bindings[k].roleRef != RoleOf(grant)
  }

  /** The binding at `k` carries the object's labels, or the object may put one there. */
  ghost predicate MayHold(o: Owner, bindings: Bindings, k: Key) {
    (k in bindings && OwnedBy(bindings[k], o)) || exists grant :: k == KeyOf(o, k.namespace, grant)
  }

  /** Nobody else may hold `k`. */
  ghost predicate Exclusive(objects: map<string, Owner>, bindings: Bindings, uid: string, k: Key) {
    forall other | other in objects && other != uid :: !MayHold(objects[other], bindings, k)
  }

  /** Some object would replace a binding that another one may hold. */
  ghost predicate Contested(objects: map<string, Owner>, bindings: Bindings) {
    exists k, uid | uid in objects :: WouldReplace(objects[uid], bindings, k) && !Exclusive(objects, bindings, uid, k)
  }

  /** A thread is about to replace a binding only if nobody else may hold it, and prunes only
      what is still its own. */
  ghost predicate Harmless(objects: map<string, Owner>, bindings: Bindings, uid: string, t: Thread)
    requires uid in objects
  {
    match t
    case SawOtherRole(want) => Exclusive(objects, bindings, uid, KeyOf(objects[uid], want.namespace, want.grant))
    case Pruning(todo) => forall k | k in todo :: k in bindings && OwnedBy(bindings[k], objects[uid])
    case _ => true
  }

  ghost predicate Quiet(objects: map<string, Owner>, s: System) {
    && Identified(objects) && !Contested(objects, s.bindings)
    && forall uid | uid in objects :: Harmless(objects, s.bindings, uid, ThreadOf(s, uid))
  }

  lemma OneOwner(b: Binding, o: Owner, p: Owner)
    requires OwnedBy(b, o) && OwnedBy(b, p)
    ensures o.uid == p.uid
  {
    assert RbacLabels(o)[OWNER_UID_LABEL] == b.labels[OWNER_UID_LABEL] == RbacLabels(p)[OWNER_UID_LABEL];
  }

  // ----- an uncontested start is safe -----

  /** What a call may do to the bindings of a quiet system: nothing, add one of its own with
      the right role, or take one nobody else holds. */
  ghost predicate GentleStep(objects: map<string, Owner>, before: Bindings, after: Bindings, uid: string)
    requires uid in objects
  {
    || after == before
    || (exists want: BindingKey ::
          var k := KeyOf(objects[uid], want.namespace, want.grant);
          k !in before && after == before[k := DesiredBinding(objects[uid], want.namespace, want.grant)])
    || (exists k ::
          && k in before && after == before - {k}
          && forall other | other in objects && other != uid :: !OwnedBy(before[k], objects[other]))
  }

  lemma CallIsGentle(objects: map<string, Owner>, s: System, e: Event)
    requires Quiet(objects, s) && e.uid in objects
    ensures GentleStep(objects, s.bindings, Next(objects, s, e).bindings, e.uid)
  {
    var o, t := objects[e.uid], ThreadOf(s, e.uid);
    match e.action
    case Write =>
      match t {
        case SawNothing(want) => assert CreateIfAbsent(o, s.bindings, want) == Next(objects, s, e).bindings;
        case Removed(want) => assert CreateIfAbsent(o, s.bindings, want) == Next(objects, s, e).bindings;
        case SawOtherRole(want) =>
          var k := KeyOf(o, want.namespace, want.grant);
          assert Next(objects, s, e).bindings == s.bindings - {k};
          assert k !in s.bindings ==> s.bindings - {k} == s.bindings;
        case _ =>
      }
    case Prune(k) =>
      if t.Pruning? && k in t.todo {
        forall other | other in objects && other != e.uid
          ensures !OwnedBy(s.bindings[k], objects[other])
        {
          if OwnedBy(s.bindings[k], objects[other]) {
            OneOwner(s.bindings[k], o, objects[other]);
          }
        }
      }
    case _ =>
  }

  lemma GentleTakesNothing(objects: map<string, Owner>, s: System, e: Event)
    requires e.uid in objects && GentleStep(objects, s.bindings, Next(objects, s, e).bindings, e.uid)
    ensures forall k, uid :: !Takes(objects, s, e, k, uid)
  {
  }

  lemma GentleStaysUncontested(objects: map<string, Owner>, before: Bindings, after: Bindings, uid: string)
    requires uid in objects && GentleStep(objects, before, after, uid) && !Contested(objects, before)
    ensures !Contested(objects, after)
  {
    forall k, u | u in objects && WouldReplace(objects[u], after, k)
      ensures Exclusive(objects, after, u, k)
    {
      var grant :| k == KeyOf(objects[u], k.namespace, grant) && after[k].roleRef != RoleOf(grant);
      if k !in before || before[k] != after[k] {
        var want: BindingKey :| k == KeyOf(objects[uid], want.namespace, want.grant)
                                && after[k] == DesiredBinding(objects[uid], want.namespace, want.grant);
        BindingNamesInjective(objects[u].kind, objects[u].name, grant, objects[uid].kind, objects[uid].name, want.grant);
        assert false;
      }
      assert WouldReplace(objects[u], before, k);
      assert Exclusive(objects, before, u, k);
    }
  }

  lemma GentleKeepsHarmless(objects: map<string, Owner>, before: Bindings, after: Bindings, uid: string, other: string,
                            t: Thread)
    requires uid in objects && other in objects && other != uid && Identified(objects)
    requires GentleStep(objects, before, after, uid) && Harmless(objects, before, other, t)
    ensures Harmless(objects, after, other, t)
  {
  }

  /** However the calls of any number of objects interleave, a quiet system stays quiet. */
  lemma StepStaysQuiet(objects: map<string, Owner>, s: System, e: Event)
    requires Quiet(objects, s) && e.uid in objects
    ensures Quiet(objects, Next(objects, s, e))
    ensures forall k, uid :: !Takes(objects, s, e, k, uid)
  {
    var next := Next(objects, s, e);
    CallIsGentle(objects, s, e);
    GentleTakesNothing(objects, s, e);
    GentleStaysUncontested(objects, s.bindings, next.bindings, e.uid);
    forall uid | uid in objects
      ensures Harmless(objects, next.bindings, uid, ThreadOf(next, uid))
    {
      if uid != e.uid {
        GentleKeepsHarmless(objects, s.bindings, next.bindings, e.uid, uid, ThreadOf(s, uid));
      } else {
        OwnThreadStaysHarmless(objects, s, e);
      }
    }
  }

  lemma OwnThreadStaysHarmless(objects: map<string, Owner>, s: System, e: Event)
    requires Quiet(objects, s) && e.uid in objects
    ensures Harmless(objects, Next(objects, s, e).bindings, e.uid, ThreadOf(Next(objects, s, e), e.uid))
  {
    var o := objects[e.uid];
    if e.action.Look? {
      var k := KeyOf(o, e.action.want.namespace, e.action.want.grant);
      if k in s.bindings && s.bindings[k].roleRef != RoleOf(e.action.want.grant) {
        assert WouldReplace(o, s.bindings, k);
      }
    }
  }

  lemma {:induction false} QuietIsIsolated(objects: map<string, Owner>, s: System, events: seq<Event>)
    requires Quiet(objects, s) && KnownUids(objects, events)
    ensures Isolated(objects, s, events)
    decreases |events|
  {
    if events != [] {
      StepStaysQuiet(objects, s, events[0]);
      QuietIsIsolated(objects, Next(objects, s, events[0]), events[1..]);
    }
  }

  // ----- a contested start is not -----

  lemma LaterLoss(objects: map<string, Owner>, s: System, e: Event, rest: seq<Event>)
    requires e.uid in objects && KnownUids(objects, rest) && KnownUids(objects, [e] + rest)
    requires !Isolated(objects, Next(objects, s, e), rest)
    ensures !Isolated(objects, s, [e] + rest)
  {
    assert ([e] + rest)[1..] == rest;
  }

  /** Once a thread has seen another role, its write takes whatever stands there by then. */
  lemma ReplaceTakes(objects: map<string, Owner>, s: System, u: string, v: string, want: BindingKey)
    requires u in objects && v in objects && u != v && ThreadOf(s, u) == SawOtherRole(want)
    requires var k := KeyOf(objects[u], want.namespace, want.grant); k in s.bindings && OwnedBy(s.bindings[k], objects[v])
    ensures !Isolated(objects, s, [Event(u, Write)])
  {
    var k := KeyOf(objects[u], want.namespace, want.grant);
    assert Takes(objects, s, Event(u, Write), k, v);
  }

  /** The run that loses the binding: if the other object is yet to put its own there, it does
      so between the read and the write of the first. */
  function LosingRun(u: string, v: string, want: BindingKey, held: bool): seq<Event> {
    if held then [Event(u, Look(want)), Event(u, Write)]
    else [Event(u, Look(want)), Event(v, Look(want)), Event(v, Write), Event(v, Write), Event(u, Write)]
  }

  lemma {:induction false} ContestedIsLost(objects: map<string, Owner>, bindings: Bindings, u: string, v: string,
                                           want: BindingKey)
    requires u in objects && v in objects && u != v
    requires
      var k := KeyOf(objects[u], want.namespace, want.grant);
      && k in bindings && bindings[k].roleRef != RoleOf(want.grant)
      && (OwnedBy(bindings[k], objects[v]) || k == KeyOf(objects[v], want.namespace, want.grant))
    ensures
      var k := KeyOf(objects[u], want.namespace, want.grant);
      !Isolated(objects, System(bindings, map[]), LosingRun(u, v, want, OwnedBy(bindings[k], objects[v])))
  {
    var k := KeyOf(objects[u], want.namespace, want.grant);
    var s0 := System(bindings, map[]);
    var look, write := Event(u, Look(want)), Event(u, Write);
    var s1 := Next(objects, s0, look);
    if OwnedBy(bindings[k], objects[v]) {
      ReplaceTakes(objects, s1, u, v, want);
      LaterLoss(objects, s0, look, [write]);
    } else {
      var vLook, vWrite := Event(v, Look(want)), Event(v, Write);
      var s2 := Next(objects, s1, vLook);
      var s3 := Next(objects, s2, vWrite);
      var s4 := Next(objects, s3, vWrite);
      assert s4.bindings[k] == DesiredBinding(objects[v], want.namespace, want.grant);
      ReplaceTakes(objects, s4, u, v, want);
      LaterLoss(objects, s3, vWrite, [write]);
      LaterLoss(objects, s2, vWrite, [vWrite] + [write]);
      LaterLoss(objects, s1, vLook, [vWrite] + ([vWrite] + [write]));
      LaterLoss(objects, s0, look, [vLook] + ([vWrite] + ([vWrite] + [write])));
      assert [look] + ([vLook] + ([vWrite] + ([vWrite] + [write]))) == LosingRun(u, v, want, false);
    }
  }

  /** Isolation at every point of every interleaving holds exactly when the start is not contested. */
  lemma {:induction false} IsolationIff(objects: map<string, Owner>, bindings: Bindings)
    requires Identified(objects)
    ensures !Contested(objects, bindings) <==>
            forall events, i | KnownUids(objects, events) && 0 <= i < |events| ::
              TakesNothingAt(objects, System(bindings, map[]), events, i)
  {
    var s := System(bindings, map[]);
    if !Contested(objects, bindings) {
      forall events, i | KnownUids(objects, events) && 0 <= i < |events|
        ensures TakesNothingAt(objects, s, events, i)
      {
        QuietIsIsolated(objects, s, events);
        IsolatedIsAlongRun(objects, s, events);
      }
    } else {
      ContestedIsLostSomewhere(objects, bindings);
      var events :| KnownUids(objects, events) && !Isolated(objects, s, events);
      IsolatedIsAlongRun(objects, s, events);
    }
  }

  lemma ContestedIsLostSomewhere(objects: map<string, Owner>, bindings: Bindings)
    requires Contested(objects, bindings)
    ensures exists events :: KnownUids(objects, events) && !Isolated(objects, System(bindings, map[]), events)
  {
    var k, u :| u in objects && WouldReplace(objects[u], bindings, k) && !Exclusive(objects, bindings, u, k);
    var grant :| k == KeyOf(objects[u], k.namespace, grant) && bindings[k].roleRef != RoleOf(grant);
    var v :| v in objects && v != u && MayHold(objects[v], bindings, k);
    if !OwnedBy(bindings[k], objects[v]) {
      var grant' :| k == KeyOf(objects[v], k.namespace, grant');
      BindingNamesInjective(objects[u].kind, objects[u].name, grant, objects[v].kind, objects[v].name, grant');
    }
    ContestedIsLost(objects, bindings, u, v, BindingKey(k.namespace, grant));
    assert KnownUids(objects, LosingRun(u, v, BindingKey(k.namespace, grant), OwnedBy(bindings[k], objects[v])));
  }

  // ----- when a start is not contested -----

  /** Where every binding's name fixes its role, nothing is contested. */
  lemma NamesThatFixRolesAreSafe(objects: map<string, Owner>, bindings: Bindings)
    requires forall k, kind, name, grant | k in bindings && k.name == BindingName(kind, name, grant) ::
               bindings[k].roleRef == RoleOf(grant)
    ensures !Contested(objects, bindings)
  {
  }

  /** An object alone is never in anybody's way, whatever roles its bindings refer to. */
  lemma AloneIsSafe(o: Owner, bindings: Bindings)
    ensures !Contested(map[o.uid := o], bindings)
  {
  }

  /** A binding of an older version that refers to a role of its own is lost to an object of
      the same name in another namespace. */
  lemma OtherRolesBreakIsolation()
    ensures
      var a := Owner(Runner, "team-a", "ci", "uid-a", []);
      var b := Owner(Runner, "team-b", "ci", "uid-b", []);
      var objects := map["uid-a" := a, "uid-b" := b];
      var k := KeyOf(a, "builds", Base);
      Contested(objects, map[k := DesiredBinding(a, "builds", Base).(roleRef := "gitlab-runner-ci")])
  {
    var a := Owner(Runner, "team-a", "ci", "uid-a", []);
    var b := Owner(Runner, "team-b", "ci", "uid-b", []);
    var objects := map["uid-a" := a, "uid-b" := b];
    var k := KeyOf(a, "builds", Base);
    var bindings := map[k := DesiredBinding(a, "builds", Base).(roleRef := "gitlab-runner-ci")];
    assert |"gitlab-runner-ci"| < |EXECUTOR_ROLE|;
    assert k == KeyOf(b, k.namespace, Base);
    assert MayHold(objects["uid-a"], bindings, k);
    assert WouldReplace(objects["uid-b"], bindings, k) && !Exclusive(objects, bindings, "uid-b", k);
  }
}
